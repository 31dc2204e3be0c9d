/**
 Slots and pairs: what the owed-record slot and the owed mint say about the trail,
 at every point of every decision's slow half. Nothing here restricts faults,
 clocks or interleavings.
 */
module FloorPairing {
  import opened Basics
  import opened DecisionRecord
  import opened ConsentReceipts
  import opened ConsentOutbox
  import opened ConsentMirror
  import opened ConsentFloor
  import opened FloorShape

  // ---------------------------------------------------------------- what one step does to mirror and file

  /** The mirror a step starts its save from: the same, with the minted receipt at its end, or without the settled one. */
  function MirrorBase(p: Proc, step: Step): seq<Receipt> {
    if step.AppendReceipt? && MintedIn(p.slow).Some? then p.box.receipts + [MintedIn(p.slow).value]
    else if step.PruneReceipt? && p.pass.Settling? && HasKey(p.box.receipts, p.pass.r.key) then Without(p.box.receipts, p.pass.r.key)
    else p.box.receipts
  }

  /** The file is what it was beside the unsaved mirror, or it is the mirror; with no write owed it is the mirror. */
  predicate FileFollows(before: TrailFile, after: TrailFile, base: seq<Receipt>, box: Outbox) {
    && ((Listed(after) == Listed(before) && box.receipts == base) || Listed(after) == box.receipts)
    && (!box.dirty ==> Listed(after) == box.receipts)
  }

  ghost predicate Effect(s: State, step: Step, s': State) {
    s.proc.Some? && s'.proc.Some? &&
    var p, p' := s.proc.value, s'.proc.value;
    && Trail(MirrorBase(p, step), s.cfg.me) && Trail(p'.box.receipts, s.cfg.me)
    && Sifted(MirrorBase(p, step), Listed(s.disk.trail), p'.box.receipts)
    && FileFollows(s.disk.trail, s'.disk.trail, MirrorBase(p, step), p'.box)
    && p'.box.evicted >= p.box.evicted
    && (p'.box.evicted == p.box.evicted ==> forall e :: e in MirrorBase(p, step) ==> e in p'.box.receipts)
    && (p.slow.GrantMinted? && p'.slow.GrantAppended? && p'.slow.stored ==> !p'.box.dirty)
  }

  /** What a save's outcome says of mirror and file. */
  lemma OutcomeEffect(s: State, base: Outbox, saved: Saved)
    requires SaveOutcome(base, s.disk.trail, saved, s.cfg.me, s.used)
    ensures Trail(saved.box.receipts, s.cfg.me) && Sifted(base.receipts, Listed(s.disk.trail), saved.box.receipts)
    ensures FileFollows(s.disk.trail, saved.file, base.receipts, saved.box)
    ensures saved.box.evicted >= base.evicted
    ensures saved.box.evicted == base.evicted ==> forall e :: e in base.receipts ==> e in saved.box.receipts
    ensures !FailedDurably(saved.error) ==> !saved.box.dirty
  {
    SavedLists(s, base, saved);
    LinkedTrails(saved.box, saved.file, s.cfg.me, s.used);
    hide Linked, Sifted, Trail, Agree;
  }

  lemma AppendEffect(s: State, ok: bool)
    requires Shape(s) && s.proc.Some?
    ensures Effect(s, AppendReceipt(ok), NextRaw(s, AppendReceipt(ok)))
  {
    AppendTouches(s, ok);
    if MintedIn(s.proc.value.slow).Some? {
      AppendSaves(s, ok);
      OutcomeEffect(s, Longer(s.proc.value), Append(s.proc.value.box, s.disk.trail, MintedIn(s.proc.value.slow).value, ok));
    } else { SameEffect(s, AppendReceipt(ok)); }
    hide Shape, NextRaw, Append, SaveOutcome, Sifted, Trail, FileFollows;
  }

  lemma PruneEffect(s: State, ok: bool)
    requires Shape(s) && s.proc.Some?
    ensures Effect(s, PruneReceipt(ok), NextRaw(s, PruneReceipt(ok)))
  {
    PruneTouches(s, ok);
    ShapeParts(s);
    var p := s.proc.value;
    if p.pass.Settling? && HasKey(p.box.receipts, p.pass.r.key) {
      PruneLinked(p.box, s.disk.trail, s.cfg.me, s.used, p.pass.r.key, ok);
      UnlistedLists(p.box, p.pass.r.key);
      WithoutIs(p.box.receipts, s.cfg.me, p.pass.r.key);
      OutcomeEffect(s, Unlisted(p.box, p.pass.r.key), Prune(p.box, s.disk.trail, p.pass.r.key, ok));
      hide Shape, NextRaw, Prune, SaveOutcome, Sifted, Trail, FileFollows, Linked, Without, HasKey;
    } else {
      SameEffect(s, PruneReceipt(ok));
      hide Shape, NextRaw, Linked, HasKey, Sifted;
    }
  }

  lemma PersistEffect(s: State, ok: bool)
    requires Shape(s) && s.proc.Some?
    ensures Effect(s, PersistAgain(ok), NextRaw(s, PersistAgain(ok)))
  {
    PersistTouches(s, ok);
    ShapeParts(s);
    RetryLinked(s.proc.value.box, s.disk.trail, s.cfg.me, s.used, ok);
    OutcomeEffect(s, s.proc.value.box, RetryPersist(s.proc.value.box, s.disk.trail, ok));
    hide Shape, NextRaw, RetryPersist, SaveOutcome, Sifted, Trail, FileFollows, Linked;
  }

  /** With mirror and file as they are, nothing happens to them. */
  lemma SameEffect(s: State, step: Step)
    requires Shape(s) && s.proc.Some?
    requires MirrorBase(s.proc.value, step) == s.proc.value.box.receipts
    ensures var p := s.proc.value;
            && Trail(p.box.receipts, s.cfg.me)
            && Sifted(p.box.receipts, Listed(s.disk.trail), p.box.receipts)
            && FileFollows(s.disk.trail, s.disk.trail, p.box.receipts, p.box)
  {
    LinkedTrails(s.proc.value.box, s.disk.trail, s.cfg.me, s.used);
    SiftedSelf(s.proc.value.box.receipts, Listed(s.disk.trail));
    hide Linked, Trail, Agree, Sifted;
  }

  /** The steps that save. */
  predicate Saves(step: Step) {
    step.AppendReceipt? || step.PruneReceipt? || step.PersistAgain?
  }

  predicate Decides(step: Step) {
    step.Decide? || step.Begin? || step.Mint?
  }

  predicate Settles(step: Step) {
    step.WriteRecord? || step.SettleSlot? || step.MarkOwed?
  }

  predicate LeavesBox(p: Proc, q: Proc) {
    && q.box.receipts == p.box.receipts && q.box.dirty == p.box.dirty && q.box.evicted == p.box.evicted
    && !(p.slow.GrantMinted? && q.slow.GrantAppended?)
  }

  lemma SlotTouches(p: Proc)
    ensures LeavesBox(p, SlotStep(p))
  {
  }

  lemma MarkTouches(p: Proc)
    ensures LeavesBox(p, MarkStep(p))
  {
  }

  /** The other steps leave mirror, debt and trail file alone. */
  lemma OtherTouches(s: State, step: Step)
    requires s.proc.Some? && NextRaw(s, step).proc.Some? && !Saves(step)
    ensures NextRaw(s, step).disk.trail == s.disk.trail && LeavesBox(s.proc.value, NextRaw(s, step).proc.value)
  {
    if step.SettleSlot? { SlotTouches(s.proc.value); hide SlotStep; }
    else if step.MarkOwed? { MarkTouches(s.proc.value); hide MarkStep; }
    else { hide Held, Append, Prune, Save, Boot, SlotStep, MarkStep, NextUp; }
  }

  lemma Effects(s: State, step: Step)
    requires Shape(s) && s.proc.Some? && NextRaw(s, step).proc.Some?
    ensures Effect(s, step, NextRaw(s, step))
  {
    if step.AppendReceipt? { AppendEffect(s, step.ok); }
    else if step.PruneReceipt? { PruneEffect(s, step.ok); }
    else if step.PersistAgain? { PersistEffect(s, step.ok); }
    else {
      OtherTouches(s, step);
      SameEffect(s, step);
      hide Shape, NextRaw, Sifted, Trail;
    }
  }

  // ---------------------------------------------------------------- the invariant

  function LastOf(rs: seq<Receipt>): Option<Receipt> {
    if rs == [] then None else Some(rs[|rs| - 1])
  }

  /** The receipt whose record is being written, or about to be. */
  predicate Working(slow: Slow, r: Receipt) {
    match slow
    case GrantAppended(q, _) => q == r
    case GrantRecorded(q, _) => q == r
    case _ => false
  }

  /** The trail ends in the receipt of the owed decision. */
  predicate EndsIn(rs: seq<Receipt>, o: Owed) {
    rs != [] && rs[|rs| - 1].at == o.at && DecisionOf(rs[|rs| - 1]) == o.decision
  }

  /** What each place of the slow half knows. */
  ghost predicate Place(record: RecordFile, p: Proc) {
    var rs, slot := p.box.receipts, p.recordOwed;
    match p.slow
    case Idle => true
    case Served => true
    case GrantStamped(at) => !Covers(record, at)
    case GrantUnminted(at) => !Covers(record, at) && p.mintOwed == Some(Owed(Grant, at))
    case GrantMinted(r) => !Covers(record, r.at) && r.granted
    case GrantAppended(r, _) => !Covers(record, r.at) && LastOf(rs) == Some(r) && r.granted && p.mintOwed.None?
    case GrantRecorded(r, written) =>
      && written == Covers(record, r.at) && LastOf(rs) == Some(r) && r.granted && p.mintOwed.None?
      && (written ==> record.File? && record.wire.analytics == Word(Grant) && RecordAt(record) == Some(r.at))
    case GrantSettled(r) =>
      !Covers(record, r.at) && LastOf(rs) == Some(r) && r.granted && slot == Some(Owed(Grant, r.at)) && p.mintOwed.None?
    case DenyStamped(d, at) => d != Grant && !Covers(record, at)
    case DenyRecorded(d, at, written) => d != Grant && written == Covers(record, at)
    case DenySettled(d, at, written) => d != Grant && SlotFor(record, slot, Owed(d, at), written)
    case DenyMinted(r, written) => !r.granted && SlotFor(record, slot, Owed(DecisionOf(r), r.at), written)
    case DenyAppended(r, written) =>
      !r.granted && SlotFor(record, slot, Owed(DecisionOf(r), r.at), written)
      && (LastOf(rs) == Some(r) || (written && Ahead(rs, r.at)))
    case RetryMinted(r) => SlotFor(record, slot, Owed(DecisionOf(r), r.at), slot.None?) && (r.granted ==> slot.Some?)
    case RetryAppended(r) =>
      SlotFor(record, slot, Owed(DecisionOf(r), r.at), slot.None?) && (r.granted ==> slot.Some?)
      && (LastOf(rs) == Some(r) || (slot.None? && Ahead(rs, r.at)))
    case RetryRecorded(o, written) =>
      slot == Some(o) && written == Covers(record, o.at) && (o.decision == Grant ==> p.mintOwed.None?)
  }

  /** The slot is empty over a record that covers the decision, or it holds the decision. */
  predicate SlotFor(record: RecordFile, slot: Option<Owed>, o: Owed, written: bool) {
    if written then slot.None? && Covers(record, o.at) else slot == Some(o) && !Covers(record, o.at)
  }

  /** The slot is about a decision whose record has not landed, unless one is landing now. */
  predicate SlotUncovered(record: RecordFile, p: Proc) {
    p.recordOwed.Some? && Covers(record, p.recordOwed.value.at) ==>
      || (p.slow.GrantRecorded? && p.slow.written)
      || (p.slow.DenyRecorded? && p.slow.written)
      || (p.slow.RetryRecorded? && p.slow.written)
  }

  /**
   A receipt is no newer than the slot's decision, and of that decision if as new; with an empty
   slot the record covers it; or it is being worked on.
   */
  predicate Dated(record: RecordFile, p: Proc, e: Receipt) {
    || Working(p.slow, e)
    || (p.recordOwed.None? && Covers(record, e.at))
    || (p.recordOwed.Some? &&
          (e.at < p.recordOwed.value.at || (e.at == p.recordOwed.value.at && DecisionOf(e) == p.recordOwed.value.decision)))
  }

  ghost predicate SlotNewest(disk: Disk, p: Proc) {
    forall e :: e in p.box.receipts || e in Listed(disk.trail) ==> Dated(disk.record, p, e)
  }

  /** An owed mint belongs to the newest decision: a denial's record is down, or it fills the slot. */
  predicate MintSlot(record: RecordFile, p: Proc) {
    p.mintOwed.Some? && !p.slow.DenySettled? && !p.slow.GrantUnminted? ==>
      if p.recordOwed.None? then Covers(record, p.mintOwed.value.at) && p.mintOwed.value.decision != Grant
      else p.recordOwed == p.mintOwed
  }

  /** The slot's decision has its receipt at the end of the trail or still owed to the mint. */
  ghost predicate SlotWitness(p: Proc) {
    p.recordOwed.Some? ==>
      match p.slow
      case Idle => Witnessed(p)
      case Served => Witnessed(p)
      case GrantStamped(_) => Witnessed(p)
      case DenyStamped(_, _) => Witnessed(p)
      case DenyRecorded(_, _, _) => Witnessed(p)
      case RetryRecorded(_, _) => Witnessed(p)
      case _ => true
  }

  predicate Witnessed(p: Proc) {
    p.recordOwed.Some? && (p.mintOwed == p.recordOwed || EndsIn(p.box.receipts, p.recordOwed.value))
  }

  predicate HeadTicket(p: Proc) {
    match p.slow
    case Idle => true
    case RetryMinted(_) => true
    case RetryAppended(_) => true
    case RetryRecorded(_, _) => true
    case Served => p.tickets != []
    case DenyStamped(d, _) => p.tickets != [] && p.tickets[0].decision == d
    case DenyRecorded(d, _, _) => p.tickets != [] && p.tickets[0].decision == d
    case DenySettled(d, _, _) => p.tickets != [] && p.tickets[0].decision == d
    case DenyMinted(r, _) => p.tickets != [] && p.tickets[0].decision == DecisionOf(r)
    case DenyAppended(r, _) => p.tickets != [] && p.tickets[0].decision == DecisionOf(r)
    case _ => p.tickets != [] && p.tickets[0].decision == Grant
  }

  /** How far the pass has come with its receipt: the holds passed, all of them once it is cleared. */
  function Progress(pass: Pass): nat {
    match pass
    case Resting => 0
    case Checking(_, n) => n
    case _ => 6
  }

  predicate Appending(slow: Slow) {
    slow.GrantAppended? || slow.GrantRecorded?
  }

  /**
   A denial past its proof hold does not fill the slot, unless a grant appended behind it
   is about to replace the slot; a grant past its pair hold neither fills it nor is being served.
   */
  predicate PassFree(p: Proc) {
    PassReceipt(p.pass).Some? ==>
      var r := PassReceipt(p.pass).value;
      && (Progress(p.pass) > 3 && !r.granted ==>
            Appending(p.slow) || p.recordOwed.None? || p.recordOwed.value.at != r.at)
      && (Progress(p.pass) > 4 && r.granted ==>
            && (p.recordOwed.None? || p.recordOwed.value.at != r.at)
            && StampOf(p.slow) != Some(r.at))
  }

  ghost predicate Pairing(disk: Disk, p: Proc) {
    && Place(disk.record, p)
    && SlotUncovered(disk.record, p)
    && SlotNewest(disk, p)
    && MintSlot(disk.record, p)
    && SlotWitness(p)
    && HeadTicket(p)
    && PassFree(p)
  }

  // ---------------------------------------------------------------- what the shape gives

  lemma TrailFacts(s: State)
    requires Shape(s) && s.proc.Some?
    ensures var p := s.proc.value;
            && Trail(p.box.receipts, s.cfg.me) && Trail(Listed(s.disk.trail), s.cfg.me) && Stamps(s, p) && PassPlace(s, p)
            && LastOf(p.box.receipts) == Latest(p.box.receipts, s.cfg.me)
            && (MintedIn(p.slow).Some? ==> p.mintOwed.None?)
  {
    ShapeParts(s);
    var p := s.proc.value;
    LinkedTrails(p.box, s.disk.trail, s.cfg.me, s.used);
    hide Shape, Linked, Agree, Trail, HasKey, Stamps, PassPlace;
    LatestIsLast(p.box.receipts, s.cfg.me);
  }

  /** What newness says of the lists, in one place: a stamp newer than both lists is newer than the pass's receipt. */
  lemma PassOlder(s: State, p: Proc, at: int)
    requires PassPlace(s, p) && PassReceipt(p.pass).Some? && Ahead(p.box.receipts, at)
    ensures PassReceipt(p.pass).value.at < at
  {
    var r, rs := PassReceipt(p.pass).value, p.box.receipts;
    if r !in rs { assert rs[|rs| - 2] in rs; }
  }

  /** The pass's receipt is the window's, or older. */
  lemma PassNoNewer(s: State, p: Proc, w: Receipt)
    requires PassPlace(s, p) && PassReceipt(p.pass).Some? && Newest(p.box.receipts, w)
    ensures PassReceipt(p.pass).value.at < w.at || PassReceipt(p.pass).value == w
  {
    var r, rs := PassReceipt(p.pass).value, p.box.receipts;
    if r !in rs { assert rs[|rs| - 2] in rs; }
  }

  /** A receipt the pass has lost to an eviction is older than the slot's decision, if there is one. */
  lemma GoneOlder(disk: Disk, p: Proc, me: Identity, r: Receipt)
    requires SlotNewest(disk, p) && Place(disk.record, p) && Trail(p.box.receipts, me) && p.recordOwed.Some?
    requires |p.box.receipts| >= 2 && r.at < p.box.receipts[|p.box.receipts| - 2].at
    ensures r.at < p.recordOwed.value.at
  {
    var rs := p.box.receipts;
    var e := rs[|rs| - 2];
    assert e in rs && Dated(disk.record, p, e);
    assert e != rs[|rs| - 1];
    hide Trail, SlotNewest;
  }

  // ---------------------------------------------------------------- every step keeps it

  lemma PairingTurn(s: State, clock: int, purgeOk: bool)
    requires Shape(s) && s.proc.Some? && Pairing(s.disk, s.proc.value)
    ensures Pairing(s.disk, BeginTurn(s.proc.value, clock, purgeOk))
  {
    TrailFacts(s);
    hide Shape, Trail, PassPlace;
    TurnPlace(s.disk, s.proc.value, clock, purgeOk);
    TurnSlots(s, s.proc.value, clock, purgeOk);
  }

  lemma TurnPlace(disk: Disk, p: Proc, clock: int, purgeOk: bool)
    requires Pairing(disk, p)
    requires RecordAt(disk.record).Some? ==> AtMost(RecordAt(disk.record).value, p.lastStamp)
    ensures var q := BeginTurn(p, clock, purgeOk); Place(disk.record, q) && HeadTicket(q)
  {
    hide SlotUncovered, SlotNewest, MintSlot, SlotWitness, PassFree;
  }

  lemma TurnSlots(s: State, p: Proc, clock: int, purgeOk: bool)
    requires Pairing(s.disk, p) && Stamps(s, p) && PassPlace(s, p)
    ensures var q := BeginTurn(p, clock, purgeOk);
            && SlotUncovered(s.disk.record, q) && SlotNewest(s.disk, q) && MintSlot(s.disk.record, q) && SlotWitness(q) && PassFree(q)
  {
    var q := BeginTurn(p, clock, purgeOk);
    assert q.box == p.box && q.recordOwed == p.recordOwed && q.mintOwed == p.mintOwed && q.pass == p.pass;
    if q.slow != p.slow && PassReceipt(p.pass).Some? && p.tickets != [] {
      var at := StampAfter(p.lastStamp, clock);
      assert Ahead(p.box.receipts, at);
      PassOlder(s, p, at);
    }
    TurnDates(s.disk, p, q);
    hide HeadTicket, SlotNewest, Place, PassPlace, Stamps, Ahead, Newest;
  }

  /** Dates do not change when neither slot nor record does and nothing is being worked on. */
  lemma TurnDates(disk: Disk, p: Proc, q: Proc)
    requires SlotNewest(disk, p) && q.box.receipts == p.box.receipts && q.recordOwed == p.recordOwed
    requires !Appending(p.slow) || q.slow == p.slow
    ensures SlotNewest(disk, q)
  {
    forall e | e in q.box.receipts || e in Listed(disk.trail) ensures Dated(disk.record, q, e) {
      assert Dated(disk.record, p, e);
    }
  }

  lemma PairingMint(s: State, key: Option<string>, bytes: nat)
    requires Shape(s) && s.proc.Some? && Pairing(s.disk, s.proc.value)
    ensures Pairing(s.disk, NextRaw(s, Mint(key, bytes)).proc.value)
  {
    TrailFacts(s);
    hide Shape, Trail, Pairing;
    var p, q := s.proc.value, NextRaw(s, Mint(key, bytes)).proc.value;
    assert SlotNewest(s.disk, p) by { NewestOf(s.disk, p); }
    hide SlotNewest, Stamps, PassPlace;
    TurnDates(s.disk, p, q);
    if p.slow.GrantStamped? { MintedGrant(s, p, q); }
    else if p.slow.DenySettled? { MintedDenial(s, p, q); }
  }

  lemma NewestOf(disk: Disk, p: Proc)
    requires Pairing(disk, p)
    ensures SlotNewest(disk, p)
  {
  }

  lemma MintedGrant(s: State, p: Proc, q: Proc)
    requires Pairing(s.disk, p) && PassPlace(s, p) && Stamps(s, p) && p.slow.GrantStamped? && SlotNewest(s.disk, q)
    requires || q == p
             || q == p.(mintOwed := Some(Owed(Grant, p.slow.at)), slow := GrantUnminted(p.slow.at))
             || (q.slow.GrantMinted? && q.slow.r.at == p.slow.at && q.slow.r.granted && q == p.(mintOwed := None, slow := q.slow))
    ensures Pairing(s.disk, q)
  {
    hide SlotNewest, PassPlace, Stamps;
  }

  lemma MintedDenial(s: State, p: Proc, q: Proc)
    requires Pairing(s.disk, p) && PassPlace(s, p) && Stamps(s, p) && p.slow.DenySettled? && SlotNewest(s.disk, q)
    requires || q == p
             || q == p.(mintOwed := Some(Owed(p.slow.d, p.slow.at)), slow := Served)
             || (q.slow.DenyMinted? && q.slow.r.at == p.slow.at && DecisionOf(q.slow.r) == p.slow.d && q.slow.written == p.slow.written
                 && q == p.(mintOwed := None, slow := q.slow))
    ensures Pairing(s.disk, q)
  {
    hide SlotNewest, PassPlace, Stamps;
  }

  lemma PairingTakeMint(s: State, key: Option<string>, bytes: nat)
    requires Shape(s) && s.proc.Some? && Pairing(s.disk, s.proc.value)
    ensures Pairing(s.disk, NextRaw(s, TakeOwedMint(key, bytes)).proc.value)
  {
    TrailFacts(s);
    var p, q := s.proc.value, NextRaw(s, TakeOwedMint(key, bytes)).proc.value;
    hide Shape, Trail, Pairing;
    TakeMintTouches(s, key, bytes);
    if q != p { hide NextRaw; TookMint(s, p, q); }
  }

  lemma TakeMintTouches(s: State, key: Option<string>, bytes: nat)
    requires s.proc.Some?
    ensures var p, q := s.proc.value, NextRaw(s, TakeOwedMint(key, bytes)).proc.value;
            q == p || Took(p, q)
  {
  }

  /** The owed mint has its key, and the lock is taken for its append. */
  predicate Took(p: Proc, q: Proc) {
    && p.slow == Idle && p.mintOwed.Some? && q.slow.RetryMinted?
    && q.slow.r.at == p.mintOwed.value.at && DecisionOf(q.slow.r) == p.mintOwed.value.decision
    && q == p.(mintOwed := None, slow := q.slow)
  }

  lemma TookMint(s: State, p: Proc, q: Proc)
    requires Pairing(s.disk, p) && Stamps(s, p) && PassPlace(s, p) && Took(p, q)
    ensures Pairing(s.disk, q)
  {
    TurnDates(s.disk, p, q);
    if PassReceipt(p.pass).Some? { PassOlder(s, p, p.mintOwed.value.at); }
    hide SlotNewest, PassPlace, Ahead, Newest;
  }

  // ---- appends

  lemma PairingAppend(s: State, ok: bool)
    requires Shape(s) && s.proc.Some? && Pairing(s.disk, s.proc.value)
    ensures var s' := NextRaw(s, AppendReceipt(ok)); Pairing(s'.disk, s'.proc.value)
  {
    AppendTouches(s, ok);
    var p, s' := s.proc.value, NextRaw(s, AppendReceipt(ok));
    if MintedIn(p.slow).Some? {
      assert s'.proc.Some? && s'.disk.record == s.disk.record;
      hide NextRaw, Append, Shape, Pairing, Appended;
      TrailFacts(s);
      AppendEffect(s, ok);
      ShapeAppend(s, ok);
      ShapeParts(s');
      hide Stamps, PassPlace, Linked, Trail, FreshKey, HasKey, Effect;
      EffectOf(s, ok, s');
      PairingAppended(s, s', p, s'.proc.value);
    }
  }

  lemma EffectOf(s: State, ok: bool, s': State)
    requires Effect(s, AppendReceipt(ok), s')
    ensures Effect(s, AppendReceipt(true), s')
  {
    hide Trail, Sifted, FileFollows;
  }

  lemma PairingAppended(s: State, s': State, p: Proc, q: Proc)
    requires s.proc == Some(p) && s'.proc == Some(q) && Pairing(s.disk, p) && MintedIn(p.slow).Some? && p.mintOwed.None?
    requires Appended(p.slow, q.slow) && q == p.(box := q.box, slow := q.slow) && s'.disk.record == s.disk.record
    requires Effect(s, AppendReceipt(true), s') && Stamps(s', q)
    ensures Pairing(s'.disk, q)
  {
    var r := MintedIn(p.slow).value;
    assert WindowOf(q.slow) == Some(r);
    assert MirrorBase(p, AppendReceipt(true)) == p.box.receipts + [r];
    AppendedLast(p.box.receipts + [r], Listed(s.disk.trail), q.box.receipts, s.cfg.me, r);
    AppendedNewest(s.disk, s'.disk, p, q, r);
    AppendedPlace(s.disk.record, p, q);
    AppendedFree(p, q);
    hide Effect, Stamps, SlotNewest, Place, PassFree, Appended;
    assert SlotUncovered(s'.disk.record, q) && MintSlot(s'.disk.record, q) && SlotWitness(q) by { AppendedRest(s.disk.record, p, q); }
  }

  /** The newest receipt of all ends the mirror through a save. */
  lemma AppendedLast(base: seq<Receipt>, listed: seq<Receipt>, out: seq<Receipt>, me: Identity, r: Receipt)
    requires Trail(out, me) && Sifted(base, listed, out) && r in base && Newest(out, r)
    ensures LastOf(out) == Some(r)
  {
    assert out != [] ==> out[0] in out && out[|out| - 1] in out;
    if r in out { TrailTells(out, me, r, r); }
  }

  lemma AppendedPlace(record: RecordFile, p: Proc, q: Proc)
    requires Place(record, p) && HeadTicket(p) && p.mintOwed.None?
    requires q == p.(box := q.box, slow := q.slow) && Appended(p.slow, q.slow)
    requires LastOf(q.box.receipts) == MintedIn(p.slow)
    ensures Place(record, q) && HeadTicket(q)
  {
    hide Covers, SlotFor;
  }

  lemma AppendedNewest(disk: Disk, disk': Disk, p: Proc, q: Proc, r: Receipt)
    requires SlotNewest(disk, p) && Place(disk.record, p) && MintedIn(p.slow) == Some(r)
    requires Appended(p.slow, q.slow) && q == p.(box := q.box, slow := q.slow) && disk'.record == disk.record
    requires Sifted(p.box.receipts + [r], Listed(disk.trail), q.box.receipts)
    requires FileFollows(disk.trail, disk'.trail, p.box.receipts + [r], q.box)
    ensures SlotNewest(disk', q)
  {
    hide Covers;
    forall e | e in q.box.receipts || e in Listed(disk'.trail) ensures Dated(disk'.record, q, e) {
      if e != r { assert Dated(disk.record, p, e); }
    }
  }

  lemma AppendedFree(p: Proc, q: Proc)
    requires PassFree(p) && MintedIn(p.slow).Some?
    requires q == p.(box := q.box, slow := q.slow) && Appended(p.slow, q.slow)
    ensures PassFree(q)
  {
  }

  lemma AppendedRest(record: RecordFile, p: Proc, q: Proc)
    requires SlotUncovered(record, p) && MintSlot(record, p) && p.mintOwed.None?
    requires q == p.(box := q.box, slow := q.slow) && Appended(p.slow, q.slow)
    ensures SlotUncovered(record, q) && MintSlot(record, q) && SlotWitness(q)
  {
    hide Covers;
  }

  // ---- records

  lemma PairingRecord(s: State, ok: bool)
    requires Shape(s) && s.proc.Some? && Pairing(s.disk, s.proc.value)
    ensures var s' := NextRaw(s, WriteRecord(ok)); Pairing(s'.disk, s'.proc.value)
  {
    hide Shape, Pairing;
    var p, s' := s.proc.value, NextRaw(s, WriteRecord(ok));
    if p.slow.GrantAppended? && p.slow.stored { RecordGrant(s.disk, s'.disk, p, ok); }
    else if p.slow.DenyStamped? { RecordDenial(s.disk, s'.disk, p, ok); }
  }

  lemma RecordGrant(disk: Disk, disk': Disk, p: Proc, ok: bool)
    requires Pairing(disk, p) && p.slow.GrantAppended? && disk'.trail == disk.trail
    requires if ok then disk'.record.File? && disk'.record.wire.analytics == Word(Grant) && RecordAt(disk'.record) == Some(p.slow.r.at)
             else disk'.record == disk.record
    ensures Pairing(disk', p.(slow := GrantRecorded(p.slow.r, ok)))
  {
    var q := p.(slow := GrantRecorded(p.slow.r, ok));
    RecordDates(disk, disk', p, q);
    hide SlotNewest;
  }

  lemma RecordDenial(disk: Disk, disk': Disk, p: Proc, ok: bool)
    requires Pairing(disk, p) && p.slow.DenyStamped? && disk'.trail == disk.trail
    requires if ok then RecordAt(disk'.record) == Some(p.slow.at) else disk'.record == disk.record
    ensures Pairing(disk', p.(slow := DenyRecorded(p.slow.d, p.slow.at, ok)))
  {
    var q := p.(slow := DenyRecorded(p.slow.d, p.slow.at, ok));
    RecordDates(disk, disk', p, q);
    hide SlotNewest;
  }

  /** A newer record covers what the older one covered. */
  lemma RecordDates(disk: Disk, disk': Disk, p: Proc, q: Proc)
    requires SlotNewest(disk, p) && disk'.trail == disk.trail
    requires disk'.record == disk.record || (RecordAt(disk'.record).Some? && !Covers(disk.record, RecordAt(disk'.record).value))
    requires q == p.(slow := q.slow) && forall e :: Working(p.slow, e) ==> Working(q.slow, e)
    ensures SlotNewest(disk', q)
  {
    forall e | e in q.box.receipts || e in Listed(disk'.trail) ensures Dated(disk'.record, q, e) {
      assert Dated(disk.record, p, e);
    }
  }

  lemma PairingTakeRecord(s: State, ok: bool)
    requires Shape(s) && s.proc.Some? && Pairing(s.disk, s.proc.value)
    ensures var s' := NextRaw(s, TakeOwedRecord(ok)); Pairing(s'.disk, s'.proc.value)
  {
    var p := s.proc.value;
    TakeTouches(s, ok);
    if NextRaw(s, TakeOwedRecord(ok)) != s {
      hide NextRaw, Pairing, Shape;
      RetryTaken(s.disk, NextRaw(s, TakeOwedRecord(ok)).disk, p, p.recordOwed.value, ok);
    }
  }

  lemma TakeTouches(s: State, ok: bool)
    requires s.proc.Some?
    ensures var p, s' := s.proc.value, NextRaw(s, TakeOwedRecord(ok));
            s' != s ==>
              && p.slow == Idle && p.recordOwed.Some? && s'.disk.trail == s.disk.trail
              && (p.recordOwed.value.decision == Grant && p.mintOwed.Some? ==> p.mintOwed.value.at != p.recordOwed.value.at)
              && s'.proc == Some(p.(slow := RetryRecorded(p.recordOwed.value, ok)))
              && (if ok then RecordAt(s'.disk.record) == Some(p.recordOwed.value.at) else s'.disk.record == s.disk.record)
  {
  }

  /** The owed record is written again, or that fails again. */
  lemma RetryTaken(disk: Disk, disk': Disk, p: Proc, o: Owed, ok: bool)
    requires Pairing(disk, p) && p.slow == Idle && p.recordOwed == Some(o) && disk'.trail == disk.trail
    requires o.decision == Grant && p.mintOwed.Some? ==> p.mintOwed.value.at != o.at
    requires if ok then RecordAt(disk'.record) == Some(o.at) else disk'.record == disk.record
    ensures Pairing(disk', p.(slow := RetryRecorded(o, ok)))
  {
    RecordDates(disk, disk', p, p.(slow := RetryRecorded(o, ok)));
    hide SlotNewest;
  }

  // ---- the slot

  lemma PairingSlot(s: State)
    requires Shape(s) && s.proc.Some? && Pairing(s.disk, s.proc.value)
    ensures Pairing(s.disk, SlotStep(s.proc.value))
  {
    TrailFacts(s);
    SlotRests(s.proc.value);
    hide Shape, Trail, Stamps, PassPlace, Pairing, SlotStep;
    match s.proc.value.slow
    case GrantUnminted(_) => UnmintedSlot(s, s.proc.value);
    case GrantAppended(_, _) => GrantSlot(s, s.proc.value);
    case GrantRecorded(_, _) => GrantSlot(s, s.proc.value);
    case DenyRecorded(_, _, _) => DenialSlot(s, s.proc.value);
    case RetryRecorded(_, _) => RetriedSlot(s.disk, s.proc.value);
    case _ =>
  }

  lemma SlotRests(p: Proc)
    ensures SlotStep(p) == p || p.slow.GrantUnminted? || p.slow.GrantAppended? || p.slow.GrantRecorded? || p.slow.DenyRecorded?
            || p.slow.RetryRecorded?
  {
  }

  lemma UnmintedSlot(s: State, p: Proc)
    requires Pairing(s.disk, p) && Stamps(s, p) && PassPlace(s, p) && p.slow.GrantUnminted?
    ensures Pairing(s.disk, SlotStep(p))
  {
    if PassReceipt(p.pass).Some? { PassOlder(s, p, p.slow.at); }
    hide PassPlace;
  }

  lemma DenialSlot(s: State, p: Proc)
    requires Pairing(s.disk, p) && Stamps(s, p) && PassPlace(s, p) && p.slow.DenyRecorded?
    ensures Pairing(s.disk, SlotStep(p))
  {
    if PassReceipt(p.pass).Some? { PassOlder(s, p, p.slow.at); }
    hide PassPlace;
  }

  lemma RetriedSlot(disk: Disk, p: Proc)
    requires Pairing(disk, p) && p.slow.RetryRecorded?
    ensures Pairing(disk, SlotStep(p))
  {
  }

  lemma GrantSlot(s: State, p: Proc)
    requires Pairing(s.disk, p) && Stamps(s, p) && PassPlace(s, p) && Appending(p.slow)
    ensures Pairing(s.disk, SlotStep(p))
  {
    assert WindowOf(p.slow) == Some(p.slow.r);
    if PassReceipt(p.pass).Some? { PassNoNewer(s, p, p.slow.r); }
    hide PassPlace;
  }

  // ---- the mark

  lemma PairingMark(s: State)
    requires Shape(s) && s.proc.Some? && Pairing(s.disk, s.proc.value)
    ensures Pairing(s.disk, MarkStep(s.proc.value))
  {
    var p := s.proc.value;
    TurnDates(s.disk, p, MarkStep(p));
    hide Shape, SlotNewest, MarkKey;
    forall key ensures MarkKey(p, key).box.receipts == p.box.receipts && MarkKey(p, key) == p.(box := MarkKey(p, key).box) { MarkedKey(p, key); }
    match p.slow
    case GrantSettled(r) => MarkedGrant(s.disk, p, MarkStep(p));
    case DenyAppended(r, written) => MarkedDenial(s.disk, p, MarkStep(p));
    case RetryAppended(r) => MarkedRetry(s.disk, p, MarkStep(p));
    case _ =>
  }

  lemma MarkedKey(p: Proc, key: string)
    ensures MarkKey(p, key).box.receipts == p.box.receipts && MarkKey(p, key) == p.(box := MarkKey(p, key).box)
  {
  }

  lemma MarkedGrant(disk: Disk, p: Proc, q: Proc)
    requires Pairing(disk, p) && p.slow.GrantSettled? && SlotNewest(disk, q)
    requires q == p.(box := q.box, slow := Served) && q.box.receipts == p.box.receipts
    ensures Pairing(disk, q)
  {
    hide SlotNewest;
  }

  lemma MarkedDenial(disk: Disk, p: Proc, q: Proc)
    requires Pairing(disk, p) && p.slow.DenyAppended? && SlotNewest(disk, q)
    requires q == p.(box := q.box, slow := Served) && q.box.receipts == p.box.receipts
    ensures Pairing(disk, q)
  {
    hide SlotNewest;
  }

  lemma MarkedRetry(disk: Disk, p: Proc, q: Proc)
    requires Pairing(disk, p) && p.slow.RetryAppended? && SlotNewest(disk, q)
    requires q == p.(box := q.box, slow := Idle) && q.box.receipts == p.box.receipts
    ensures Pairing(disk, q)
  {
    hide SlotNewest;
  }

  // ---- the pass

  /** A receipt of the trail that fills the slot is its last one and of the slot's decision, or is being appended. */
  lemma SlotReceipt(s: State, r: Receipt)
    requires Shape(s) && s.proc.Some? && Pairing(s.disk, s.proc.value)
    requires r in s.proc.value.box.receipts
    requires s.proc.value.recordOwed.Some? && s.proc.value.recordOwed.value.at == r.at
    ensures var p := s.proc.value;
            Appending(p.slow) ||
            (LastOf(p.box.receipts) == Some(r) && DecisionOf(r) == p.recordOwed.value.decision)
  {
    TrailFacts(s);
    var p := s.proc.value;
    var rs := p.box.receipts;
    TrailTells(rs, s.cfg.me, r, r);
    assert Dated(s.disk.record, p, r) && rs[|rs| - 1] in rs && Dated(s.disk.record, p, rs[|rs| - 1]);
    TrailTells(rs, s.cfg.me, rs[|rs| - 1], r);
    hide Shape, Trail, Stamps, PassPlace, SlotNewest, Place, MintSlot, SlotWitness, PassFree;
  }

  lemma PairingCheck(s: State)
    requires Shape(s) && s.proc.Some? && Pairing(s.disk, s.proc.value)
    ensures Pairing(s.disk, CheckStep(s.cfg, s.proc.value))
  {
    var p := s.proc.value;
    if p.pass.Checking? {
      CheckFree(s, p);
      hide Shape, Pairing, CheckStep, PassFree;
      assert CheckStep(s.cfg, p) == p.(pass := CheckStep(s.cfg, p).pass) by { CheckMoves(s.cfg, p); }
      PassMoves(s.disk, p, CheckStep(s.cfg, p).pass);
    }
  }

  lemma CheckMoves(cfg: Config, p: Proc)
    ensures CheckStep(cfg, p) == p.(pass := CheckStep(cfg, p).pass)
  {
    hide Held;
  }

  /** A check moves the pass alone: to rest, or one hold on with its receipt, past the last hold to all of them. */
  lemma CheckAdvances(cfg: Config, p: Proc)
    ensures var q := CheckStep(cfg, p);
            && q == p.(pass := q.pass)
            && (!p.pass.Checking? ==> q == p)
            && (p.pass.Checking? ==>
                  if Held(p, cfg.me, p.pass.r, p.pass.passed) then q.pass == Resting
                  else PassReceipt(q.pass) == Some(p.pass.r)
                       && Progress(q.pass) == (if p.pass.passed + 1 < HoldCount(p.pass.r) then p.pass.passed + 1 else 6))
  {
    hide Held, HoldCount;
  }

  /** The holds by number. */
  lemma HoldsAre(p: Proc, me: Identity, r: Receipt)
    ensures Held(p, me, r, 0) <==> r.key in p.box.owed
    ensures Held(p, me, r, 1) <==> r.granted && IsDenial(p.mintOwed)
    ensures Held(p, me, r, 2) <==> r.granted && NewerDenialHeld(p, me, r)
    ensures Held(p, me, r, 3) <==> DenyProofHeld(p, me, r)
    ensures Held(p, me, r, 4) <==> PairIncomplete(p)
    ensures forall n :: n >= 5 ==> Held(p, me, r, n) == Held(p, me, r, 5)
    ensures !Held(p, me, r, 5) <==>
              && p.slow == Idle && !IsDenial(p.mintOwed) && !NewerDenialHeld(p, me, r)
              && (LiveDenied(p) ==> NewerDenialInTrail(p, me, r))
  {
    hide DenyProofHeld, NewerDenialHeld, NewerDenialInTrail, PairIncomplete;
  }

  lemma CheckFree(s: State, p: Proc)
    requires Shape(s) && s.proc == Some(p) && Pairing(s.disk, p) && p.pass.Checking?
    ensures PassFree(CheckStep(s.cfg, p))
  {
    FreeOf(s.disk, p);
    hide Shape, Pairing;
    if p.pass.r in p.box.receipts { CheckKept(s, p); } else { CheckGone(s, p); }
  }

  lemma CheckKept(s: State, p: Proc)
    requires Shape(s) && s.proc == Some(p) && Pairing(s.disk, p) && p.pass.Checking? && PassFree(p)
    requires p.pass.r in p.box.receipts
    ensures PassFree(CheckStep(s.cfg, p))
  {
    var r := p.pass.r;
    CheckAdvances(s.cfg, p);
    HoldsAre(p, s.cfg.me, r);
    TrailFacts(s);
    LatestKey(p, s.cfg.me, r);
    hide Shape, Pairing, Trail, Stamps, PassPlace;
    if p.recordOwed.Some? && p.recordOwed.value.at == r.at { SlotReceipt(s, r); }
    if r.granted && !PairIncomplete(p) { NotServed(s, r); }
    hide Held, CheckStep, NewerDenialHeld, NewerDenialInTrail, PairIncomplete, StampOf;
  }

  /** A denial that ends the trail is held while a denial fills the slot. */
  lemma LatestKey(p: Proc, me: Identity, r: Receipt)
    requires LastOf(p.box.receipts) == Latest(p.box.receipts, me)
    ensures IsDenial(p.recordOwed) && LastOf(p.box.receipts) == Some(r) ==> DenyProofHeld(p, me, r)
  {
  }

  lemma CheckGone(s: State, p: Proc)
    requires Shape(s) && s.proc == Some(p) && Pairing(s.disk, p) && p.pass.Checking? && PassFree(p)
    requires p.pass.r !in p.box.receipts
    ensures PassFree(CheckStep(s.cfg, p))
  {
    var r := p.pass.r;
    CheckAdvances(s.cfg, p);
    GoneFacts(s, p);
    if p.recordOwed.Some? { GoneOlder(s.disk, p, s.cfg.me, r); }
    GoneServed(s, r);
    hide Shape, Pairing, Trail, Held, CheckStep, StampOf, Place, SlotNewest;
  }

  lemma GoneFacts(s: State, p: Proc)
    requires Shape(s) && s.proc == Some(p) && Pairing(s.disk, p) && PassReceipt(p.pass).Some?
    requires PassReceipt(p.pass).value !in p.box.receipts
    ensures Trail(p.box.receipts, s.cfg.me) && Place(s.disk.record, p) && SlotNewest(s.disk, p) && Stamps(s, p) && PassPlace(s, p)
    ensures |p.box.receipts| >= 2 && PassReceipt(p.pass).value.at < p.box.receipts[|p.box.receipts| - 2].at
  {
    TrailFacts(s);
    NewestOf(s.disk, p);
    PlaceIn(s.disk, p);
    GonePlace(s, p);
    hide Shape, Pairing, Trail, Stamps, Place, SlotNewest, PassPlace;
  }

  lemma PlaceIn(disk: Disk, p: Proc)
    requires Pairing(disk, p)
    ensures Place(disk.record, p)
  {
  }

  lemma GonePlace(s: State, p: Proc)
    requires PassPlace(s, p) && PassReceipt(p.pass).Some? && PassReceipt(p.pass).value !in p.box.receipts
    ensures |p.box.receipts| >= 2 && PassReceipt(p.pass).value.at < p.box.receipts[|p.box.receipts| - 2].at
  {
  }

  /** The lock holder never works on a receipt that an eviction has taken. */
  lemma GoneServed(s: State, r: Receipt)
    requires Shape(s) && s.proc.Some? && Pairing(s.disk, s.proc.value)
    requires PassReceipt(s.proc.value.pass) == Some(r) && r !in s.proc.value.box.receipts
    ensures StampOf(s.proc.value.slow) != Some(r.at)
  {
    var p := s.proc.value;
    GoneFacts(s, p);
    StampKinds(s.disk.record, p);
    GoneStamp(s, p, r);
    if p.slow.RetryRecorded? && p.recordOwed.Some? { GoneOlder(s.disk, p, s.cfg.me, r); }
    hide Shape, Pairing, Trail, Stamps, PassPlace, Place, SlotNewest, StampOf, WindowOf, PendingAt;
  }

  /** Whose stamp the lock holder works on. */
  lemma StampKinds(record: RecordFile, p: Proc)
    requires Place(record, p)
    ensures StampOf(p.slow).Some? ==>
              || (WindowOf(p.slow).Some? && StampOf(p.slow).value == WindowOf(p.slow).value.at)
              || StampOf(p.slow) == PendingAt(p.slow)
              || (p.slow.RetryRecorded? && p.recordOwed == Some(p.slow.o) && StampOf(p.slow).value == p.slow.o.at)
  {
  }

  lemma GoneStamp(s: State, p: Proc, r: Receipt)
    requires Stamps(s, p) && PassPlace(s, p) && PassReceipt(p.pass) == Some(r) && r !in p.box.receipts
    ensures WindowOf(p.slow).Some? ==> r.at < WindowOf(p.slow).value.at
    ensures PendingAt(p.slow).Some? ==> r.at < PendingAt(p.slow).value
  {
    if WindowOf(p.slow).Some? { GoneNotWindow(s, p, r); }
    if PendingAt(p.slow).Some? { PassOlder(s, p, PendingAt(p.slow).value); }
  }

  lemma WindowStamp(slow: Slow)
    ensures WindowOf(slow).Some? ==> StampOf(slow) == Some(WindowOf(slow).value.at)
  {
  }

  lemma PendingStamp(slow: Slow)
    ensures PendingAt(slow).Some? ==> StampOf(slow) == PendingAt(slow)
  {
  }

  /** What the mirror has two newer receipts of is not the window's. */
  lemma GoneNotWindow(s: State, p: Proc, r: Receipt)
    requires PassPlace(s, p) && PassReceipt(p.pass) == Some(r) && r !in p.box.receipts
    requires WindowOf(p.slow).Some? && Newest(p.box.receipts, WindowOf(p.slow).value)
    ensures r.at < WindowOf(p.slow).value.at
  {
    var rs := p.box.receipts;
    assert rs[|rs| - 2] in rs;
  }

  /** With no grant being served and none in the slot, the lock holder does not work on a granted receipt of the trail. */
  lemma NotServed(s: State, r: Receipt)
    requires Shape(s) && s.proc.Some? && Pairing(s.disk, s.proc.value)
    requires r in s.proc.value.box.receipts && r.granted && !PairIncomplete(s.proc.value)
    ensures var p := s.proc.value;
            !Appending(p.slow) && StampOf(p.slow) != Some(r.at) && (p.recordOwed.None? || p.recordOwed.value.at != r.at)
  {
    TrailFacts(s);
    var p := s.proc.value;
    ArmingHead(p);
    if p.recordOwed.Some? && p.recordOwed.value.at == r.at { SlotReceipt(s, r); }
    hide Shape, Trail, PassPlace, SlotUncovered, MintSlot, SlotWitness, PassFree, Arming;
    if PendingAt(p.slow).Some? { PendingStamp(p.slow); }
    if WindowOf(p.slow).Some? { WindowStamp(p.slow); }
  }

  lemma ArmingHead(p: Proc)
    ensures p.tickets != [] && p.tickets[0].decision == Grant ==> Arming(p)
  {
  }

  /** Only the pass changes. */
  lemma PassMoves(disk: Disk, p: Proc, pass: Pass)
    requires Pairing(disk, p) && PassFree(p.(pass := pass))
    ensures Pairing(disk, p.(pass := pass))
  {
    TurnDates(disk, p, p.(pass := pass));
    hide SlotNewest;
  }

  // ---- prunes and retried writes

  lemma PairingSaved(s: State, step: Step)
    requires Shape(s) && s.proc.Some? && Pairing(s.disk, s.proc.value) && (step.PruneReceipt? || step.PersistAgain?)
    ensures var s' := NextRaw(s, step); s'.proc.Some? && Pairing(s'.disk, s'.proc.value)
  {
    TrailFacts(s);
    var s' := NextRaw(s, step);
    if step.PruneReceipt? { PruneTouches(s, step.ok); ShapePrune(s, step.ok); PrunedFree(s.proc.value, step); }
    else { PersistTouches(s, step.ok); ShapePersist(s, step.ok); assert Prunable(s.proc.value, step); }
    Effects(s, step);
    ShapeParts(s');
    BaseWithout(s, step);
    hide Shape, NextRaw, Prune, RetryPersist, Linked;
    SavedPairing(s, s', step, s.proc.value, s'.proc.value);
  }

  /** The list a prune or a retry starts from. */
  lemma BaseWithout(s: State, step: Step)
    requires s.proc.Some? && Trail(s.proc.value.box.receipts, s.cfg.me) && PassPlace(s, s.proc.value)
    requires step.PruneReceipt? || step.PersistAgain?
    ensures var p := s.proc.value;
            forall e :: e in MirrorBase(p, step) <==> e in p.box.receipts && !(step.PruneReceipt? && p.pass.Settling? && e == p.pass.r)
  {
    var p := s.proc.value;
    if step.PruneReceipt? && p.pass.Settling? {
      HasKeyIn(p.box.receipts, p.pass.r.key);
      if HasKey(p.box.receipts, p.pass.r.key) { WithoutIs(p.box.receipts, s.cfg.me, p.pass.r.key); }
    }
  }

  /** The receipt a pass settles is neither the slot's nor, when granted, the lock holder's. */
  predicate Prunable(p: Proc, step: Step) {
    step.PruneReceipt? && p.pass.Settling? ==>
      var r := p.pass.r;
      && ((Appending(p.slow) && !r.granted) || p.recordOwed.None? || p.recordOwed.value.at != r.at)
      && (r.granted ==> StampOf(p.slow) != Some(r.at))
  }

  lemma PrunedFree(p: Proc, step: Step)
    requires PassFree(p)
    ensures Prunable(p, step)
  {
  }

  lemma SavedPairing(s: State, s': State, step: Step, p: Proc, q: Proc)
    requires s.proc == Some(p) && s'.proc == Some(q) && Pairing(s.disk, p) && s'.disk.record == s.disk.record
    requires step.PruneReceipt? || step.PersistAgain?
    requires q == p.(box := q.box, pass := q.pass, answered := q.answered) && (q.pass == p.pass || q.pass == Resting)
    requires Effect(s, step, s') && Stamps(s', q)
    requires forall e :: e in MirrorBase(p, step) <==> e in p.box.receipts && !(step.PruneReceipt? && p.pass.Settling? && e == p.pass.r)
    requires Prunable(p, step)
    ensures Pairing(s'.disk, q)
  {
    SavedNewest(s, s', step, p, q);
    SavedPlace(s, s', step, p, q);
    SavedWitness(s, s', step, p, q);
    hide Effect, Stamps, SlotNewest, Place, SlotWitness;
  }

  lemma SavedNewest(s: State, s': State, step: Step, p: Proc, q: Proc)
    requires s.proc == Some(p) && s'.proc == Some(q) && SlotNewest(s.disk, p) && s'.disk.record == s.disk.record
    requires q == p.(box := q.box, pass := q.pass, answered := q.answered) && Effect(s, step, s')
    requires forall e :: e in MirrorBase(p, step) ==> e in p.box.receipts
    ensures SlotNewest(s'.disk, q)
  {
    hide Covers, Trail;
    forall e | e in q.box.receipts || e in Listed(s'.disk.trail) ensures Dated(s'.disk.record, q, e) {
      assert e in p.box.receipts || e in Listed(s.disk.trail);
      assert Dated(s.disk.record, p, e);
    }
  }

  /** The window's receipt still ends the mirror, or it has been delivered and all that is left is older. */
  lemma WindowEnds(base: seq<Receipt>, listed: seq<Receipt>, out: seq<Receipt>, me: Identity, w: Receipt)
    requires Trail(out, me) && Sifted(base, listed, out) && Newest(out, w)
    ensures w in base ==> LastOf(out) == Some(w)
    ensures LastOf(out) == Some(w) || Ahead(out, w.at)
  {
    if w in base { AppendedLast(base, listed, out, me, w); }
    else if w in out {
      TrailTells(out, me, w, w);
      assert out[|out| - 1] in out;
    }
  }

  lemma SavedPlace(s: State, s': State, step: Step, p: Proc, q: Proc)
    requires s.proc == Some(p) && s'.proc == Some(q) && Place(s.disk.record, p)
    requires q == p.(box := q.box, pass := q.pass, answered := q.answered) && Effect(s, step, s') && Stamps(s', q)
    requires forall e :: e in MirrorBase(p, step) <==> e in p.box.receipts && !(step.PruneReceipt? && p.pass.Settling? && e == p.pass.r)
    requires Prunable(p, step)
    ensures Place(s.disk.record, q)
  {
    if WindowOf(p.slow).Some? {
      var w := WindowOf(p.slow).value;
      WindowEnds(MirrorBase(p, step), Listed(s.disk.trail), q.box.receipts, s.cfg.me, w);
      assert LastOf(p.box.receipts) == Some(w) ==> w in p.box.receipts;
      WindowStamp(p.slow);
      hide Effect, Stamps, MirrorBase, Covers, Ahead;
    }
  }

  lemma SavedWitness(s: State, s': State, step: Step, p: Proc, q: Proc)
    requires s.proc == Some(p) && s'.proc == Some(q) && SlotWitness(p) && SlotNewest(s'.disk, q)
    requires q == p.(box := q.box, pass := q.pass, answered := q.answered) && Effect(s, step, s')
    requires forall e :: e in MirrorBase(p, step) <==> e in p.box.receipts && !(step.PruneReceipt? && p.pass.Settling? && e == p.pass.r)
    requires Prunable(p, step)
    ensures SlotWitness(q)
  {
    EndInSlot(s, s', step, p, q);
    hide Effect, SlotNewest, MirrorBase, EndsIn, Prunable;
  }

  /** While the trail ends in the slot's receipt, saves leave it there. */
  lemma EndInSlot(s: State, s': State, step: Step, p: Proc, q: Proc)
    requires s.proc == Some(p) && s'.proc == Some(q) && SlotNewest(s'.disk, q)
    requires q == p.(box := q.box, pass := q.pass, answered := q.answered) && Effect(s, step, s')
    requires forall e :: e in MirrorBase(p, step) <==> e in p.box.receipts && !(step.PruneReceipt? && p.pass.Settling? && e == p.pass.r)
    requires Prunable(p, step)
    ensures p.recordOwed.Some? && EndsIn(p.box.receipts, p.recordOwed.value) && !Appending(p.slow) ==>
              EndsIn(q.box.receipts, p.recordOwed.value)
  {
    if p.recordOwed.Some? && EndsIn(p.box.receipts, p.recordOwed.value) && !Appending(p.slow) {
      var e, base, out := p.box.receipts[|p.box.receipts| - 1], MirrorBase(p, step), q.box.receipts;
      assert e in p.box.receipts && e in base;
      assert out != [] ==> out[0] in out && Dated(s'.disk.record, q, out[0]);
      assert out != [] ==> out[|out| - 1] in out && Dated(s'.disk.record, q, out[|out| - 1]);
      if e in out { TrailTells(out, s.cfg.me, e, e); }
      hide Effect, SlotNewest, MirrorBase;
    }
  }

  // ---------------------------------------------------------------- starts, and any step

  /** A start that finds a forced-minor record and a newer receipt heals nothing and owes nothing. */
  ghost predicate CleanStart(s: State) {
    var rs := Listed(s.disk.trail);
    Absorbing(s.disk.record) && rs != [] ==> Covers(s.disk.record, rs[|rs| - 1].at)
  }

  lemma PairingStart(s: State, healOk: bool, markOk: bool)
    requires Shape(s) && CleanStart(s)
    ensures var (disk, p) := Boot(s.cfg, s.disk, healOk, markOk); Pairing(disk, p)
  {
    BootPlain(s, healOk, markOk);
    LoadBoxLists(s.disk.trail, s.cfg.me);
    var rs := Listed(s.disk.trail);
    var (disk, p) := Boot(s.cfg, s.disk, healOk, markOk);
    hide Boot, Conclude, Resolve, LoadBox;
    forall e | e in rs ensures Dated(disk.record, p, e) {
      TrailTells(rs, s.cfg.me, e, e);
      TrailTells(rs, s.cfg.me, rs[|rs| - 1], e);
    }
    hide Trail;
    assert SlotNewest(disk, p);
  }

  lemma PairingFast(disk: Disk, p: Proc, d: Decision)
    requires Pairing(disk, p)
    ensures Pairing(disk, FastHalf(p, d))
  {
    TurnDates(disk, p, FastHalf(p, d));
    hide SlotNewest;
  }

  lemma PairingFinish(disk: Disk, p: Proc)
    requires Pairing(disk, p) && p.slow == Served && p.tickets != []
    ensures Pairing(disk, p.(tickets := p.tickets[1..], slow := Idle))
  {
    TurnDates(disk, p, p.(tickets := p.tickets[1..], slow := Idle));
    hide SlotNewest;
  }

  /** The pass after a step of its own: new with no hold passed, or the same receipt no further than before. */
  predicate Shortens(pass: Pass, after: Pass) {
    || Progress(after) == 0
    || (PassReceipt(after) == PassReceipt(pass) && Progress(after) <= Progress(pass))
  }

  lemma PassOnly(s: State, step: Step)
    requires s.proc.Some? && (step.Pick? || step.Send? || step.Answer?)
    ensures var p, s' := s.proc.value, NextRaw(s, step);
            && s'.proc.Some? && s'.disk == s.disk
            && s'.proc.value == p.(pass := s'.proc.value.pass) && Shortens(p.pass, s'.proc.value.pass)
  {
    hide Append, Prune, Save, Held, Boot, BeginTurn, FastHalf, MintStep, AppendStep, TakeMintStep, TakeRecordStep, NextUp;
  }

  lemma FreeOf(disk: Disk, p: Proc)
    requires Pairing(disk, p)
    ensures PassFree(p)
  {
  }

  lemma PassShortens(p: Proc, pass: Pass)
    requires PassFree(p) && Shortens(p.pass, pass)
    ensures PassFree(p.(pass := pass))
  {
  }

  lemma PairingPassStep(s: State, step: Step)
    requires Shape(s) && s.proc.Some? && Pairing(s.disk, s.proc.value)
    requires step.Pick? || step.Send? || step.Answer?
    ensures var s' := NextRaw(s, step); s'.proc.Some? && Pairing(s'.disk, s'.proc.value)
  {
    PassOnly(s, step);
    FreeOf(s.disk, s.proc.value);
    hide Shape, Pairing, NextRaw, PassFree;
    var p, p' := s.proc.value, NextRaw(s, step).proc.value;
    PassShortens(p, p'.pass);
    PassMoves(s.disk, p, p'.pass);
  }

  /** Every step of a running process keeps the slots and pairs in agreement. */
  lemma PairingStep(s: State, step: Step)
    requires Shape(s) && s.proc.Some? && Pairing(s.disk, s.proc.value)
    ensures var s' := NextRaw(s, step); s'.proc.Some? ==> Pairing(s'.disk, s'.proc.value)
  {
    hide Shape, Pairing, BeginTurn, FastHalf, SlotStep, MarkStep, MintStep, AppendStep, RecordStep, TakeMintStep,
         TakeRecordStep, RetryPersist, PickStep, CheckStep, SendStep, AnswerStep, Prune;
    var p := s.proc.value;
    match step
    case Start(_, _) =>
    case Crash =>
    case Decide(d) => PairingFast(s.disk, p, d);
    case Begin(clock, purgeOk) => PairingTurn(s, clock, purgeOk);
    case Mint(key, bytes) => PairingMint(s, key, bytes); DiskStays(s, step);
    case AppendReceipt(ok) => PairingAppend(s, ok);
    case WriteRecord(ok) => PairingRecord(s, ok);
    case SettleSlot => PairingSlot(s);
    case MarkOwed => PairingMark(s);
    case Finish => if p.slow == Served && p.tickets != [] { PairingFinish(s.disk, p); }
    case TakeOwedMint(key, bytes) => PairingTakeMint(s, key, bytes); DiskStays(s, step);
    case TakeOwedRecord(ok) => PairingTakeRecord(s, ok);
    case PersistAgain(_) => PairingSaved(s, step);
    case Pick => PairingPassStep(s, step);
    case Check => PairingCheck(s);
    case Send(_) => PairingPassStep(s, step);
    case Answer(_) => PairingPassStep(s, step);
    case PruneReceipt(ok) => PairingSaved(s, step);
  }

  lemma DiskStays(s: State, step: Step)
    requires step.Mint? || step.TakeOwedMint?
    ensures NextRaw(s, step).disk == s.disk
  {
  }

  /** Only a start, a decision's record write and its retry touch the record. */
  lemma RecordStays(s: State, step: Step)
    requires !step.Start? && !step.WriteRecord? && !step.TakeOwedRecord?
    ensures NextRaw(s, step).disk.record == s.disk.record
  {
    hide Append, Prune, Save, Held, FastHalf, BeginTurn;
  }
}
