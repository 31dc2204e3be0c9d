/**
 Wire order: the server processes one scope's decisions in the order they were made,
 across retries, lost answers, late mints, evictions, crashes and restarts. And the weaker
 order that holds whatever record a start finds: no grant after a newer denial.
 */
module FloorWire {
  import opened Basics
  import opened DecisionRecord
  import opened ConsentReceipts
  import opened ConsentOutbox
  import opened ConsentOutboxLaws
  import opened ConsentMirror
  import opened ConsentFloor
  import opened FloorShape
  import opened FloorPairing
  import opened FloorDecisions
  import opened FloorClose
  import opened FloorMarks
  import opened FloorHolds
  import opened FloorEvidence

  // ---------------------------------------------------------------- the order

  /** Which entries of the log a receipt has to be newer than: all, or, in the weak order, a grant than denials. */
  predicate Rivals(x: Receipt, granted: bool, weak: bool) {
    weak ==> !x.granted && granted
  }

  /** A stamp is newer than all its rivals in the log. */
  ghost predicate Above(log: seq<Receipt>, at: int, granted: bool, weak: bool) {
    forall x :: x in log && Rivals(x, granted, weak) ==> x.at < at
  }

  ghost predicate Ordered(log: seq<Receipt>, weak: bool) {
    forall i, j :: 0 <= i < j < |log| && Rivals(log[i], log[j].granted, weak) ==> log[i].at < log[j].at
  }

  /** The server knows the receipt, or it is newer than its rivals there. */
  ghost predicate Due(log: seq<Receipt>, r: Receipt, weak: bool) {
    HasKey(log, r.key) || Above(log, r.at, r.granted, weak)
  }

  ghost predicate AllDue(log: seq<Receipt>, rs: seq<Receipt>, weak: bool) {
    forall e :: e in rs ==> Due(log, e, weak)
  }

  /** Everything the server has processed is no newer than the record or the end of the list. */
  ghost predicate Topped(record: RecordFile, log: seq<Receipt>, rs: seq<Receipt>) {
    forall x :: x in log ==> Dominated(record, rs, x.at)
  }

  ghost predicate LogRest(s: State, weak: bool) {
    && Ordered(s.server, weak)
    && AllDue(s.server, Listed(s.disk.trail), weak)
    && (!weak ==> Topped(s.disk.record, s.server, Listed(s.disk.trail)))
  }

  /** Whether the decision whose receipt is not in the trail yet is a grant. */
  predicate PendingGrant(slow: Slow) {
    match slow
    case GrantStamped(_) => true
    case GrantUnminted(_) => true
    case GrantMinted(r) => r.granted
    case DenyStamped(d, _) => d == Grant
    case DenyRecorded(d, _, _) => d == Grant
    case DenySettled(d, _, _) => d == Grant
    case DenyMinted(r, _) => r.granted
    case RetryMinted(r) => r.granted
    case _ => false
  }

  ghost predicate PendingAbove(log: seq<Receipt>, p: Proc, weak: bool) {
    && (PendingAt(p.slow).Some? ==> Above(log, PendingAt(p.slow).value, PendingGrant(p.slow), weak))
    && (p.mintOwed.Some? ==> Above(log, p.mintOwed.value.at, p.mintOwed.value.decision == Grant, weak))
  }

  /** What the process has answered the server knows, and no key still to be appended is among it. */
  ghost predicate Answers(s: State, p: Proc) {
    && (forall k :: k in p.answered ==> HasKey(s.server, k) && k in s.used)
    && (MintedIn(p.slow).Some? ==> MintedIn(p.slow).value.key !in p.answered)
  }

  /** What the file lists beyond the mirror has been answered, and what has been answered and stands in the mirror is listed. */
  ghost predicate Relists(listed: seq<Receipt>, p: Proc) {
    && (forall e :: e in listed ==> e in p.box.receipts || e.key in p.answered)
    && (forall e :: e in p.box.receipts && e.key in p.answered ==> e in listed)
  }

  ghost predicate Answered(s: State, p: Proc) {
    Answers(s, p) && Relists(Listed(s.disk.trail), p)
  }

  /** The pass holds the oldest receipt the server does not know. */
  ghost predicate First(s: State, p: Proc, weak: bool) {
    PassReceipt(p.pass).Some? ==>
      var r := PassReceipt(p.pass).value;
      HasKey(s.server, r.key) || (Above(s.server, r.at, r.granted, weak) && Oldest(s, p, r))
  }

  ghost predicate Oldest(s: State, p: Proc, r: Receipt) {
    forall e :: e in p.box.receipts || e in Listed(s.disk.trail) ==> HasKey(s.server, e.key) || r.at <= e.at
  }

  ghost predicate LogRunning(s: State, p: Proc, weak: bool) {
    && AllDue(s.server, p.box.receipts, weak)
    && PendingAbove(s.server, p, weak)
    && Answered(s, p)
    && First(s, p, weak)
  }

  /** The receipt's stamp is on disk: in the record, or no newer than the end of the trail, here and there. */
  ghost predicate OnDisk(s: State, p: Proc, at: int) {
    Dominated(s.disk.record, p.box.receipts, at) && Dominated(s.disk.record, Listed(s.disk.trail), at)
  }

  /** A denial past its first hold, a grant past its pair hold, is on disk by its stamp. */
  ghost predicate PassOnDisk(s: State, p: Proc) {
    PassReceipt(p.pass).Some? ==>
      var r, n := PassReceipt(p.pass).value, Progress(p.pass);
      (if r.granted then n > 4 else n > 0) ==> OnDisk(s, p, r.at)
  }

  /** A cleared grant is not the trail's last word, or its record is down, or an eviction has taken it. */
  ghost predicate GrantSafe(record: RecordFile, p: Proc) {
    PassReceipt(p.pass).Some? && PassReceipt(p.pass).value.granted && Progress(p.pass) > 5 ==>
      Safe(record, p.box.receipts, PassReceipt(p.pass).value) || PassReceipt(p.pass).value !in p.box.receipts
  }

  ghost predicate Vetted(s: State, p: Proc, mints: bool) {
    Warranted(s, p, mints) && (!mints ==> JudgedCovered(s.disk, p, true))
  }

  ghost predicate Guarded(s: State, mints: bool) {
    && Healthy(s)
    && Vetted(s, s.proc.value, mints)
    && Topped(s.disk.record, s.server, s.proc.value.box.receipts)
    && PassOnDisk(s, s.proc.value)
    && DenySafe(s.disk.record, s.proc.value) && GrantSafe(s.disk.record, s.proc.value)
  }

  ghost predicate Wired(s: State, mints: bool, weak: bool) {
    && Shape(s) && PassDelivered(s) && LogRest(s, weak)
    && (s.proc.Some? ==> LogRunning(s, s.proc.value, weak) && (!weak ==> Guarded(s, mints)))
  }

  // ---------------------------------------------------------------- what the environment owes

  /** A denial judged inside its window has had its append saved, or the record covers it. */
  predicate Landed(s: State, step: Step) {
    s.proc.Some? && step.Check? && s.proc.value.pass.Checking? ==>
      var p := s.proc.value;
      p.pass.passed == 0 && !p.pass.r.granted && Window(p.slow, p.pass.r) ==>
        Covers(s.disk.record, p.pass.r.at) || !p.box.dirty
  }

  /** Every grant gets its key, or no pass judges a receipt inside its window. */
  predicate Excused(s: State, step: Step, mints: bool) {
    && Landed(s, step)
    && (if mints then MintsGrant(s, step) else Unraced(s, step, false) && Unraced(s, step, true))
  }

  // ---------------------------------------------------------------- guards, step by step

  lemma VettedStep(s: State, step: Step, mints: bool)
    requires Healthy(s) && !step.Crash? && Vetted(s, s.proc.value, mints) && Excused(s, step, mints)
    ensures var t := NextRaw(s, step); t.proc.Some? && Vetted(t, t.proc.value, mints)
  {
    WarrantedStep(s, step, mints);
    if !mints { CoveredNext(s, step, true); }
    hide Shape, Pairing, Marks, Unmarked, Warranted, JudgedCovered, MintsGrant, Unraced, NextRaw;
  }

  /** A prune takes the only witness of nothing the server knows. */
  lemma PruneSpares(s: State, step: Step, x: int)
    requires Shape(s) && s.proc.Some? && DenySafe(s.disk.record, s.proc.value) && GrantSafe(s.disk.record, s.proc.value)
    requires Dominated(s.disk.record, s.proc.value.box.receipts, x)
    ensures Covers(s.disk.record, x) || PruneKeeps(s, step)
  {
    var p := s.proc.value;
    if step.PruneReceipt? && p.pass.Settling? && p.pass.r in p.box.receipts && !Outlived(p.box.receipts, p.pass.r) {
      TrailFacts(s);
      var r, rs := p.pass.r, p.box.receipts;
      assert rs[|rs| - 1] in rs;
      hide Shape, Trail, Stamps, PassPlace;
      assert rs[|rs| - 1].at <= r.at;
    }
  }

  lemma OnDiskStep(s: State, step: Step, x: int)
    requires Healthy(s) && !step.Crash? && OnDisk(s, s.proc.value, x)
    requires DenySafe(s.disk.record, s.proc.value) && GrantSafe(s.disk.record, s.proc.value)
    ensures var t := NextRaw(s, step); t.proc.Some? && OnDisk(t, t.proc.value, x)
  {
    PruneSpares(s, step, x);
    hide DenySafe, GrantSafe, Shape, Pairing, Marks, Unmarked, NextRaw, Dominated, PruneKeeps, Covers;
    DominatedOne(s, step, x);
  }

  lemma ToppedStep(s: State, step: Step, mints: bool)
    requires Guarded(s, mints) && !step.Crash? && Topped(s.disk.record, s.server, Listed(s.disk.trail))
    ensures var t := NextRaw(s, step);
            && t.proc.Some?
            && Topped(t.disk.record, s.server, t.proc.value.box.receipts) && Topped(t.disk.record, s.server, Listed(t.disk.trail))
  {
    StaysUp(s, step);
    var t := NextRaw(s, step);
    hide Healthy, Vetted, NextRaw, Dominated, PassOnDisk, DenySafe, GrantSafe;
    forall x | x in s.server
      ensures Dominated(t.disk.record, t.proc.value.box.receipts, x.at) && Dominated(t.disk.record, Listed(t.disk.trail), x.at)
    {
      OnDiskStep(s, step, x.at);
    }
  }

  /** With the mirror saved, whatever stands in it or has been evicted from it is on disk. */
  lemma PairHoldOnDisk(s: State, r: Receipt)
    requires Shape(s) && s.proc.Some? && PassReceipt(s.proc.value.pass) == Some(r) && !s.proc.value.box.dirty
    ensures OnDisk(s, s.proc.value, r.at)
  {
    var p := s.proc.value;
    ShapeParts(s);
    LinkedTrails(p.box, s.disk.trail, s.cfg.me, s.used);
    if r in p.box.receipts { TrailTells(p.box.receipts, s.cfg.me, r, r); }
    hide Shape, Linked, Trail, Stamps, Agree, HasKey;
  }

  lemma MemberDominated(record: RecordFile, rs: seq<Receipt>, me: Identity, r: Receipt)
    requires Trail(rs, me) && r in rs
    ensures Dominated(record, rs, r.at)
  {
    TrailTells(rs, me, r, r);
    hide Trail;
  }

  /** What both lists have is on disk. */
  lemma ListedOnDisk(s: State, r: Receipt)
    requires Shape(s) && s.proc.Some? && r in s.proc.value.box.receipts && r in Listed(s.disk.trail)
    ensures OnDisk(s, s.proc.value, r.at)
  {
    TrailFacts(s);
    hide Shape, Trail, Stamps, PassPlace, Dominated;
    MemberDominated(s.disk.record, s.proc.value.box.receipts, s.cfg.me, r);
    MemberDominated(s.disk.record, Listed(s.disk.trail), s.cfg.me, r);
  }

  lemma GoneOnDisk(s: State, r: Receipt)
    requires Shape(s) && s.proc.Some? && PassReceipt(s.proc.value.pass) == Some(r) && r !in s.proc.value.box.receipts
    ensures OnDisk(s, s.proc.value, r.at)
  {
    TrailFacts(s);
    assert s.proc.value.box.receipts != [] ==> s.proc.value.box.receipts[|s.proc.value.box.receipts| - 1] in s.proc.value.box.receipts;
    hide Shape, Stamps;
  }

  /** Past its first hold a denial's stamp is on disk. */
  lemma FirstHoldOnDisk(s: State, r: Receipt)
    requires Healthy(s) && Answered(s, s.proc.value) && Landed(s, Check)
    requires s.proc.value.pass == Checking(r, 0) && !r.granted && r.key !in s.proc.value.box.owed
    ensures OnDisk(s, s.proc.value, r.at)
  {
    var p := s.proc.value;
    if r in p.box.receipts {
      assert Marked(s.disk.record, p, r);
      if r.key in p.answered { ListedOnDisk(s, r); }
      if !p.box.dirty { PairHoldOnDisk(s, r); }
    } else { GoneOnDisk(s, r); }
    hide Shape, Pairing, HasKey, Unmarked;
  }

  lemma OnDiskChecked(s: State)
    requires Healthy(s) && Answered(s, s.proc.value) && Landed(s, Check) && PassOnDisk(s, s.proc.value)
    ensures PassOnDisk(s, CheckStep(s.cfg, s.proc.value))
  {
    var p := s.proc.value;
    CheckAdvances(s.cfg, p);
    if p.pass.Checking? {
      HoldsAre(p, s.cfg.me, p.pass.r);
      if p.pass.passed == 0 && !p.pass.r.granted && p.pass.r.key !in p.box.owed { FirstHoldOnDisk(s, p.pass.r); }
      if p.pass.passed == 4 && p.pass.r.granted && !PairIncomplete(p) { PairHoldOnDisk(s, p.pass.r); }
    }
    hide Healthy, Answered, Landed, Held, CheckStep, Dominated, Arming, NewerDenialHeld, NewerDenialInTrail, DenyProofHeld;
  }

  lemma PassOnDiskStep(s: State, step: Step, mints: bool)
    requires Guarded(s, mints) && Answered(s, s.proc.value) && Landed(s, step) && !step.Crash?
    ensures var t := NextRaw(s, step); t.proc.Some? && PassOnDisk(t, t.proc.value)
  {
    if step.Check? { OnDiskChecked(s); hide CheckStep; }
    else {
      PassKeepsPlace(s, step);
      var p := s.proc.value;
      if PassReceipt(p.pass).Some? && OnDisk(s, p, PassReceipt(p.pass).value.at) { OnDiskStep(s, step, PassReceipt(p.pass).value.at); }
      hide NextRaw;
    }
    hide Healthy, Answered, Landed, OnDisk, Topped, Vetted, DenySafe, GrantSafe;
  }

  /** The last hold lets a grant pass only if taking it away is safe. */
  lemma LastHoldSafe(s: State, mints: bool, r: Receipt)
    requires Healthy(s) && Vetted(s, s.proc.value, mints) && PassReceipt(s.proc.value.pass) == Some(r) && r.granted
    requires s.proc.value.pass.Checking? && s.proc.value.pass.passed >= 5 && !Held(s.proc.value, s.cfg.me, r, 5)
    ensures Safe(s.disk.record, s.proc.value.box.receipts, r) || r !in s.proc.value.box.receipts
  {
    var p := s.proc.value;
    if mints && r in p.box.receipts && !Covers(s.disk.record, r.at) {
      LastHoldIs(s, r);
      SlotOver(s, r);
      FreeOf(s.disk, p);
      hide Held, Shape, Pairing, Marks, Unmarked, DenialPends, DenialFollows, Outlived;
      LastOutlives(p.box.receipts, r);
    }
    hide Held;
  }

  lemma GrantSafeStep(s: State, step: Step, mints: bool)
    requires Healthy(s) && Vetted(s, s.proc.value, mints) && GrantSafe(s.disk.record, s.proc.value) && !step.Crash?
    ensures var t := NextRaw(s, step); t.proc.Some? && GrantSafe(t.disk.record, t.proc.value)
  {
    var p := s.proc.value;
    if step.Check? { GrantSafeChecked(s, mints); hide CheckStep; }
    else {
      PassKeepsPlace(s, step);
      SettlingOver(s, step);
      if !step.PruneReceipt? && PassReceipt(p.pass).Some? && Safe(s.disk.record, p.box.receipts, PassReceipt(p.pass).value) {
        SafeStays(s, step, PassReceipt(p.pass).value);
      }
      hide NextRaw;
    }
    hide Healthy, Vetted, Safe;
  }

  /** A prune ends the pass it settles, and is nothing otherwise. */
  lemma SettlingOver(s: State, step: Step)
    requires s.proc.Some?
    ensures step.PruneReceipt? ==>
              var p, t := s.proc.value, NextRaw(s, step);
              t.proc.Some? && (t == s || t.proc.value.pass == Resting)
  {
    if step.PruneReceipt? { PruneTouches(s, step.ok); }
    hide NextRaw, Prune;
  }

  lemma GrantSafeChecked(s: State, mints: bool)
    requires Healthy(s) && Vetted(s, s.proc.value, mints) && GrantSafe(s.disk.record, s.proc.value)
    ensures GrantSafe(s.disk.record, CheckStep(s.cfg, s.proc.value))
  {
    var p := s.proc.value;
    CheckAdvances(s.cfg, p);
    if p.pass.Checking? && p.pass.r.granted && p.pass.passed >= 5 {
      HoldsAre(p, s.cfg.me, p.pass.r);
      if !Held(p, s.cfg.me, p.pass.r, 5) { LastHoldSafe(s, mints, p.pass.r); }
    }
    hide Healthy, Vetted, Held, CheckStep, Safe, NewerDenialHeld, NewerDenialInTrail, DenyProofHeld, PairIncomplete;
  }

  // ---------------------------------------------------------------- the lists and the log, step by step

  lemma ServerStays(s: State, step: Step)
    requires !step.Send?
    ensures NextRaw(s, step).server == s.server
  {
    hide Held, Append, Prune, Save, Boot, BeginTurn, FastHalf;
  }

  lemma JoinedDue(s: State, step: Step, weak: bool, e: Receipt)
    requires s.proc.Some? && PendingAbove(s.server, s.proc.value, weak) && Joins(s.proc.value, step, e)
    ensures Due(s.server, e, weak)
  {
    hide HasKey;
  }

  lemma DueStep(s: State, step: Step, weak: bool)
    requires Shape(s) && s.proc.Some? && !step.Crash?
    requires AllDue(s.server, Listed(s.disk.trail), weak) && AllDue(s.server, s.proc.value.box.receipts, weak)
    requires PendingAbove(s.server, s.proc.value, weak)
    ensures var t := NextRaw(s, step);
            && t.proc.Some? && AllDue(s.server, Listed(t.disk.trail), weak) && AllDue(s.server, t.proc.value.box.receipts, weak)
  {
    ListsFrom(s, step);
    var p, t := s.proc.value, NextRaw(s, step);
    hide Shape, NextRaw, Due, PendingAbove, Joins, Leaves;
    forall e | e in t.proc.value.box.receipts || e in Listed(t.disk.trail) ensures Due(s.server, e, weak) {
      if Joins(p, step, e) { JoinedDue(s, step, weak, e); }
    }
  }

  /** A forced-minor record stands only over forced-minor tickets. */
  lemma AbsorbedTurns(s: State)
    requires Coherent(s) && Absorbing(s.disk.record) && s.proc.Some?
    ensures s.proc.value.tickets != [] ==> s.proc.value.tickets[0].decision != Grant
  {
    AbsorbingIsMinor(s);
    hide Shape, Pairing, RecordTells, Linear, SlotTells, HoldsMinor;
  }

  /** The last stamp given is as new as all the server knows. */
  lemma StampsOver(s: State, p: Proc)
    requires Stamps(s, p) && Topped(s.disk.record, s.server, p.box.receipts)
    ensures forall x :: x in s.server ==> AtMost(x.at, p.lastStamp)
  {
    var rs := p.box.receipts;
    assert rs != [] ==> rs[|rs| - 1] in rs;
    forall x | x in s.server ensures AtMost(x.at, p.lastStamp) { assert Dominated(s.disk.record, rs, x.at); }
  }

  /** A turn's stamp is newer than the last one given. */
  lemma TurnStamps(p: Proc, clock: int, purgeOk: bool)
    ensures var q := BeginTurn(p, clock, purgeOk);
            && q.mintOwed == p.mintOwed
            && (PendingAt(q.slow).Some? ==>
                  || q.slow == p.slow
                  || (p.tickets != [] && (p.lastStamp.Some? ==> p.lastStamp.value < PendingAt(q.slow).value)
                      && PendingGrant(q.slow) == (p.tickets[0].decision == Grant)))
  {
  }

  lemma TurnAbove(s: State, clock: int, purgeOk: bool, weak: bool)
    requires Shape(s) && s.proc.Some? && PendingAbove(s.server, s.proc.value, weak)
    requires weak ==> s.proc.value.tickets != [] ==> s.proc.value.tickets[0].decision != Grant
    requires !weak ==> Topped(s.disk.record, s.server, s.proc.value.box.receipts)
    ensures PendingAbove(s.server, BeginTurn(s.proc.value, clock, purgeOk), weak)
  {
    var p := s.proc.value;
    TurnStamps(p, clock, purgeOk);
    if !weak { TrailFacts(s); StampsOver(s, p); }
    hide Shape, Trail, PassPlace, Stamps, Topped, BeginTurn, PendingAt, PendingGrant;
  }

  /** Other steps take their stamps from the lock holder or the owed mint. */
  lemma PendingMoves(s: State, step: Step)
    requires s.proc.Some? && !step.Crash? && !step.Begin?
    ensures var p, t := s.proc.value, NextRaw(s, step);
            && t.proc.Some?
            && var q := t.proc.value;
               && (PendingAt(q.slow).Some? ==>
                     || (PendingAt(q.slow) == PendingAt(p.slow) && PendingGrant(q.slow) == PendingGrant(p.slow))
                     || (p.mintOwed.Some? && PendingAt(q.slow) == Some(p.mintOwed.value.at)
                         && PendingGrant(q.slow) == (p.mintOwed.value.decision == Grant)))
               && (q.mintOwed.Some? ==>
                     || q.mintOwed == p.mintOwed
                     || (Some(q.mintOwed.value.at) == PendingAt(p.slow) && (q.mintOwed.value.decision == Grant) == PendingGrant(p.slow)))
  {
    if Saves(step) { SavePending(s, step); hide NextRaw; }
    else { hide Held, Boot, NextUp; }
  }

  lemma SavePending(s: State, step: Step)
    requires s.proc.Some? && Saves(step)
    ensures var p, t := s.proc.value, NextRaw(s, step);
            && t.proc.Some? && t.proc.value.mintOwed == p.mintOwed
            && (PendingAt(t.proc.value.slow).Some? ==> t.proc.value.slow == p.slow)
  {
    if step.AppendReceipt? { AppendTouches(s, step.ok); }
    else if step.PruneReceipt? { PruneTouches(s, step.ok); }
    else { PersistTouches(s, step.ok); }
    hide NextRaw, Append, Prune, RetryPersist;
  }

  lemma PendingStep(s: State, step: Step, weak: bool)
    requires Shape(s) && s.proc.Some? && !step.Crash? && PendingAbove(s.server, s.proc.value, weak)
    requires weak ==> s.proc.value.tickets != [] ==> s.proc.value.tickets[0].decision != Grant
    requires !weak ==> Topped(s.disk.record, s.server, s.proc.value.box.receipts)
    ensures var t := NextRaw(s, step); t.proc.Some? && PendingAbove(s.server, t.proc.value, weak)
  {
    if step.Begin? { TurnAbove(s, step.clock, step.purgeOk, weak); hide BeginTurn; }
    else { PendingMoves(s, step); hide NextRaw; }
    hide Shape, Above, Topped;
  }

  /** A key still to be appended was so before, or is fresh. */
  lemma KeysMove(s: State, step: Step)
    requires s.proc.Some? && !step.Crash?
    ensures var p, t := s.proc.value, NextRaw(s, step);
            && t.proc.Some? && s.used <= t.used
            && (MintedIn(t.proc.value.slow).Some? ==>
                  MintedIn(t.proc.value.slow) == MintedIn(p.slow) || MintedIn(t.proc.value.slow).value.key !in s.used)
  {
    var p := s.proc.value;
    if Saves(step) { SaveMoves(s, step); hide NextRaw; }
    else if step.SettleSlot? { SlotMoves(p); hide SlotStep; }
    else if step.MarkOwed? { MarkMints(p); hide MarkStep; }
    else if step.Mint? || step.TakeOwedMint? { MintQuiet(s, step); hide NextRaw; }
    else { MarksQuiet(s, step); hide NextRaw; }
  }

  lemma SettledKnown(s: State)
    requires Shape(s) && s.proc.Some? && PassDelivered(s)
    ensures var p := s.proc.value;
            p.pass.Settling? ==>
              && HasKey(s.server, p.pass.r.key) && p.pass.r.key in s.used
              && (MintedIn(p.slow).Some? ==> MintedIn(p.slow).value.key != p.pass.r.key)
  {
    PassHere(s);
    hide Shape, HasKey, Known, Gone;
  }

  /** Answered keys were minted, and only receipts the server knows are answered. */
  lemma AnswersMove(s: State, step: Step)
    requires Shape(s) && s.proc.Some? && !step.Crash? && !step.Send? && PassDelivered(s) && Answers(s, s.proc.value)
    ensures var t := NextRaw(s, step); t.proc.Some? && Answers(t, t.proc.value)
  {
    ServerStays(s, step);
    AnsweredMoves(s, step);
    KeysMove(s, step);
    SettledKnown(s);
    hide Shape, NextRaw, HasKey, PassDelivered, MintedIn;
  }

  lemma MarkMints(p: Proc)
    ensures MintedIn(MarkStep(p).slow) == MintedIn(p.slow)
  {
    hide MarkKey;
  }

  lemma AnsweredStep(s: State, step: Step)
    requires Shape(s) && s.proc.Some? && !step.Crash? && !step.Send? && PassDelivered(s) && Answered(s, s.proc.value)
    ensures var t := NextRaw(s, step); t.proc.Some? && Answered(t, t.proc.value)
  {
    ServerStays(s, step);
    AnswersMove(s, step);
    RelistsStep(s, step);
    hide Shape, NextRaw, HasKey, Relists, PassDelivered;
  }

  lemma RelistsStep(s: State, step: Step)
    requires Shape(s) && s.proc.Some? && !step.Crash? && Answered(s, s.proc.value)
    ensures var t := NextRaw(s, step); t.proc.Some? && Relists(Listed(t.disk.trail), t.proc.value)
  {
    AnsweredMoves(s, step);
    ListsFollow(s, step);
    PassHere(s);
    var p, t := s.proc.value, NextRaw(s, step);
    if Saves(step) {
      BaseMembers(s, step);
      hide Shape, NextRaw, HasKey, MirrorBase, PassPlace, FileFollows, Answers;
      RelistsSaved(s, step, t, p, t.proc.value);
    } else {
      hide Shape, NextRaw, HasKey, MirrorBase, PassPlace, FileFollows, Answers;
    }
  }

  lemma PassHere(s: State)
    requires Shape(s) && s.proc.Some?
    ensures PassPlace(s, s.proc.value)
  {
  }

  lemma ListsFollow(s: State, step: Step)
    requires Shape(s) && s.proc.Some? && !step.Crash?
    ensures var t := NextRaw(s, step);
            && t.proc.Some?
            && FileFollows(s.disk.trail, t.disk.trail, MirrorBase(s.proc.value, step), t.proc.value.box)
            && (!Saves(step) ==> t.disk.trail == s.disk.trail && t.proc.value.box.receipts == s.proc.value.box.receipts)
  {
    StaysUp(s, step);
    Effects(s, step);
    if !Saves(step) { OtherTouches(s, step); }
    hide Shape, NextRaw, Trail, Sifted, FileFollows, MirrorBase;
  }

  /** A receipt the lists keep through a save stands in them as the effect says. */
  lemma RelistsSaved(s: State, step: Step, t: State, p: Proc, q: Proc)
    requires s.proc == Some(p) && t.proc == Some(q) && Answered(s, p) && PassPlace(s, p) && Saves(step)
    requires q.answered == (if step.PruneReceipt? && p.pass.Settling? then p.answered + {p.pass.r.key} else p.answered)
    requires FileFollows(s.disk.trail, t.disk.trail, MirrorBase(p, step), q.box)
    requires forall e :: e in MirrorBase(p, step) <==> (e in p.box.receipts && !Leaves(p, step, e)) || Joins(p, step, e)
    ensures Relists(Listed(t.disk.trail), q)
  {
    if Listed(t.disk.trail) != q.box.receipts {
      forall e | e in q.box.receipts && e.key in q.answered ensures e.key in p.answered {
        assert e in MirrorBase(p, step);
        if step.PruneReceipt? && p.pass.Settling? { assert Known(p.box.receipts, p.pass.r); }
      }
    }
    hide MirrorBase, HasKey;
  }

  // ---------------------------------------------------------------- the oldest receipt goes first

  /** What the pass holds after a step it held before, or it has just taken up the oldest of the mirror. */
  lemma ReceiptMoves(s: State, step: Step)
    requires Shape(s) && s.proc.Some? && !step.Crash?
    ensures var p, t := s.proc.value, NextRaw(s, step);
            && t.proc.Some?
            && (PassReceipt(t.proc.value.pass).Some? ==>
                  || PassReceipt(t.proc.value.pass) == PassReceipt(p.pass)
                  || (step.Pick? && p.box.receipts != [] && PassReceipt(t.proc.value.pass).value == p.box.receipts[0]))
  {
    if step.Pick? || step.Check? || step.Send? || step.Answer? { PassMayMove(s, step); if !step.Pick? { CheckReceipt(s, step); } }
    else if step.PruneReceipt? { SettlingOver(s, step); }
    else { PassStays(s, step); }
    hide Shape, NextRaw;
  }

  lemma CheckReceipt(s: State, step: Step)
    requires s.proc.Some? && (step.Check? || step.Send? || step.Answer?)
    ensures var p, t := s.proc.value, NextRaw(s, step);
            t.proc.Some? && (PassReceipt(t.proc.value.pass).Some? ==> PassReceipt(t.proc.value.pass) == PassReceipt(p.pass))
  {
    OthersMove(s, step);
    hide NextRaw;
  }

  lemma JoinedNewer(s: State, step: Step, e: Receipt)
    requires Shape(s) && s.proc.Some? && PassReceipt(s.proc.value.pass).Some? && Joins(s.proc.value, step, e)
    ensures PassReceipt(s.proc.value.pass).value.at < e.at
  {
    TrailFacts(s);
    MintedAhead(s, s.proc.value);
    hide Shape, Trail, PassPlace, Stamps, Ahead;
    PassOlder(s, s.proc.value, e.at);
  }

  lemma MintedAhead(s: State, p: Proc)
    requires Stamps(s, p) && MintedIn(p.slow).Some?
    ensures Ahead(p.box.receipts, MintedIn(p.slow).value.at)
  {
    assert PendingAt(p.slow) == Some(MintedIn(p.slow).value.at);
    hide Ahead, Newest;
  }

  lemma OldestStep(s: State, step: Step, r: Receipt)
    requires Shape(s) && s.proc.Some? && !step.Crash? && PassReceipt(s.proc.value.pass) == Some(r) && Oldest(s, s.proc.value, r)
    requires NextRaw(s, step).server == s.server
    ensures var t := NextRaw(s, step); t.proc.Some? && Oldest(t, t.proc.value, r)
  {
    ListsFrom(s, step);
    var p, t := s.proc.value, NextRaw(s, step);
    hide Shape, NextRaw, HasKey, Joins, Leaves;
    forall e | e in t.proc.value.box.receipts || e in Listed(t.disk.trail) ensures HasKey(s.server, e.key) || r.at <= e.at {
      if Joins(p, step, e) { JoinedNewer(s, step, e); }
    }
  }

  /** The head of the mirror is the oldest receipt the server does not know. */
  lemma HeadOldest(s: State)
    requires Shape(s) && s.proc.Some? && Answered(s, s.proc.value) && s.proc.value.box.receipts != []
    ensures Oldest(s, s.proc.value, s.proc.value.box.receipts[0])
  {
    TrailFacts(s);
    var p := s.proc.value;
    forall e | e in p.box.receipts ensures p.box.receipts[0].at <= e.at { TrailTells(p.box.receipts, s.cfg.me, e, e); }
    hide Shape, Trail, Stamps, PassPlace, HasKey;
  }

  lemma FirstStep(s: State, step: Step, weak: bool)
    requires Shape(s) && s.proc.Some? && !step.Crash? && !step.Send?
    requires Answered(s, s.proc.value) && First(s, s.proc.value, weak) && AllDue(s.server, s.proc.value.box.receipts, weak)
    ensures var t := NextRaw(s, step); t.proc.Some? && First(t, t.proc.value, weak)
  {
    ServerStays(s, step);
    ReceiptMoves(s, step);
    var p, t := s.proc.value, NextRaw(s, step);
    if PassReceipt(t.proc.value.pass).Some? {
      if PassReceipt(t.proc.value.pass) == PassReceipt(p.pass) {
        if Oldest(s, p, PassReceipt(p.pass).value) { OldestStep(s, step, PassReceipt(p.pass).value); }
      } else { HeadOldest(s); PickQuiet(s); }
    }
    hide Shape, NextRaw, HasKey, Answered, Above;
  }

  lemma PickQuiet(s: State)
    requires Shape(s) && s.proc.Some?
    ensures var p, t := s.proc.value, NextRaw(s, Pick);
            t.proc.Some? && t.disk == s.disk && t.server == s.server && t.proc.value == p.(pass := t.proc.value.pass)
  {
    PassMayMove(s, Pick);
    hide Shape;
  }

  // ---------------------------------------------------------------- a post

  /** What a post changes: the log by its receipt, if the server processes it and does not know it, and the pass. */
  lemma SendMoves(s: State, processed: bool)
    requires s.proc.Some?
    ensures var p, t := s.proc.value, NextRaw(s, Send(processed));
            if p.pass.Cleared?
            then t == s.(server := if processed && !HasKey(s.server, p.pass.r.key) then s.server + [p.pass.r] else s.server,
                         proc := Some(p.(pass := InFlight(p.pass.r, processed))))
            else t == s
  {
    hide HasKey;
  }

  lemma AboveAfter(log: seq<Receipt>, r: Receipt, at: int, granted: bool, weak: bool)
    requires Above(log, at, granted, weak) && (Rivals(r, granted, weak) ==> r.at < at)
    ensures Above(log + [r], at, granted, weak)
  {
  }

  lemma OrderedAfter(log: seq<Receipt>, r: Receipt, weak: bool)
    requires Ordered(log, weak) && Above(log, r.at, r.granted, weak)
    ensures Ordered(log + [r], weak)
  {
    var l := log + [r];
    forall i, j | 0 <= i < j < |l| && Rivals(l[i], l[j].granted, weak) ensures l[i].at < l[j].at {
      if j == |log| { assert l[i] in log; }
    }
  }

  lemma DueAfter(s: State, e: Receipt, weak: bool)
    requires Shape(s) && s.proc.Some? && s.proc.value.pass.Cleared? && !HasKey(s.server, s.proc.value.pass.r.key)
    requires First(s, s.proc.value, weak) && (e in s.proc.value.box.receipts || e in Listed(s.disk.trail))
    requires Due(s.server, e, weak)
    ensures Due(s.server + [s.proc.value.pass.r], e, weak)
  {
    var p := s.proc.value;
    var r := p.pass.r;
    HasKeyAfter(s.server, r);
    PassHere(s);
    hide Shape, HasKey;
    if !HasKey(s.server, e.key) && e.key != r.key {
      assert r.at <= e.at;
      assert r.at != e.at by { assert Known(p.box.receipts, r) && Known(Listed(s.disk.trail), r); }
      AboveAfter(s.server, r, e.at, e.granted, weak);
    }
  }

  lemma PendingAfter(s: State, weak: bool)
    requires Shape(s) && s.proc.Some? && s.proc.value.pass.Cleared? && PendingAbove(s.server, s.proc.value, weak)
    ensures PendingAbove(s.server + [s.proc.value.pass.r], s.proc.value, weak)
  {
    var p := s.proc.value;
    TrailFacts(s);
    PendingOlder(s, p);
    hide Shape, Trail, Stamps, PassPlace, Above;
    if PendingAt(p.slow).Some? { AboveAfter(s.server, p.pass.r, PendingAt(p.slow).value, PendingGrant(p.slow), weak); }
    if p.mintOwed.Some? { AboveAfter(s.server, p.pass.r, p.mintOwed.value.at, p.mintOwed.value.decision == Grant, weak); }
  }

  lemma PendingOlder(s: State, p: Proc)
    requires Stamps(s, p) && PassPlace(s, p) && PassReceipt(p.pass).Some?
    ensures PendingAt(p.slow).Some? ==> PassReceipt(p.pass).value.at < PendingAt(p.slow).value
    ensures p.mintOwed.Some? ==> PassReceipt(p.pass).value.at < p.mintOwed.value.at
  {
    if PendingAt(p.slow).Some? { PassOlder(s, p, PendingAt(p.slow).value); }
    if p.mintOwed.Some? { PassOlder(s, p, p.mintOwed.value.at); }
    hide PassPlace, Ahead, Newest;
  }

  lemma AnsweredAfter(s: State, t: State, p: Proc, q: Proc)
    requires Answered(s, p) && t.used == s.used && t.disk == s.disk
    requires q == p.(pass := q.pass) && forall k :: HasKey(s.server, k) ==> HasKey(t.server, k)
    ensures Answered(t, q)
  {
    hide HasKey;
  }

  /** The lists after a post. */
  lemma SendLists(s: State, processed: bool, weak: bool)
    requires Shape(s) && s.proc.Some? && LogRest(s, weak) && LogRunning(s, s.proc.value, weak)
    ensures var t := NextRaw(s, Send(processed));
            && t.proc.Some? && Ordered(t.server, weak) && AllDue(t.server, Listed(t.disk.trail), weak)
            && LogRunning(t, t.proc.value, weak)
  {
    SendMoves(s, processed);
    var p, t := s.proc.value, NextRaw(s, Send(processed));
    hide NextRaw, Shape, HasKey;
    if t.server != s.server { SendNew(s, t, weak); }
    else if t != s { SendOld(s, t, weak); }
  }

  /** Nothing new reaches the server. */
  lemma SendOld(s: State, t: State, weak: bool)
    requires Shape(s) && s.proc.Some? && s.proc.value.pass.Cleared? && LogRunning(s, s.proc.value, weak)
    requires t == s.(proc := t.proc) && t.proc.Some? && t.proc.value == s.proc.value.(pass := t.proc.value.pass)
    requires PassReceipt(t.proc.value.pass) == PassReceipt(s.proc.value.pass)
    ensures LogRunning(t, t.proc.value, weak)
  {
    hide Shape, HasKey, Above, Due;
  }

  lemma SendNew(s: State, t: State, weak: bool)
    requires Shape(s) && s.proc.Some? && s.proc.value.pass.Cleared? && LogRest(s, weak) && LogRunning(s, s.proc.value, weak)
    requires !HasKey(s.server, s.proc.value.pass.r.key) && t.server == s.server + [s.proc.value.pass.r]
    requires t == s.(server := t.server, proc := t.proc) && t.proc.Some? && t.proc.value == s.proc.value.(pass := t.proc.value.pass)
    requires PassReceipt(t.proc.value.pass) == PassReceipt(s.proc.value.pass)
    ensures Ordered(t.server, weak) && AllDue(t.server, Listed(t.disk.trail), weak) && LogRunning(t, t.proc.value, weak)
  {
    var p, q := s.proc.value, t.proc.value;
    var r := p.pass.r;
    HasKeyAfter(s.server, r);
    OrderedAfter(s.server, r, weak);
    PendingAfter(s, weak);
    AnsweredAfter(s, t, p, q);
    hide Shape, HasKey, Above, Due, Answered, Oldest, Ordered, Relists, Answers;
    forall e | e in p.box.receipts || e in Listed(s.disk.trail) ensures Due(t.server, e, weak) { DueAfter(s, e, weak); }
    assert First(t, q, weak);
  }

  // ---------------------------------------------------------------- every step, every run

  lemma GuardedStep(s: State, step: Step, mints: bool)
    requires Guarded(s, mints) && Answered(s, s.proc.value) && Topped(s.disk.record, s.server, Listed(s.disk.trail))
    requires !step.Crash? && Excused(s, step, mints)
    ensures var t := NextRaw(s, step); t.proc.Some? && Healthy(t) && Vetted(t, t.proc.value, mints) && PassOnDisk(t, t.proc.value)
    ensures var t := NextRaw(s, step); DenySafe(t.disk.record, t.proc.value) && GrantSafe(t.disk.record, t.proc.value)
    ensures var t := NextRaw(s, step);
            Topped(t.disk.record, s.server, t.proc.value.box.receipts) && Topped(t.disk.record, s.server, Listed(t.disk.trail))
  {
    HealthyStep(s, step);
    ToppedStep(s, step, mints);
    hide Healthy, Answered, Topped, DenySafe, GrantSafe, PassOnDisk, NextRaw, Landed, MintsGrant, Unraced;
    VettedStep(s, step, mints);
    PassOnDiskStep(s, step, mints);
    VettedSafe(s, step, mints);
  }

  lemma HealthyStep(s: State, step: Step)
    requires Healthy(s) && !step.Crash?
    ensures Healthy(NextRaw(s, step))
  {
    ShapeRaw(s, step);
    PairingStep(s, step);
    MarksStep(s, step);
    hide Shape, Pairing, Marks, Unmarked, NextRaw;
  }

  lemma VettedSafe(s: State, step: Step, mints: bool)
    requires Healthy(s) && Vetted(s, s.proc.value, mints) && !step.Crash?
    requires DenySafe(s.disk.record, s.proc.value) && GrantSafe(s.disk.record, s.proc.value)
    ensures var t := NextRaw(s, step); t.proc.Some? && DenySafe(t.disk.record, t.proc.value) && GrantSafe(t.disk.record, t.proc.value)
  {
    GrantSafeStep(s, step, mints);
    DenySafeStep(s, step, mints);
    hide Shape, Pairing, Marks, Unmarked, Warranted, DenySafe, GrantSafe, JudgedCovered, NextRaw;
  }

  lemma ToppedAfter(record: RecordFile, log: seq<Receipt>, rs: seq<Receipt>, r: Receipt)
    requires Topped(record, log, rs) && Dominated(record, rs, r.at)
    ensures Topped(record, log + [r], rs)
  {
    hide Dominated;
  }

  lemma ToppedSent(s: State, processed: bool, mints: bool)
    requires Guarded(s, mints) && Topped(s.disk.record, s.server, Listed(s.disk.trail))
    ensures var t := NextRaw(s, Send(processed));
            && t.proc.Some?
            && Topped(t.disk.record, t.server, t.proc.value.box.receipts) && Topped(t.disk.record, t.server, Listed(t.disk.trail))
  {
    SendMoves(s, processed);
    var p := s.proc.value;
    hide NextRaw, Healthy, Vetted, HasKey, Topped, Dominated, DenySafe, GrantSafe;
    if p.pass.Cleared? {
      ToppedAfter(s.disk.record, s.server, p.box.receipts, p.pass.r);
      ToppedAfter(s.disk.record, s.server, Listed(s.disk.trail), p.pass.r);
    }
  }

  lemma WiredLists(s: State, step: Step, weak: bool)
    requires Shape(s) && s.proc.Some? && !step.Crash? && PassDelivered(s) && LogRest(s, weak) && LogRunning(s, s.proc.value, weak)
    requires weak ==> s.proc.value.tickets != [] ==> s.proc.value.tickets[0].decision != Grant
    requires !weak ==> Topped(s.disk.record, s.server, s.proc.value.box.receipts)
    ensures var t := NextRaw(s, step);
            && t.proc.Some? && Ordered(t.server, weak) && AllDue(t.server, Listed(t.disk.trail), weak)
            && LogRunning(t, t.proc.value, weak)
  {
    if step.Send? { SendLists(s, step.processed, weak); }
    else {
      ServerStays(s, step);
      DueStep(s, step, weak);
      PendingStep(s, step, weak);
      AnsweredStep(s, step);
      FirstStep(s, step, weak);
    }
    hide Shape, NextRaw, PassDelivered, AllDue, PendingAbove, Answered, First, Topped, Ordered;
  }

  lemma WiredRunning(s: State, step: Step, mints: bool, weak: bool)
    requires Wired(s, mints, weak) && s.proc.Some? && !step.Crash? && step != Answer(Terminal)
    requires weak ==> s.proc.value.tickets != [] ==> s.proc.value.tickets[0].decision != Grant
    requires !weak ==> Excused(s, step, mints)
    ensures Wired(Next(s, step), mints, weak)
  {
    ShapeStep(s, step);
    DeliveredStep(s, step);
    WiredLists(s, step, weak);
    var t := NextRaw(s, step);
    if !weak {
      GuardedStep(s, step, mints);
      if step.Send? { ToppedSent(s, step.processed, mints); } else { ServerStays(s, step); }
      GuardedObserve(t, mints);
    }
    hide Shape, NextRaw, PassDelivered, LogRunning, AllDue, Ordered, Topped, Healthy, Vetted, PassOnDisk, DenySafe, GrantSafe, Excused;
    LogObserve(t, weak);
  }

  lemma GuardedObserve(s: State, mints: bool)
    requires s.proc.Some?
    ensures Guarded(s, mints) ==> Guarded(Observe(s), mints)
  {
    ShapeObserve(s);
    hide Shape, Pairing, Marks, GrantsMinted, JudgedCovered, HasKey, DenySafe, GrantSafe, Topped, Dominated;
  }

  lemma ShapeObserve(s: State)
    ensures Shape(s) ==> Shape(Observe(s))
  {
    hide Linked, Trail, HasKey;
  }

  lemma LogObserve(s: State, weak: bool)
    ensures LogRest(s, weak) ==> LogRest(Observe(s), weak)
    ensures s.proc.Some? && LogRunning(s, s.proc.value, weak) ==> LogRunning(Observe(s), s.proc.value, weak)
  {
    hide HasKey, Dominated;
  }

  // ---- starts

  lemma ToppedHealed(s: State, healOk: bool, markOk: bool)
    requires Shape(s) && Topped(s.disk.record, s.server, Listed(s.disk.trail))
    ensures var (disk, p) := Boot(s.cfg, s.disk, healOk, markOk);
            && Listed(disk.trail) == p.box.receipts == Listed(s.disk.trail)
            && Topped(disk.record, s.server, p.box.receipts)
  {
    BootPlain(s, healOk, markOk);
    LoadBoxLists(s.disk.trail, s.cfg.me);
    var disk := Boot(s.cfg, s.disk, healOk, markOk).0;
    hide Boot, Conclude, Resolve, Shape, LoadBox;
    forall x | x in s.server ensures Dominated(disk.record, Listed(s.disk.trail), x.at) {
      assert Dominated(s.disk.record, Listed(s.disk.trail), x.at);
    }
  }

  lemma HealthyStart(s: State, healOk: bool, markOk: bool)
    requires Shape(s) && s.proc.None? && CleanStart(s)
    ensures Healthy(NextRaw(s, Start(healOk, markOk)))
  {
    ShapeStart(s, healOk, markOk);
    PairingStart(s, healOk, markOk);
    MarksStart(s, healOk, markOk);
    UnmarkedStart(s, healOk, markOk);
    UnmarkedUsed(s, NextRaw(s, Start(healOk, markOk)), Boot(s.cfg, s.disk, healOk, markOk).1);
    hide Boot, Shape, Pairing, Marks, Unmarked;
  }

  lemma UnmarkedUsed(s: State, t: State, p: Proc)
    requires Unmarked(s, p) && t.used == s.used
    ensures Unmarked(t, p)
  {
    hide HasKey;
  }

  lemma GuardedStart(s: State, healOk: bool, markOk: bool, mints: bool)
    requires Shape(s) && s.proc.None? && CleanStart(s) && LogRest(s, false)
    ensures var t := NextRaw(s, Start(healOk, markOk)); Guarded(t, mints) && Topped(t.disk.record, t.server, Listed(t.disk.trail))
  {
    HealthyStart(s, healOk, markOk);
    ToppedHealed(s, healOk, markOk);
    WarrantedStart(s, healOk, markOk, mints);
    BootPlain(s, healOk, markOk);
    hide Boot, Conclude, Resolve, Shape, Healthy, Warranted, Topped;
  }

  lemma LogStart(s: State, healOk: bool, markOk: bool, weak: bool)
    requires Shape(s) && s.proc.None? && LogRest(s, weak)
    ensures var t := NextRaw(s, Start(healOk, markOk));
            && t.proc.Some? && t.server == s.server && Listed(t.disk.trail) == Listed(s.disk.trail)
            && LogRunning(t, t.proc.value, weak)
  {
    BootPlain(s, healOk, markOk);
    LoadBoxLists(s.disk.trail, s.cfg.me);
    hide Boot, Conclude, Resolve, Shape, Due, LoadBox;
  }

  lemma WiredStart(s: State, healOk: bool, markOk: bool, mints: bool, weak: bool)
    requires Wired(s, mints, weak) && s.proc.None? && (weak || CleanStart(s))
    ensures Wired(Next(s, Start(healOk, markOk)), mints, weak)
  {
    var step := Start(healOk, markOk);
    ShapeStep(s, step);
    DeliveredStep(s, step);
    LogStart(s, healOk, markOk, weak);
    var t := NextRaw(s, step);
    if !weak { GuardedStart(s, healOk, markOk, mints); GuardedObserve(t, mints); }
    hide Shape, NextRaw, PassDelivered, LogRunning, AllDue, Ordered, Topped, Guarded, CleanStart;
    LogObserve(t, weak);
  }

  lemma WiredDown(s: State, step: Step, mints: bool, weak: bool)
    requires Wired(s, mints, weak) && (if s.proc.Some? then step.Crash? else !step.Start?)
    ensures Wired(Next(s, step), mints, weak)
  {
    assert NextRaw(s, step) == s.(proc := None);
    ShapeStep(s, step);
    LogObserve(NextRaw(s, step), weak);
    hide Shape, NextRaw, AllDue, Ordered, Topped;
  }

  /** The strong order implies the weak one. */
  lemma Weakened(s: State, mints: bool)
    requires Wired(s, mints, false)
    ensures Wired(s, mints, true)
  {
    hide HasKey, Shape, Guarded, Topped, Oldest, Answered;
  }

  /** What the wire order needs of the environment. */
  ghost predicate WireFair(s: State, step: Step, mints: bool) {
    && Excused(s, step, mints)
    && step != Answer(Terminal)
    && (s.proc.None? && step.Start? ==> CleanStart(s))
  }

  lemma WiredStep(s: State, step: Step, mints: bool)
    requires Wired(s, mints, false) && WireFair(s, step, mints)
    ensures Wired(Next(s, step), mints, false)
  {
    hide Wired, Excused;
    if s.proc.Some? && !step.Crash? { WiredRunning(s, step, mints, false); }
    else if s.proc.None? && step.Start? { WiredStart(s, step.healOk, step.markOk, mints, false); }
    else { WiredDown(s, step, mints, false); }
  }

  ghost predicate WireFairRun(s: State, steps: seq<Step>, mints: bool) {
    steps == [] ||
    (WireFairRun(s, steps[..|steps| - 1], mints) && WireFair(Run(s, steps[..|steps| - 1]), steps[|steps| - 1], mints))
  }

  lemma {:induction false} WiredRun(s: State, steps: seq<Step>, mints: bool)
    requires Wired(s, mints, false) && WireFairRun(s, steps, mints)
    ensures Wired(Run(s, steps), mints, false)
  {
    hide Wired, Next, WireFair;
    if steps != [] {
      WiredRun(s, steps[..|steps| - 1], mints);
      WiredStep(Run(s, steps[..|steps| - 1]), steps[|steps| - 1], mints);
    }
  }

  /**
   Wire order. From files the floor wrote and a server log they agree with, in every run in which the
   server answers nothing terminally, no start finds a forced-minor record older than the trail, no
   pass judges a denial inside its window whose append failed, and either every grant gets its key or
   no pass judges a receipt inside its window: the server processes strictly newer decisions, whatever
   is retried, answered late or not at all, minted late, evicted or interrupted by crashes.
   */
  lemma WireOrder(s: State, steps: seq<Step>, mints: bool)
    requires Shape(s) && s.proc.None? && LogRest(s, false) && WireFairRun(s, steps, mints)
    ensures Ordered(Run(s, steps).server, false)
  {
    hide Run, Next, WireFairRun;
    WiredRun(s, steps, mints);
  }

  /** What the weak order needs: nothing of the starts, and nothing once a forced-minor record is down. */
  ghost predicate WireFairly(s: State, step: Step, mints: bool) {
    step != Answer(Terminal) && (Absorbing(s.disk.record) || Excused(s, step, mints))
  }

  ghost predicate WireFairlyRun(s: State, steps: seq<Step>, mints: bool) {
    steps == [] ||
    (WireFairlyRun(s, steps[..|steps| - 1], mints) && WireFairly(Run(s, steps[..|steps| - 1]), steps[|steps| - 1], mints))
  }

  /** The strong order until a forced-minor record is down, the weak one from then on. */
  ghost predicate Tracked(s: State, mints: bool) {
    Coherent(s) && Wired(s, mints, Absorbing(s.disk.record))
  }

  lemma TrackedStep(s: State, step: Step, mints: bool)
    requires Tracked(s, mints) && WireFairly(s, step, mints)
    ensures Tracked(Next(s, step), mints)
  {
    var weak := Absorbing(s.disk.record);
    CoherentStep(s, step);
    AbsorbingStays(s, step);
    if weak && s.proc.Some? { AbsorbedTurns(s); }
    if !weak { CleanUnlessMinor(s); }
    hide Coherent, Wired, Excused, Absorbing, CleanStart;
    if s.proc.Some? && !step.Crash? { WiredRunning(s, step, mints, weak); }
    else if s.proc.None? && step.Start? { WiredStart(s, step.healOk, step.markOk, mints, weak); }
    else { WiredDown(s, step, mints, weak); }
    if !weak && Absorbing(Next(s, step).disk.record) { Weakened(Next(s, step), mints); }
  }

  lemma {:induction false} TrackedRun(s: State, steps: seq<Step>, mints: bool)
    requires Tracked(s, mints) && WireFairlyRun(s, steps, mints)
    ensures Tracked(Run(s, steps), mints)
  {
    hide Tracked, Next, WireFairly;
    if steps != [] {
      TrackedRun(s, steps[..|steps| - 1], mints);
      TrackedStep(Run(s, steps[..|steps| - 1]), steps[|steps| - 1], mints);
    }
  }

  /**
   No grant after a newer denial, whatever record a start finds: from files the floor wrote, in every run
   with no terminal answer and, until a forced-minor record is down, with the same judgements excluded,
   the server processes no grant after a denial decided later.
   */
  lemma NoGrantAfterNewerDenial(s: State, steps: seq<Step>, mints: bool, i: nat, j: nat)
    requires Shape(s) && s.proc.None? && LogRest(s, Absorbing(s.disk.record)) && WireFairlyRun(s, steps, mints)
    requires i < j < |Run(s, steps).server|
    requires !Run(s, steps).server[i].granted && Run(s, steps).server[j].granted
    ensures Run(s, steps).server[i].at < Run(s, steps).server[j].at
  {
    hide Run, Next, WireFairlyRun;
    assert Tracked(s, mints) by { CoherentRest(s); }
    TrackedRun(s, steps, mints);
  }
}
