/**
 The part of the consent-floor invariant that every run keeps: mirror and file are
 linked, stamps only grow, and a pass holds the oldest receipt.
 */
module FloorShape {
  import opened Basics
  import opened DecisionRecord
  import opened ConsentReceipts
  import opened ConsentOutbox
  import opened ConsentMirror
  import opened ConsentFloor

  function RecordAt(record: RecordFile): Option<int> {
    if record.File? then record.wire.decidedAt else None
  }

  /** The record is at least as new as `at`. */
  predicate Covers(record: RecordFile, at: int) {
    RecordAt(record).Some? && RecordAt(record).value >= at
  }

  /** A forced-minor record, which nothing overrides. */
  predicate Absorbing(record: RecordFile) {
    record.File? && record.wire.analytics == Word(ForcedMinor)
  }

  /** No record yet, or one this floor wrote: proven, stamped, unmarked. */
  predicate FloorRecord(cfg: Config, record: RecordFile) {
    record.NoFile? ||
    (record.File? && record.wire.analytics.Word? && record.wire.decidedAt.Some? &&
     record == SaveRecord(record.wire.analytics.decision, cfg.digest, record.wire.decidedAt, true))
  }

  /** `at` is newer than every receipt of the list. */
  ghost predicate Ahead(rs: seq<Receipt>, at: int) {
    forall e :: e in rs ==> e.at < at
  }

  /** `r` is in no list twice over: its key and its stamp name no other receipt. */
  ghost predicate Known(rs: seq<Receipt>, r: Receipt) {
    forall e :: e in rs && (e.key == r.key || e.at == r.at) ==> e == r
  }

  /** No receipt of the list is newer than `r`, and none but `r` is as new. */
  ghost predicate Newest(rs: seq<Receipt>, r: Receipt) {
    forall e :: e in rs ==> e.at < r.at || e == r
  }

  predicate AtMost(at: int, last: Option<int>) {
    last.Some? && at <= last.value
  }

  /** The stamp of a decision whose receipt is not in the trail yet. */
  function PendingAt(slow: Slow): Option<int> {
    match slow
    case GrantStamped(at) => Some(at)
    case GrantUnminted(at) => Some(at)
    case GrantMinted(r) => Some(r.at)
    case DenyStamped(_, at) => Some(at)
    case DenyRecorded(_, at, _) => Some(at)
    case DenySettled(_, at, _) => Some(at)
    case DenyMinted(r, _) => Some(r.at)
    case RetryMinted(r) => Some(r.at)
    case _ => None
  }

  /** The stamp of the decision the lock holder works on. */
  function StampOf(slow: Slow): Option<int> {
    match slow
    case GrantAppended(r, _) => Some(r.at)
    case GrantRecorded(r, _) => Some(r.at)
    case GrantSettled(r) => Some(r.at)
    case DenyAppended(r, _) => Some(r.at)
    case RetryAppended(r) => Some(r.at)
    case RetryRecorded(o, _) => Some(o.at)
    case _ => PendingAt(slow)
  }

  function MintedIn(slow: Slow): Option<Receipt> {
    match slow
    case GrantMinted(r) => Some(r)
    case DenyMinted(r, _) => Some(r)
    case RetryMinted(r) => Some(r)
    case _ => None
  }

  /** The receipt that has been appended and whose mark has not been decided yet. */
  function WindowOf(slow: Slow): Option<Receipt> {
    match slow
    case GrantAppended(r, _) => Some(r)
    case GrantRecorded(r, _) => Some(r)
    case GrantSettled(r) => Some(r)
    case DenyAppended(r, _) => Some(r)
    case RetryAppended(r) => Some(r)
    case _ => None
  }

  function PassReceipt(pass: Pass): Option<Receipt> {
    match pass
    case Resting => None
    case Checking(r, _) => Some(r)
    case Cleared(r) => Some(r)
    case InFlight(r, _) => Some(r)
    case Settling(r) => Some(r)
  }

  ghost predicate Stamps(s: State, p: Proc) {
    var rs, listed := p.box.receipts, Listed(s.disk.trail);
    && (forall e :: e in rs || e in listed ==> AtMost(e.at, p.lastStamp))
    && (RecordAt(s.disk.record).Some? ==> AtMost(RecordAt(s.disk.record).value, p.lastStamp))
    && (p.recordOwed.Some? ==> AtMost(p.recordOwed.value.at, p.lastStamp))
    && (p.mintOwed.Some? ==>
          AtMost(p.mintOwed.value.at, p.lastStamp) && Ahead(rs, p.mintOwed.value.at) && Ahead(listed, p.mintOwed.value.at))
    && (StampOf(p.slow).Some? ==> AtMost(StampOf(p.slow).value, p.lastStamp))
    && (PendingAt(p.slow).Some? ==> Ahead(rs, PendingAt(p.slow).value) && Ahead(listed, PendingAt(p.slow).value))
    && (WindowOf(p.slow).Some? ==> Newest(rs, WindowOf(p.slow).value) && Newest(listed, WindowOf(p.slow).value))
  }

  /** An eviction has taken `r` from mirror and file while newer receipts stayed. */
  predicate Gone(rs: seq<Receipt>, listed: seq<Receipt>, r: Receipt) {
    && r !in rs && r !in listed
    && |rs| >= 2 && r.at < rs[|rs| - 2].at
    && listed != [] && r.at < listed[|listed| - 1].at
  }

  /** The pass holds a receipt of the mirror, or one that an eviction has taken meanwhile. */
  ghost predicate PassPlace(s: State, p: Proc) {
    PassReceipt(p.pass).Some? ==>
      var r, rs, listed := PassReceipt(p.pass).value, p.box.receipts, Listed(s.disk.trail);
      && InScope(r, s.cfg.me) && r.key != "" && r.key in s.used
      && Known(rs, r) && Known(listed, r)
      && (MintedIn(p.slow).Some? ==> MintedIn(p.slow).value.key != r.key)
      && (r in rs || Gone(rs, listed, r))
  }

  predicate FreshKey(s: State, p: Proc, r: Receipt) {
    && InScope(r, s.cfg.me) && r.key != "" && r.key in s.used && r.key !in p.box.settled
    && !HasKey(p.box.receipts, r.key) && !HasKey(Listed(s.disk.trail), r.key)
  }

  ghost predicate ShapeOf(s: State, p: Proc) {
    && Linked(p.box, s.disk.trail, s.cfg.me, s.used)
    && Stamps(s, p)
    && (MintedIn(p.slow).Some? ==> FreshKey(s, p, MintedIn(p.slow).value) && p.mintOwed.None?)
    && PassPlace(s, p)
  }

  ghost predicate RestShape(s: State) {
    && !s.disk.trail.UnusableTrail?
    && Trail(Listed(s.disk.trail), s.cfg.me)
    && (forall k :: HasKey(Listed(s.disk.trail), k) ==> k in s.used)
  }

  ghost predicate Shape(s: State) {
    && s.cfg.digest != ""
    && FloorRecord(s.cfg, s.disk.record)
    && RestShape(s)
    && (s.proc.Some? ==> ShapeOf(s, s.proc.value))
  }

  // ---------------------------------------------------------------- starting from trusted files

  /** With files the floor wrote, a start finds everything provable. */
  lemma BootPlain(s: State, healOk: bool, markOk: bool)
    requires Shape(s)
    ensures var rs := Listed(s.disk.trail);
            var c := Conclude(s.cfg, s.disk);
            var (disk, p) := Boot(s.cfg, s.disk, healOk, markOk);
            && c.overridden == (rs != [] && !Absorbing(s.disk.record) && !Covers(s.disk.record, rs[|rs| - 1].at))
            && !c.grantsUnprovable
            && disk.trail == s.disk.trail
            && disk.record == (if c.overridden && healOk
                               then SaveRecord(DecisionOf(rs[|rs| - 1]), s.cfg.digest, Some(rs[|rs| - 1].at), true)
                               else s.disk.record)
            && p.recordOwed == (if c.overridden && !healOk
                                then Some(Owed(DecisionOf(rs[|rs| - 1]), rs[|rs| - 1].at)) else None)
            && p.box == LoadBox(s.disk.trail, s.cfg.me).(owed := p.box.owed)
            && p.mintOwed == None && p.slow == Idle && p.pass == Resting && p.tickets == [] && p.accepted == [] && p.answered == {}
            && p.live == p.started == Resolve(s.cfg, s.disk)
            && p.lastStamp == MaxStamp(RecordAt(s.disk.record), if rs == [] then None else Some(rs[|rs| - 1].at))
            && Resolve(s.cfg, s.disk) ==
                 (if c.overridden then LiveOf(DecisionOf(rs[|rs| - 1]))
                  else if s.disk.record.NoFile? then Unknown
                  else LiveOf(s.disk.record.wire.analytics.decision))
  {
    var rs := Listed(s.disk.trail);
    LatestIsLast(rs, s.cfg.me);
    MaxAtIsLast(rs, s.cfg.me);
    var l := Load(s.disk.record, s.cfg.digest);
    if s.disk.record.File? {
      SaveThenLoad(s.disk.record.wire.analytics.decision, s.cfg.digest, s.disk.record.wire.decidedAt.value, true);
    }
  }

  lemma ShapeStart(s: State, healOk: bool, markOk: bool)
    requires Shape(s) && s.proc.None?
    ensures Shape(NextRaw(s, Start(healOk, markOk)))
  {
    var rs := Listed(s.disk.trail);
    BootPlain(s, healOk, markOk);
    var (disk, p) := Boot(s.cfg, s.disk, healOk, markOk);
    LoadLinked(s.disk.trail, s.cfg.me, s.used, p.box.owed);
    forall e | e in rs ensures e.at <= rs[|rs| - 1].at { TrailTells(rs, s.cfg.me, e, e); }
    hide Boot, Conclude, Resolve, Linked, Trail, LoadBox;
    assert p.box.receipts == rs by { LoadBoxLists(s.disk.trail, s.cfg.me); }
    assert ShapeOf(s.(disk := disk), p);
  }

  lemma LoadBoxLists(file: TrailFile, me: Identity)
    ensures LoadBox(file, me).receipts == Listed(file)
  {
  }

  // ---------------------------------------------------------------- every step keeps the shape

  lemma ShapeTurn(s: State, p: Proc, clock: int, purgeOk: bool)
    requires ShapeOf(s, p)
    ensures ShapeOf(s, BeginTurn(p, clock, purgeOk))
  {
    hide Linked;
    var at := StampAfter(p.lastStamp, clock);
    assert Ahead(p.box.receipts, at);
  }

  lemma ShapeMint(s: State, key: string, r: Receipt, slow: Slow)
    requires Shape(s) && s.proc.Some? && s.proc.value.slow != slow
    requires key !in s.used && key != "" && r.key == key && InScope(r, s.cfg.me)
    requires MintedIn(slow) == Some(r) && PendingAt(slow) == Some(r.at)
    requires PendingAt(s.proc.value.slow) == Some(r.at) ||
             (s.proc.value.mintOwed.Some? && s.proc.value.mintOwed.value.at == r.at)
    ensures Shape(s.(used := s.used + {key}, proc := Some(s.proc.value.(mintOwed := None, slow := slow))))
  {
    hide Linked;
    var p := s.proc.value;
    LinkedFresh(p.box, s.disk.trail, s.cfg.me, s.used, key);
    assert StampOf(slow) == Some(r.at);
    assert ShapeOf(s.(used := s.used + {key}), p.(mintOwed := None, slow := slow));
  }

  lemma ShapeMintStep(s: State, key: Option<string>, bytes: nat)
    requires Shape(s) && s.proc.Some?
    ensures Shape(NextRaw(s, Mint(key, bytes)))
  {
    hide Linked;
    var p := s.proc.value;
    if key.Some? && key.value != "" && key.value !in s.used {
      if p.slow.GrantStamped? {
        var r := MintReceipt(s.cfg, key.value, Grant, p.slow.at, bytes);
        ShapeMint(s, key.value, r, GrantMinted(r));
      } else if p.slow.DenySettled? {
        var r := MintReceipt(s.cfg, key.value, p.slow.d, p.slow.at, bytes);
        ShapeMint(s, key.value, r, DenyMinted(r, p.slow.written));
      }
    }
  }

  lemma ShapeTakeMint(s: State, key: Option<string>, bytes: nat)
    requires Shape(s) && s.proc.Some?
    ensures Shape(NextRaw(s, TakeOwedMint(key, bytes)))
  {
    hide Linked;
    var p := s.proc.value;
    if p.slow == Idle && p.mintOwed.Some? && key.Some? && key.value != "" && key.value !in s.used {
      var r := MintReceipt(s.cfg, key.value, p.mintOwed.value.decision, p.mintOwed.value.at, bytes);
      ShapeMint(s, key.value, r, RetryMinted(r));
    }
  }

  /** Slot, marks and the lock holder's place change; box contents, stamps in the trail and the pass do not. */
  lemma ShapeSlot(s: State, p: Proc, owed: set<string>, slot: Option<Owed>, slow: Slow)
    requires ShapeOf(s, p)
    requires MintedIn(slow).None? && (StampOf(slow).Some? ==> StampOf(slow) == StampOf(p.slow))
    requires PendingAt(slow).Some? ==> PendingAt(slow) == PendingAt(p.slow)
    requires WindowOf(slow).Some? ==> WindowOf(slow) == WindowOf(p.slow)
    requires slot.Some? ==> Some(slot.value.at) == StampOf(p.slow) || slot == p.recordOwed
    ensures ShapeOf(s, p.(box := p.box.(owed := owed), recordOwed := slot, slow := slow))
  {
    LinkedMarks(p.box, s.disk.trail, s.cfg.me, s.used, owed);
    hide Linked, Ahead, Newest, Known, Gone;
  }

  lemma ShapeSlotStep(s: State, p: Proc)
    requires ShapeOf(s, p)
    ensures ShapeOf(s, SlotStep(p))
  {
    hide ShapeOf;
    match p.slow
    case GrantUnminted(at) => ShapeSlot(s, p, p.box.owed, Some(Owed(Grant, at)), Served);
    case GrantAppended(r, stored) => if !stored { ShapeSlot(s, p, p.box.owed, Some(Owed(Grant, r.at)), GrantSettled(r)); }
    case GrantRecorded(r, written) =>
      if written { ShapeSlot(s, p, {}, None, Served); }
      else { ShapeSlot(s, p, p.box.owed, Some(Owed(Grant, r.at)), GrantSettled(r)); }
    case DenyRecorded(d, at, written) =>
      if written { ShapeSlot(s, p, {}, None, DenySettled(d, at, true)); }
      else { ShapeSlot(s, p, p.box.owed, Some(Owed(d, at)), DenySettled(d, at, false)); }
    case RetryRecorded(o, written) =>
      if written { ShapeSlot(s, p, {}, None, Idle); }
      else { ShapeSlot(s, p, p.box.owed, Some(o), Idle); }
    case _ =>
  }

  lemma ShapeMarkStep(s: State, p: Proc)
    requires ShapeOf(s, p)
    ensures ShapeOf(s, MarkStep(p))
  {
    hide ShapeOf;
    var m := MarkStep(p);
    match p.slow
    case GrantSettled(r) => ShapeSlot(s, p, m.box.owed, p.recordOwed, Served);
    case DenyAppended(r, written) => ShapeSlot(s, p, m.box.owed, p.recordOwed, Served);
    case RetryAppended(r) => ShapeSlot(s, p, m.box.owed, p.recordOwed, Idle);
    case _ =>
  }

  lemma ShapeFinish(s: State, p: Proc, tickets: seq<Ticket>)
    requires ShapeOf(s, p) && p.slow == Served
    ensures ShapeOf(s, p.(tickets := tickets, slow := Idle))
  {
    hide Linked;
  }

  lemma ShapeRecord(s: State, d: Decision, at: int, ok: bool, slow: Slow)
    requires Shape(s) && s.proc.Some?
    requires MintedIn(slow).None? && StampOf(slow) == Some(at) && AtMost(at, s.proc.value.lastStamp)
    requires PendingAt(slow).Some? ==> PendingAt(slow) == PendingAt(s.proc.value.slow)
    requires WindowOf(slow).Some? ==> WindowOf(slow) == WindowOf(s.proc.value.slow)
    ensures Shape(WriteDecision(s, d, at, ok).(proc := Some(s.proc.value.(slow := slow))))
  {
    hide Linked;
  }

  lemma ShapeRecordStep(s: State, step: Step)
    requires Shape(s) && s.proc.Some? && (step.WriteRecord? || step.TakeOwedRecord?)
    ensures Shape(NextRaw(s, step))
  {
    hide Linked;
    var p, ok := s.proc.value, step.ok;
    if step.WriteRecord? {
      if p.slow.GrantAppended? && p.slow.stored {
        ShapeRecord(s, Grant, p.slow.r.at, ok, GrantRecorded(p.slow.r, ok));
      } else if p.slow.DenyStamped? {
        ShapeRecord(s, p.slow.d, p.slow.at, ok, DenyRecorded(p.slow.d, p.slow.at, ok));
      }
    } else if p.recordOwed.Some? {
      ShapeRecord(s, p.recordOwed.value.decision, p.recordOwed.value.at, ok, RetryRecorded(p.recordOwed.value, ok));
    }
  }

  lemma ShapePass(s: State, step: Step)
    requires Shape(s) && s.proc.Some? && (step.Pick? || step.Check? || step.Send? || step.Answer?)
    ensures Shape(NextRaw(s, step))
  {
    var p := s.proc.value;
    PassMayMove(s, step);
    var t := NextRaw(s, step);
    if p.box.receipts != [] { HeadPlace(s, p); }
    hide NextRaw, Linked, FloorRecord, RestShape, Known, Gone, Stamps;
    assert ShapeOf(s, p.(pass := t.proc.value.pass));
    assert Shape(t.(server := s.server)) by { ShapeVolatile(s, p.(pass := t.proc.value.pass)); }
  }

  /** The oldest receipt of the mirror is the only one with its key and its stamp. */
  lemma HeadPlace(s: State, p: Proc)
    requires ShapeOf(s, p) && p.box.receipts != []
    ensures var r, rs := p.box.receipts[0], p.box.receipts;
            && InScope(r, s.cfg.me) && r.key != "" && r.key in s.used && Known(rs, r) && Known(Listed(s.disk.trail), r) && r in rs
            && (MintedIn(p.slow).Some? ==> MintedIn(p.slow).value.key != r.key)
  {
    MirrorKnown(p.box, s.disk.trail, s.cfg.me, s.used, p.box.receipts[0]);
    assert HasKey(p.box.receipts, p.box.receipts[0].key);
    LinkedTrails(p.box, s.disk.trail, s.cfg.me, s.used);
    hide Linked, Trail, Agree, Known;
  }

  lemma MirrorKnown(box: Outbox, file: TrailFile, me: Identity, used: set<string>, r: Receipt)
    requires Linked(box, file, me, used) && r in box.receipts
    ensures Known(box.receipts, r) && Known(Listed(file), r) && InScope(r, me) && r.key != ""
  {
    var rs, listed := box.receipts, Listed(file);
    LinkedTrails(box, file, me, used);
    hide Linked;
    TrailTells(rs, me, r, r);
    forall e | e in rs && (e.key == r.key || e.at == r.at) ensures e == r { TrailTells(rs, me, e, r); }
    forall e | e in listed && (e.key == r.key || e.at == r.at) ensures e == r {
      if e.key != r.key {
        HasKeyIn(listed, r.key);
        var f :| f in listed && f.key == r.key;
        TrailTells(listed, me, e, f);
      }
    }
  }

  /** These steps move the pass and the server's log alone; what the pass takes up is the oldest receipt. */
  lemma PassMayMove(s: State, step: Step)
    requires Shape(s) && s.proc.Some? && (step.Pick? || step.Check? || step.Send? || step.Answer?)
    ensures var p, t := s.proc.value, NextRaw(s, step);
            && t.proc.Some? && t == s.(server := t.server, proc := Some(p.(pass := t.proc.value.pass)))
            && (PassReceipt(t.proc.value.pass).Some? ==>
                  || PassReceipt(t.proc.value.pass) == PassReceipt(p.pass)
                  || (p.box.receipts != [] && PassReceipt(t.proc.value.pass).value == p.box.receipts[0]))
  {
    var p := s.proc.value;
    ShapeParts(s);
    if step.Pick? {
      LinkedTrails(p.box, s.disk.trail, s.cfg.me, s.used);
      hide Shape, Linked, Agree, HasKey, Stamps, PassPlace, HoldsGrants;
      LatestIsLast(p.box.receipts, s.cfg.me);
      hide Trail, NextUp, Latest;
    } else {
      hide Shape, Held, PickStep;
      OthersMove(s, step);
      hide NextRaw;
    }
  }

  lemma OthersMove(s: State, step: Step)
    requires s.proc.Some? && (step.Check? || step.Send? || step.Answer?)
    ensures var p, t := s.proc.value, NextRaw(s, step);
            && t.proc.Some? && t == s.(server := t.server, proc := Some(p.(pass := t.proc.value.pass)))
            && (PassReceipt(t.proc.value.pass).Some? ==> PassReceipt(t.proc.value.pass) == PassReceipt(p.pass))
  {
    hide Held, HasKey;
  }

  // ---------------------------------------------------------------- the steps that save

  /** Lists that hold nothing new keep the stamps. */
  lemma StampsSaved(s: State, s': State, p: Proc, q: Proc)
    requires Stamps(s, p) && q == p.(box := q.box, pass := q.pass, answered := q.answered) && s'.disk.record == s.disk.record
    requires forall e :: e in q.box.receipts || e in Listed(s'.disk.trail) ==> e in p.box.receipts || e in Listed(s.disk.trail)
    ensures Stamps(s', q)
  {
  }

  /** Lists that hold one receipt more, the one just appended, keep them too. */
  lemma StampsAppended(s: State, s': State, p: Proc, q: Proc, r: Receipt)
    requires Stamps(s, p) && q == p.(box := q.box, slow := q.slow) && s'.disk.record == s.disk.record
    requires MintedIn(p.slow) == Some(r) && p.mintOwed.None?
    requires WindowOf(q.slow) == Some(r) && StampOf(q.slow) == Some(r.at) && PendingAt(q.slow).None?
    requires forall e :: e in q.box.receipts || e in Listed(s'.disk.trail) ==>
               e in p.box.receipts || e in Listed(s.disk.trail) || e == r
    ensures Stamps(s', q)
  {
    assert PendingAt(p.slow) == Some(r.at);
  }

  /** What a save leaves of a trail has the last two receipts the trail ended in, or newer ones. */
  lemma SiftedEnd(base: seq<Receipt>, listed: seq<Receipt>, out: seq<Receipt>, me: Identity, at: int)
    requires Trail(base, me) && Trail(out, me) && Sifted(base, listed, out)
    requires |base| >= 2 && at < base[|base| - 2].at
    ensures |out| >= 2 && at < out[|out| - 2].at
  {
    var a, b := base[|base| - 2], base[|base| - 1];
    assert a in base && b in base && a.at < b.at;
    if a in out && b in out {
      var i :| 0 <= i < |out| && out[i] == a;
      var j :| 0 <= j < |out| && out[j] == b;
      assert i < j;
    } else {
      assert CAP >= 2;
      if a !in out { assert at < a.at < out[0].at; }
      else {
        TrailTells(out, me, a, a);
      }
    }
  }

  /** A receipt that a save takes is older than all it leaves, of which there are many. */
  lemma SiftedGone(base: seq<Receipt>, listed: seq<Receipt>, out: seq<Receipt>, me: Identity, r: Receipt)
    requires Trail(out, me) && Sifted(base, listed, out) && r in base && r !in out
    ensures Gone(out, out, r)
  {
    assert |out| >= 2 && r.at < out[0].at;
  }

  /** The parts of the shape, put together. */
  lemma ShapeFrom(s: State, s': State, q: Proc)
    requires Shape(s) && s'.proc == Some(q) && s'.cfg == s.cfg && s'.used == s.used && s'.disk.record == s.disk.record
    requires !s'.disk.trail.UnusableTrail? && Trail(Listed(s'.disk.trail), s.cfg.me)
    requires forall k :: HasKey(Listed(s'.disk.trail), k) ==> k in s.used
    requires Linked(q.box, s'.disk.trail, s.cfg.me, s.used) && Stamps(s', q) && PassPlace(s', q)
    requires MintedIn(q.slow).Some? ==> FreshKey(s', q, MintedIn(q.slow).value) && q.mintOwed.None?
    ensures Shape(s')
  {
    hide Linked, Stamps, PassPlace, Trail, HasKey, FloorRecord;
  }

  lemma ShapeParts(s: State)
    requires Shape(s) && s.proc.Some?
    ensures var p := s.proc.value;
            && Linked(p.box, s.disk.trail, s.cfg.me, s.used) && Stamps(s, p) && PassPlace(s, p)
            && Trail(p.box.receipts, s.cfg.me)
            && (MintedIn(p.slow).Some? ==> FreshKey(s, p, MintedIn(p.slow).value) && p.mintOwed.None?)
  {
    LinkedTrails(s.proc.value.box, s.disk.trail, s.cfg.me, s.used);
    hide Linked, Stamps, PassPlace, Trail, HasKey;
  }

  lemma OutcomeLinked(base: Outbox, file: TrailFile, saved: Saved, me: Identity, used: set<string>)
    requires SaveOutcome(base, file, saved, me, used)
    ensures Linked(saved.box, saved.file, me, used)
  {
    hide Linked, Sifted, MarksCut;
  }

  /** The pass keeps its place through a save. */
  lemma PassThrough(listed: seq<Receipt>, base: seq<Receipt>, out: seq<Receipt>, listed': seq<Receipt>, me: Identity, r: Receipt)
    requires Trail(base, me) && Trail(out, me) && Sifted(base, listed, out)
    requires (listed' == listed && out == base) || listed' == out
    requires Known(base, r) && Known(listed, r) && (r in base || Gone(base, listed, r))
    ensures Known(out, r) && Known(listed', r) && (r in out || Gone(out, listed', r))
  {
    if r in base {
      if r !in out && out != base { SiftedGone(base, listed, out, me, r); }
    } else {
      SiftedEnd(base, listed, out, me, r.at);
      assert out[|out| - 2].at < out[|out| - 1].at;
    }
  }

  /** A receipt newer than all, with a key of its own, changes nothing for the pass. */
  lemma PassBehind(rs: seq<Receipt>, listed: seq<Receipt>, me: Identity, a: Receipt, r: Receipt)
    requires Trail(rs, me) && Known(rs, r) && (r in rs || Gone(rs, listed, r)) && a.key != r.key && Ahead(rs, a.at)
    ensures Known(rs + [a], r) && (r in rs + [a] || Gone(rs + [a], listed, r))
  {
    if r !in rs {
      assert rs[|rs| - 2] in rs && rs[|rs| - 1] in rs;
      assert (rs + [a])[|rs| - 1] == rs[|rs| - 1];
    }
  }

  /** What a save of the mirror, or of the mirror and one receipt more, does to files, stamps and pass. */
  lemma SavedLists(s: State, base: Outbox, saved: Saved)
    requires SaveOutcome(base, s.disk.trail, saved, s.cfg.me, s.used)
    ensures Trail(saved.box.receipts, s.cfg.me) && Trail(Listed(saved.file), s.cfg.me) && !saved.file.UnusableTrail?
    ensures Sifted(base.receipts, Listed(s.disk.trail), saved.box.receipts)
    ensures (Listed(saved.file) == Listed(s.disk.trail) && saved.box.receipts == base.receipts)
            || Listed(saved.file) == saved.box.receipts
    ensures forall e :: e in saved.box.receipts || e in Listed(saved.file) ==> e in base.receipts || e in Listed(s.disk.trail)
    ensures forall k :: HasKey(Listed(saved.file), k) ==> k in s.used
  {
    LinkedTrails(saved.box, saved.file, s.cfg.me, s.used);
    hide Linked, Trail, Agree, HasKey, MarksCut;
  }

  /** The lock holder's place after an append. */
  predicate Appended(slow: Slow, after: Slow) {
    match slow
    case GrantMinted(r) => after.GrantAppended? && after.r == r
    case DenyMinted(r, written) => after == DenyAppended(r, written)
    case RetryMinted(r) => after == RetryAppended(r)
    case _ => false
  }

  lemma AppendTouches(s: State, ok: bool)
    requires s.proc.Some?
    ensures var p, s' := s.proc.value, NextRaw(s, AppendReceipt(ok));
            if MintedIn(p.slow).Some?
            then var saved := Append(p.box, s.disk.trail, MintedIn(p.slow).value, ok);
                 && s'.proc.Some? && Appended(p.slow, s'.proc.value.slow)
                 && s' == s.(disk := s.disk.(trail := saved.file), proc := Some(p.(box := saved.box, slow := s'.proc.value.slow)))
                 && (s'.proc.value.slow.GrantAppended? && s'.proc.value.slow.stored ==> !FailedDurably(saved.error))
            else s' == s
  {
    hide Append;
  }

  lemma PruneTouches(s: State, ok: bool)
    requires s.proc.Some?
    ensures var p, s' := s.proc.value, NextRaw(s, PruneReceipt(ok));
            if p.pass.Settling?
            then var saved := Prune(p.box, s.disk.trail, p.pass.r.key, ok);
                 s' == s.(disk := s.disk.(trail := saved.file),
                          proc := Some(p.(box := saved.box, pass := Resting, answered := p.answered + {p.pass.r.key})))
            else s' == s
  {
    hide Prune;
  }

  lemma PersistTouches(s: State, ok: bool)
    requires s.proc.Some?
    ensures var p, s' := s.proc.value, NextRaw(s, PersistAgain(ok));
            var saved := RetryPersist(p.box, s.disk.trail, ok);
            s' == s.(disk := s.disk.(trail := saved.file), proc := Some(p.(box := saved.box)))
  {
    hide RetryPersist;
  }

  /** The mirror of an append before its save. */
  function Longer(p: Proc): Outbox
    requires MintedIn(p.slow).Some?
  {
    var r := MintedIn(p.slow).value;
    p.box.(own := p.box.own + {r.key}, receipts := p.box.receipts + [r])
  }

  lemma AppendSaves(s: State, ok: bool)
    requires Shape(s) && s.proc.Some? && MintedIn(s.proc.value.slow).Some?
    ensures var p := s.proc.value;
            && SaveOutcome(Longer(p), s.disk.trail, Append(p.box, s.disk.trail, MintedIn(p.slow).value, ok), s.cfg.me, s.used)
            && Trail(Longer(p).receipts, s.cfg.me)
            && Ahead(p.box.receipts, MintedIn(p.slow).value.at) && Ahead(Listed(s.disk.trail), MintedIn(p.slow).value.at)
  {
    var p := s.proc.value;
    var r := MintedIn(p.slow).value;
    LinkedTrails(p.box, s.disk.trail, s.cfg.me, s.used);
    assert PendingAt(p.slow) == Some(r.at);
    hide Linked, Trail, HasKey, SaveOutcome, Append, PassPlace;
    AppendLinked(p.box, s.disk.trail, s.cfg.me, s.used, r, ok);
    LongerTrail(p.box.receipts, s.cfg.me, r);
  }

  lemma ShapeAppend(s: State, ok: bool)
    requires Shape(s) && s.proc.Some?
    ensures Shape(NextRaw(s, AppendReceipt(ok)))
  {
    AppendTouches(s, ok);
    if MintedIn(s.proc.value.slow).Some? {
      AppendSaves(s, ok);
      ShapeAppended(s, NextRaw(s, AppendReceipt(ok)), Append(s.proc.value.box, s.disk.trail, MintedIn(s.proc.value.slow).value, ok));
    }
    hide Shape, NextRaw, Append, SaveOutcome;
  }

  lemma ShapeAppended(s: State, s': State, saved: Saved)
    requires Shape(s) && s.proc.Some? && MintedIn(s.proc.value.slow).Some? && s'.proc.Some?
    requires var p := s.proc.value;
             && Appended(p.slow, s'.proc.value.slow)
             && s' == s.(disk := s.disk.(trail := saved.file), proc := Some(p.(box := saved.box, slow := s'.proc.value.slow)))
             && SaveOutcome(Longer(p), s.disk.trail, saved, s.cfg.me, s.used)
             && Trail(Longer(p).receipts, s.cfg.me)
             && Ahead(p.box.receipts, MintedIn(p.slow).value.at) && Ahead(Listed(s.disk.trail), MintedIn(p.slow).value.at)
    ensures Shape(s')
  {
    var p, q := s.proc.value, s'.proc.value;
    var r := MintedIn(p.slow).value;
    ShapeParts(s);
    AppendedKinds(p.slow, q.slow);
    hide Shape, ShapeOf, SaveOutcome, Linked, Sifted, Trail, Appended, StampOf, PendingAt, WindowOf, MintedIn, PassPlace, HasKey, Stamps,
         Ahead, FreshKey, FloorRecord, RestShape;
    SavedLists(s, Longer(p), saved);
    OutcomeLinked(Longer(p), s.disk.trail, saved, s.cfg.me, s.used);
    AppendedPass(s, s', saved);
    StampsAppended(s, s', p, q, r);
    ShapeFrom(s, s', q);
  }

  lemma AppendedKinds(slow: Slow, after: Slow)
    requires MintedIn(slow).Some? && Appended(slow, after)
    ensures var r := MintedIn(slow).value;
            WindowOf(after) == Some(r) && StampOf(after) == Some(r.at) && PendingAt(after).None? && MintedIn(after).None?
  {
  }

  lemma AppendedPass(s: State, s': State, saved: Saved)
    requires Shape(s) && s.proc.Some? && MintedIn(s.proc.value.slow).Some? && s'.proc.Some?
    requires var p := s.proc.value;
             && Appended(p.slow, s'.proc.value.slow)
             && s' == s.(disk := s.disk.(trail := saved.file), proc := Some(p.(box := saved.box, slow := s'.proc.value.slow)))
             && SaveOutcome(Longer(p), s.disk.trail, saved, s.cfg.me, s.used)
             && Trail(Longer(p).receipts, s.cfg.me)
             && Ahead(p.box.receipts, MintedIn(p.slow).value.at) && Ahead(Listed(s.disk.trail), MintedIn(p.slow).value.at)
    ensures PassPlace(s', s'.proc.value)
  {
    var p, q, listed := s.proc.value, s'.proc.value, Listed(s.disk.trail);
    var r := MintedIn(p.slow).value;
    ShapeParts(s);
    if PassReceipt(p.pass).Some? {
      var x := PassReceipt(p.pass).value;
      AppendedKinds(p.slow, q.slow);
      hide Shape, ShapeOf, Linked, SaveOutcome, Sifted, Trail, Known, Gone, HasKey, Stamps, Ahead, Appended, MintedIn;
      SavedLists(s, Longer(p), saved);
      PassBehind(p.box.receipts, listed, s.cfg.me, r, x);
      PassThrough(listed, Longer(p).receipts, q.box.receipts, Listed(s'.disk.trail), s.cfg.me, x);
    }
  }

  lemma ShapePersist(s: State, ok: bool)
    requires Shape(s) && s.proc.Some?
    ensures Shape(NextRaw(s, PersistAgain(ok)))
  {
    var p, listed := s.proc.value, Listed(s.disk.trail);
    PersistTouches(s, ok);
    ShapeParts(s);
    var saved := RetryPersist(p.box, s.disk.trail, ok);
    var s' := NextRaw(s, PersistAgain(ok));
    var q := s'.proc.value;
    hide Shape, ShapeOf, NextRaw, RetryPersist, Linked, SaveOutcome, Sifted, Trail, Known, Gone, StampOf, PendingAt, WindowOf, Stamps, HasKey;
    RetryLinked(p.box, s.disk.trail, s.cfg.me, s.used, ok);
    SavedLists(s, p.box, saved);
    OutcomeLinked(p.box, s.disk.trail, saved, s.cfg.me, s.used);
    if MintedIn(p.slow).Some? { SavedFresh(s, p.box, saved, MintedIn(p.slow).value); }
    StampsSaved(s, s', p, q);
    if PassReceipt(p.pass).Some? {
      PassThrough(listed, p.box.receipts, q.box.receipts, Listed(s'.disk.trail), s.cfg.me, PassReceipt(p.pass).value);
    }
    ShapeFrom(s, s', q);
  }

  /** A key that is nowhere stays nowhere through a save. */
  lemma SavedFresh(s: State, base: Outbox, saved: Saved, r: Receipt)
    requires SaveOutcome(base, s.disk.trail, saved, s.cfg.me, s.used)
    requires r.key !in base.settled && !HasKey(base.receipts, r.key) && !HasKey(Listed(s.disk.trail), r.key)
    ensures r.key !in saved.box.settled && !HasKey(saved.box.receipts, r.key) && !HasKey(Listed(saved.file), r.key)
  {
    SavedLists(s, base, saved);
    HasKeyIn(base.receipts, r.key);
    HasKeyIn(Listed(s.disk.trail), r.key);
    HasKeyIn(saved.box.receipts, r.key);
    HasKeyIn(Listed(saved.file), r.key);
    hide Linked, HasKey, Trail, Sifted, MarksCut;
  }

  lemma ShapePrune(s: State, ok: bool)
    requires Shape(s) && s.proc.Some?
    ensures Shape(NextRaw(s, PruneReceipt(ok)))
  {
    var p := s.proc.value;
    PruneTouches(s, ok);
    if p.pass.Settling? {
      var s' := NextRaw(s, PruneReceipt(ok));
      var key := p.pass.r.key;
      if HasKey(p.box.receipts, key) { ShapePruned(s, s', key, ok); }
      else {
        hide NextRaw;
        var q := p.(pass := Resting, answered := p.answered + {key});
        assert s' == s.(proc := Some(q));
        assert ShapeOf(s, q) by { ShapeRests(s, p, q); }
        ShapeVolatile(s, q);
      }
    }
  }

  lemma ShapeRests(s: State, p: Proc, q: Proc)
    requires ShapeOf(s, p) && q == p.(pass := Resting, answered := q.answered)
    ensures ShapeOf(s, q)
  {
    hide Linked;
  }

  lemma ShapePruned(s: State, s': State, key: string, ok: bool)
    requires Shape(s) && s.proc.Some? && HasKey(s.proc.value.box.receipts, key)
    requires s.proc.value.pass.Settling? && key == s.proc.value.pass.r.key
    requires var p := s.proc.value;
             var saved := Prune(p.box, s.disk.trail, key, ok);
             s' == s.(disk := s.disk.(trail := saved.file),
                      proc := Some(p.(box := saved.box, pass := Resting, answered := p.answered + {p.pass.r.key})))
    ensures Shape(s')
  {
    var p := s.proc.value;
    var base := Unlisted(p.box, key);
    var saved, q := Prune(p.box, s.disk.trail, key, ok), s'.proc.value;
    ShapeParts(s);
    UnlistedLists(p.box, key);
    hide Shape, ShapeOf, Prune, Unlisted, Without, Linked, SaveOutcome, Sifted, Trail, StampOf, PendingAt, WindowOf, HasKey, Stamps;
    PruneLinked(p.box, s.disk.trail, s.cfg.me, s.used, key, ok);
    WithoutIs(p.box.receipts, s.cfg.me, key);
    if MintedIn(p.slow).Some? { PrunedFresh(p, base, key, MintedIn(p.slow).value); SavedFresh(s, base, saved, MintedIn(p.slow).value); }
    SavedLists(s, base, saved);
    OutcomeLinked(base, s.disk.trail, saved, s.cfg.me, s.used);
    StampsSaved(s, s', p, q);
    ShapeFrom(s, s', q);
  }

  lemma UnlistedLists(box: Outbox, key: string)
    ensures Unlisted(box, key).receipts == Without(box.receipts, key)
  {
  }

  lemma PrunedFresh(p: Proc, base: Outbox, key: string, r: Receipt)
    requires base == Unlisted(p.box, key) && HasKey(p.box.receipts, key)
    requires forall e :: e in base.receipts <==> e in p.box.receipts && e.key != key
    requires r.key !in p.box.settled && !HasKey(p.box.receipts, r.key)
    ensures r.key !in base.settled && !HasKey(base.receipts, r.key)
  {
    UnlistedUsed(p.box.receipts, base.receipts, key);
    OneSettled(p.box.settled, key);
    hide Without, Settle;
  }

  /** Every step keeps the shape, whatever fails. */
  lemma ShapeStep(s: State, step: Step)
    requires Shape(s)
    ensures Shape(Next(s, step))
  {
    hide NextRaw, Linked, Trail;
    ShapeRaw(s, step);
  }

  /** A step that leaves the files alone. */
  lemma ShapeVolatile(s: State, p: Proc)
    requires Shape(s) && ShapeOf(s, p)
    ensures Shape(s.(proc := Some(p)))
  {
    hide Linked, Trail;
  }

  lemma ShapeCrash(s: State)
    requires Shape(s)
    ensures Shape(s.(proc := None))
  {
    hide Linked, Trail;
  }

  lemma ShapeFast(s: State, p: Proc, d: Decision)
    requires ShapeOf(s, p)
    ensures ShapeOf(s, FastHalf(p, d))
  {
    hide Linked;
  }

  lemma ShapeRaw(s: State, step: Step)
    requires Shape(s)
    ensures Shape(NextRaw(s, step))
  {
    hide Boot, BeginTurn, FastHalf, SlotStep, MarkStep, MintStep, AppendStep, RecordStep, TakeMintStep, TakeRecordStep,
         RetryPersist, PickStep, CheckStep, SendStep, AnswerStep, Prune, Linked, Trail, ShapeOf, RestShape, FloorRecord;
    if s.proc.None? {
      if step.Start? { ShapeStart(s, step.healOk, step.markOk); }
    } else {
      var p := s.proc.value;
      match step
      case Start(_, _) =>
      case Crash => ShapeCrash(s);
      case Decide(d) => ShapeFast(s, p, d); ShapeVolatile(s, FastHalf(p, d));
      case Begin(clock, purgeOk) => ShapeTurn(s, p, clock, purgeOk); ShapeVolatile(s, BeginTurn(p, clock, purgeOk));
      case Mint(key, bytes) => ShapeMintStep(s, key, bytes);
      case AppendReceipt(ok) => ShapeAppend(s, ok);
      case WriteRecord(_) => ShapeRecordStep(s, step);
      case SettleSlot => ShapeSlotStep(s, p); ShapeVolatile(s, SlotStep(p));
      case MarkOwed => ShapeMarkStep(s, p); ShapeVolatile(s, MarkStep(p));
      case Finish =>
        if p.slow == Served && p.tickets != [] {
          ShapeFinish(s, p, p.tickets[1..]);
          ShapeVolatile(s, p.(tickets := p.tickets[1..], slow := Idle));
        }
      case TakeOwedMint(key, bytes) => ShapeTakeMint(s, key, bytes);
      case TakeOwedRecord(_) => ShapeRecordStep(s, step);
      case PersistAgain(ok) => ShapePersist(s, ok);
      case Pick => ShapePass(s, step);
      case Check => ShapePass(s, step);
      case Send(_) => ShapePass(s, step);
      case Answer(_) => ShapePass(s, step);
      case PruneReceipt(ok) => ShapePrune(s, ok);
    }
  }
}
