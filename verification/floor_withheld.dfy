/**
 A grant withheld because its trail cannot be read: when a start withholds it, what its mark
 seals, and what the steps that write no fresh decision keep, over files of any scope and shape.
 */
module FloorWithheld {
  import opened Basics
  import opened DecisionRecord
  import opened ConsentReceipts
  import opened ConsentOutbox
  import opened ConsentOutboxLaws
  import opened ConsentFloor
  import opened FloorShape

  predicate Capped(rs: seq<Receipt>, cap: Option<int>) {
    cap.Some? ==> forall i :: 0 <= i < |rs| ==> rs[i].at <= cap.value
  }

  /** The mark as its writer leaves it: no newer than the stamp written beside it. */
  predicate MarkFormed(info: RecordInfo) {
    info.unwitnessed && info.decidedAt.Some? ==>
      info.unwitnessedAt.Some? && info.unwitnessedAt.value <= info.decidedAt.value
  }

  /** The grant is on record with a mark no receipt supersedes, and none overrides the record. */
  predicate Sealed(info: RecordInfo, rs: seq<Receipt>) {
    info.state == Granted && info.unwitnessed && Capped(rs, info.unwitnessedAt) && MarkFormed(info)
  }

  /** The grant is on record beside a trail that cannot be read and does not end in a newer denial. */
  predicate Refused(cfg: Config, info: RecordInfo, trail: TrailFile) {
    && info.state == Granted && trail.UnusableTrail? && MarkFormed(info)
    && (info.floor ==> info.decidedAt.Some?)
    && var tail := Latest(Listed(trail), cfg.me);
       tail.Some? && !tail.value.granted ==> !Supersedes(Some(tail.value.at), info.decidedAt)
  }

  predicate WithheldOnDisk(cfg: Config, disk: Disk) {
    var l := Load(disk.record, cfg.digest);
    l.ok && (Sealed(l.info, Listed(disk.trail)) || Refused(cfg, l.info, disk.trail))
  }

  /** A process that withholds: granted only by a decision of its own, it holds every receipt of a grant, and keeps the unreadable trail while the mark is missing. */
  predicate Withholding(s: State, p: Proc) {
    var info := Load(s.disk.record, s.cfg.digest).info;
    && (p.live == Granted ==> Grant in p.accepted)
    && p.box.durable && p.box.grantsUnprovable
    && ((Sealed(info, Listed(s.disk.trail)) && Capped(p.box.receipts, info.unwitnessedAt)) ||
        (s.disk.trail.UnusableTrail? && p.box.preserveUnusable))
    && (PassReceipt(p.pass).Some? ==> !PassReceipt(p.pass).value.granted)
  }

  predicate Withheld(s: State) {
    && s.cfg.digest != ""
    && WithheldOnDisk(s.cfg, s.disk)
    && (s.proc.Some? ==> Withholding(s, s.proc.value))
  }

  lemma {:induction false} LatestIn(rs: seq<Receipt>, me: Identity)
    ensures Latest(rs, me).Some? ==> Latest(rs, me).value in rs
  {
    if rs != [] && !InScope(rs[|rs| - 1], me) {
      LatestIn(rs[..|rs| - 1], me);
    }
  }

  lemma {:induction false} MaxAtBounds(rs: seq<Receipt>)
    ensures rs != [] ==> MaxAt(rs).Some?
    ensures MaxAt(rs).Some? ==> forall i :: 0 <= i < |rs| ==> rs[i].at <= MaxAt(rs).value
  {
    if rs != [] {
      MaxAtBounds(rs[..|rs| - 1]);
    }
  }

  lemma {:induction false} NextUpDenies(rs: seq<Receipt>, me: Identity)
    ensures NextUp(rs, true, me).Some? ==> !NextUp(rs, true, me).value.granted
  {
    if rs != [] { NextUpDenies(rs[1..], me); }
  }

  /** A start concludes the recorded grant, and that it is unprovable. */
  lemma WithheldConcludes(cfg: Config, disk: Disk)
    requires cfg.digest != "" && WithheldOnDisk(cfg, disk)
    ensures var c := Conclude(cfg, disk);
            !c.overridden && c.known && c.grantsUnprovable && c.info == Load(disk.record, cfg.digest).info
    ensures Resolve(cfg, disk) == Unknown
  {
    var rs := Listed(disk.trail);
    LatestIn(rs, cfg.me);
    hide Latest, MaxAt, Load;
  }

  /** A recorded grant beside an unreadable trail is withheld exactly when no newer denial at the trail's end overrides it. */
  lemma RefusedExactly(cfg: Config, disk: Disk)
    requires Load(disk.record, cfg.digest).ok && Load(disk.record, cfg.digest).info.state == Granted
    requires disk.trail.UnusableTrail? && MarkFormed(Load(disk.record, cfg.digest).info)
    ensures Refused(cfg, Load(disk.record, cfg.digest).info, disk.trail) <==> !Conclude(cfg, disk).overridden
  {
    FloorStamped(disk.record, cfg.digest);
    LatestIn(Listed(disk.trail), cfg.me);
    hide Latest, MaxAt;
  }

  /** What the mark leaves: the grant, sealed against everything the trail holds. */
  lemma MarkSeals(cfg: Config, disk: Disk)
    requires cfg.digest != "" && WithheldOnDisk(cfg, disk)
    ensures var c := Conclude(cfg, disk);
            var file := MarkRecord(c.info, cfg.digest, c.markAt);
            MarkSupersededBy(c.info, c.markAt) ==>
              file.Some? && Load(file.value, cfg.digest).ok && Sealed(Load(file.value, cfg.digest).info, Listed(disk.trail))
  {
    var rs := Listed(disk.trail);
    WithheldConcludes(cfg, disk);
    MaxAtBounds(rs);
    var c := Conclude(cfg, disk);
    FloorStamped(disk.record, cfg.digest);
    hide Latest, Conclude, Resolve;
    assert c.markAt == if MaxAt(rs).Some? then MaxAt(rs) else c.info.decidedAt by { MarkIsMax(cfg, disk); }
  }

  lemma MarkIsMax(cfg: Config, disk: Disk)
    ensures Conclude(cfg, disk).markAt ==
              if MaxAt(Listed(disk.trail)).Some? then MaxAt(Listed(disk.trail)) else Conclude(cfg, disk).info.decidedAt
  {
    hide Latest, Load, MaxAt;
  }

  lemma FloorStamped(record: RecordFile, digest: string)
    requires Load(record, digest).ok && Load(record, digest).info.state == Granted
    ensures Load(record, digest).info.floor ==> Load(record, digest).info.decidedAt.Some?
  {
  }

  /** Every grant a decision or a start leaves on record has a well-formed mark or none. */
  lemma WritersFormMarks(cfg: Config, disk: Disk, at: Option<int>, floor: bool)
    requires cfg.digest != ""
    ensures MarkFormed(Load(SaveRecord(Grant, cfg.digest, at, floor), cfg.digest).info)
    ensures var c := Conclude(cfg, disk);
            c.info.state == Granted ==> MarkFormed(Load(MarkRecord(c.info, cfg.digest, c.markAt).value, cfg.digest).info)
  {
    MarkIsMax(cfg, disk);
    hide Conclude, MaxAt;
  }

  /** Without a need to mark, the mark on record already seals the grant. */
  lemma UnmarkedSeals(cfg: Config, disk: Disk)
    requires cfg.digest != "" && WithheldOnDisk(cfg, disk)
    ensures var c := Conclude(cfg, disk);
            !MarkSupersededBy(c.info, c.markAt) ==> Sealed(Load(disk.record, cfg.digest).info, Listed(disk.trail))
  {
    WithheldConcludes(cfg, disk);
    MaxAtBounds(Listed(disk.trail));
    MarkIsMax(cfg, disk);
    hide Conclude, Load, MaxAt, Latest;
  }

  lemma WithheldStart(s: State, healOk: bool, markOk: bool)
    requires Withheld(s) && s.proc.None?
    ensures Withheld(Next(s, Start(healOk, markOk)))
  {
    WithheldConcludes(s.cfg, s.disk);
    MarkSeals(s.cfg, s.disk);
    UnmarkedSeals(s.cfg, s.disk);
    hide Sealed, Conclude, Resolve, Latest, MaxAt, Load, MarkRecord;
  }

  /** A save without a fresh decision lists nothing new, and keeps an unreadable file it must preserve. */
  lemma SaveKeepsWithin(box: Outbox, file: TrailFile, ok: bool)
    requires box.durable
    ensures var s := Save(box, file, false, ok);
            && s.box.durable && s.box.grantsUnprovable == box.grantsUnprovable
            && s.box.preserveUnusable == box.preserveUnusable
            && (box.preserveUnusable && file.UnusableTrail? ==> s.file == file && s.box.receipts == box.receipts)
            && (forall e :: e in s.box.receipts ==> e in box.receipts || e in Listed(file))
            && (forall e :: e in Listed(s.file) ==> e in box.receipts || e in Listed(file))
  {
    var disk := MergeDisk(Listed(file), box.settled);
    MergeDiskFacts(Listed(file), box.settled);
    MergeOwnFacts(disk, box.receipts, box.own);
    hide MergeDisk, MergeOwn, Shed, SettleAll, FileBytes;
    var merged := Merged(box, file, false);
    assert merged == MergeOwn(disk, box.receipts, box.own);
    forall n: nat, e | n <= |merged| && e in merged[n..] ensures e in merged {}
  }

  lemma {:induction false} WithoutIn(rs: seq<Receipt>, key: string)
    ensures forall e :: e in Without(rs, key) ==> e in rs
  {
    if rs != [] { WithoutIn(rs[1..], key); }
  }

  lemma CappedWithin(rs: seq<Receipt>, rs': seq<Receipt>, into: seq<Receipt>, cap: Option<int>)
    requires Capped(rs, cap) && Capped(rs', cap)
    requires forall e :: e in into ==> e in rs || e in rs'
    ensures Capped(into, cap)
  {
    if cap.Some? {
      forall i | 0 <= i < |into| ensures into[i].at <= cap.value { assert into[i] in into; }
    }
  }

  /** Rewriting the trail without a fresh decision releases nothing. */
  lemma WithheldSave(s: State, box: Outbox, ok: bool, pass: Pass)
    requires Withheld(s) && s.proc.Some?
    requires box == s.proc.value.box.(receipts := box.receipts, settled := box.settled, own := box.own, owed := box.owed)
    requires forall e :: e in box.receipts ==> e in s.proc.value.box.receipts
    requires PassReceipt(pass).Some? ==> !PassReceipt(pass).value.granted
    ensures var saved := Save(box, s.disk.trail, false, ok);
            Withheld(s.(disk := s.disk.(trail := saved.file), proc := Some(s.proc.value.(box := saved.box, pass := pass))))
  {
    var p := s.proc.value;
    var info := Load(s.disk.record, s.cfg.digest).info;
    var saved := Save(box, s.disk.trail, false, ok);
    SaveKeepsWithin(box, s.disk.trail, ok);
    hide Save, Load, Latest;
    if Sealed(info, Listed(s.disk.trail)) && Capped(p.box.receipts, info.unwitnessedAt) {
      CappedWithin(p.box.receipts, Listed(s.disk.trail), saved.box.receipts, info.unwitnessedAt);
      CappedWithin(p.box.receipts, Listed(s.disk.trail), Listed(saved.file), info.unwitnessedAt);
    }
  }

  lemma WithheldHousekeeping(s: State, step: Step)
    requires Withheld(s) && s.proc.Some? && (step.PersistAgain? || step.PruneReceipt?)
    ensures Withheld(NextRaw(s, step))
  {
    var p := s.proc.value;
    if step.PersistAgain? {
      if p.box.dirty { WithheldSave(s, p.box, step.ok, p.pass); }
    } else if p.pass.Settling? {
      var key := p.pass.r.key;
      if HasKey(p.box.receipts, key) {
        WithoutIn(p.box.receipts, key);
        WithheldSave(s, Unlisted(p.box, key), step.ok, Resting);
      }
    }
    hide Save, Load, Latest, HasKey, Capped;
  }

  /** The steps that put a decision of this process on disk: its receipt or its record. */
  predicate Records(step: Step) {
    step.AppendReceipt? || step.WriteRecord? || step.TakeOwedRecord?
  }

  /** What the other steps may change of a withholding process. */
  ghost predicate Harmless(cfg: Config, p: Proc, q: Proc) {
    && q.box == p.box.(owed := q.box.owed)
    && (q.live == Granted ==> p.live == Granted || Grant in q.accepted)
    && (Grant in p.accepted ==> Grant in q.accepted)
    && (PassReceipt(q.pass).Some? ==>
          PassReceipt(q.pass) == PassReceipt(p.pass) || PassReceipt(q.pass) == NextUp(p.box.receipts, HoldsGrants(p.box), cfg.me))
  }

  lemma TurnHarmless(cfg: Config, p: Proc, clock: int, purgeOk: bool)
    ensures Harmless(cfg, p, BeginTurn(p, clock, purgeOk))
  {
    hide NextUp;
  }

  lemma SlotHarmless(cfg: Config, p: Proc)
    ensures Harmless(cfg, p, SlotStep(p))
  {
    hide NextUp, PassReceipt;
    forall o: Owed, persisted ensures SetSlotTouches(p, SetSlot(p, o, persisted)) {}
    hide SetSlot;
    match p.slow
    case GrantUnminted(at) => assert SetSlotTouches(p, SetSlot(p, Owed(Grant, at), false));
    case GrantAppended(r, stored) => assert SetSlotTouches(p, SetSlot(p, Owed(Grant, r.at), false));
    case GrantRecorded(r, written) => assert SetSlotTouches(p, SetSlot(p, Owed(Grant, r.at), written));
    case DenyRecorded(d, at, written) => assert SetSlotTouches(p, SetSlot(p, Owed(d, at), written));
    case RetryRecorded(o, written) => assert SetSlotTouches(p, SetSlot(p, o, written));
    case _ =>
  }

  predicate SetSlotTouches(p: Proc, q: Proc) {
    q == p.(box := p.box.(owed := q.box.owed), recordOwed := q.recordOwed)
  }

  lemma MarkHarmless(cfg: Config, p: Proc)
    ensures Harmless(cfg, p, MarkStep(p))
  {
    hide NextUp, PassReceipt;
    forall key ensures SetSlotTouches(p, MarkKey(p, key)) {}
    hide MarkKey;
    match p.slow
    case GrantSettled(r) => assert SetSlotTouches(p, MarkKey(p, r.key));
    case DenyAppended(r, written) => assert SetSlotTouches(p, MarkKey(p, r.key));
    case RetryAppended(r) => assert SetSlotTouches(p, MarkKey(p, r.key));
    case _ =>
  }

  lemma PassHarmless(cfg: Config, p: Proc, d: Decision, outcome: Outcome)
    ensures Harmless(cfg, p, PickStep(cfg, p)) && Harmless(cfg, p, CheckStep(cfg, p))
    ensures Harmless(cfg, p, AnswerStep(p, outcome)) && Harmless(cfg, p, FastHalf(p, d))
  {
    hide NextUp, Held;
  }

  lemma MintHarmless(s: State, p: Proc, key: Option<string>, bytes: nat, processed: bool)
    requires s.proc == Some(p)
    ensures var t := MintStep(s, p, key, bytes); t.cfg == s.cfg && t.disk == s.disk && t.proc.Some? && Harmless(s.cfg, p, t.proc.value)
    ensures var t := TakeMintStep(s, p, key, bytes);
            t.cfg == s.cfg && t.disk == s.disk && t.proc.Some? && Harmless(s.cfg, p, t.proc.value)
    ensures var t := SendStep(s, p, processed);
            t.cfg == s.cfg && t.disk == s.disk && t.proc.Some? && Harmless(s.cfg, p, t.proc.value)
  {
    hide NextUp;
  }

  lemma OtherHarmless(s: State, step: Step)
    requires s.proc.Some? && !Records(step) && !step.PersistAgain? && !step.PruneReceipt? && !step.Crash?
    ensures var t := NextRaw(s, step);
            t.cfg == s.cfg && t.disk == s.disk && t.proc.Some? && Harmless(s.cfg, s.proc.value, t.proc.value)
  {
    var p := s.proc.value;
    hide BeginTurn, FastHalf, SlotStep, MarkStep, MintStep, TakeMintStep, PickStep, CheckStep, SendStep, AnswerStep;
    match step
    case Decide(d) => PassHarmless(s.cfg, p, d, Ack);
    case Begin(clock, purgeOk) => TurnHarmless(s.cfg, p, clock, purgeOk);
    case Mint(key, bytes) => MintHarmless(s, p, key, bytes, false);
    case SettleSlot => SlotHarmless(s.cfg, p);
    case MarkOwed => MarkHarmless(s.cfg, p);
    case TakeOwedMint(key, bytes) => MintHarmless(s, p, key, bytes, false);
    case Pick => PassHarmless(s.cfg, p, Deny, Ack);
    case Check => PassHarmless(s.cfg, p, Deny, Ack);
    case Send(processed) => MintHarmless(s, p, None, 0, processed);
    case Answer(outcome) => PassHarmless(s.cfg, p, Deny, outcome);
    case _ =>
  }

  lemma WithheldOther(s: State, step: Step)
    requires Withheld(s) && s.proc.Some? && !Records(step) && !step.PersistAgain? && !step.PruneReceipt?
    ensures Withheld(NextRaw(s, step))
  {
    if !step.Crash? {
      NextUpDenies(s.proc.value.box.receipts, s.cfg.me);
      OtherHarmless(s, step);
      hide NextRaw, NextUp, Load, Capped, WithheldOnDisk;
    }
  }
}
