/**
 What a clean close promises: a restart resolves to the live state, and no
 undelivered receipt is lost.
 */
module FloorClose {
  import opened Basics
  import opened DecisionRecord
  import opened ConsentReceipts
  import opened ConsentOutbox
  import opened ConsentMirror
  import opened ConsentFloor
  import opened FloorShape
  import opened FloorPairing
  import opened FloorDecisions

  /** pendingDurability. */
  predicate Pending(box: Outbox) {
    box.receipts != [] || box.dirty
  }

  predicate SafelyOnDisk(box: Outbox) {
    box.durable && !box.dirty
  }

  /** consentOutboxCloseVerdict answers nil. */
  predicate CloseClean(p: Proc, me: Identity) {
    && p.mintOwed.None?
    && (p.recordOwed.Some? ==>
          && p.recordOwed.value.decision != Grant
          && Latest(p.box.receipts, me).Some? && !Latest(p.box.receipts, me).value.granted
          && SafelyOnDisk(p.box))
    && (!Pending(p.box) || SafelyOnDisk(p.box))
  }

  // ---------------------------------------------------------------- the record describes what the slot does not

  function RecordLive(record: RecordFile): Live {
    if record.File? && record.wire.analytics.Word? then LiveOf(record.wire.analytics.decision) else Unknown
  }

  /** With nothing owed the record says the last accepted decision; the slot never stands for an unknown state. */
  predicate RecordTells(record: RecordFile, p: Proc) {
    && (p.recordOwed.Some? ==> p.accepted != [] || p.started != Unknown)
    && (!Unsettled(p.slow) && p.recordOwed.None? ==> RecordLive(record) == Accepted(p))
    && (p.slow.GrantRecorded? && p.slow.written ==> RecordLive(record) == Granted)
    && (p.slow.DenyRecorded? && p.slow.written ==> RecordLive(record) == LiveOf(p.slow.d))
    && (p.slow.RetryRecorded? && p.slow.written ==> RecordLive(record) == LiveOf(p.slow.o.decision))
  }

  lemma TellsTurn(record: RecordFile, p: Proc, clock: int, purgeOk: bool)
    requires RecordTells(record, p) && SlotTells(p)
    ensures RecordTells(record, BeginTurn(p, clock, purgeOk))
  {
  }

  lemma TellsSettle(s: State, step: Step)
    requires s.proc.Some? && Linear(s.proc.value) && SlotTells(s.proc.value) && RecordTells(s.disk.record, s.proc.value)
    requires step.SettleSlot? || step.MarkOwed?
    ensures RecordTells(s.disk.record, NextRaw(s, step).proc.value)
  {
    hide Epochs, InEffect;
  }

  lemma TellsWrite(s: State, step: Step)
    requires s.proc.Some? && Linear(s.proc.value) && SlotTells(s.proc.value) && RecordTells(s.disk.record, s.proc.value)
    requires step.WriteRecord? || step.TakeOwedRecord? || step.Mint?
    ensures var s' := NextRaw(s, step); RecordTells(s'.disk.record, s'.proc.value)
  {
    hide Epochs, InEffect;
  }

  lemma TellsOther(s: State, step: Step)
    requires s.proc.Some? && RecordTells(s.disk.record, s.proc.value)
    requires !step.SettleSlot? && !step.MarkOwed? && !step.WriteRecord? && !step.TakeOwedRecord? && !step.Mint?
    requires !step.Begin? && !step.Crash?
    ensures var s' := NextRaw(s, step); s'.proc.Some? && RecordTells(s'.disk.record, s'.proc.value)
  {
    hide Held, Append, Prune, Save, Boot;
  }

  lemma TellsStart(s: State, healOk: bool, markOk: bool)
    requires Shape(s)
    ensures var (disk, p) := Boot(s.cfg, s.disk, healOk, markOk); RecordTells(disk.record, p)
  {
    BootPlain(s, healOk, markOk);
    hide Boot, Resolve, Conclude, RestShape, ShapeOf;
  }

  // ---------------------------------------------------------------- the invariant over whole runs

  /** Slots and pairs agree, or a forced-minor record has made them irrelevant. */
  ghost predicate Coherent(s: State) {
    && Shape(s) && Decided(s)
    && (s.proc.Some? ==>
          RecordTells(s.disk.record, s.proc.value) &&
          (Pairing(s.disk, s.proc.value) || Absorbing(s.disk.record)))
  }

  lemma AbsorbingIsMinor(s: State)
    requires Shape(s)
    ensures Absorbing(s.disk.record) <==> HoldsMinor(s.disk.record, s.cfg.digest)
  {
    hide RestShape, ShapeOf;
  }

  lemma TellsStep(s: State, step: Step)
    requires Coherent(s) && !step.Crash? && s.proc.Some?
    ensures var s' := NextRaw(s, step); s'.proc.Some? && RecordTells(s'.disk.record, s'.proc.value)
  {
    hide Shape, Pairing, RecordTells, Linear, SlotTells, Minor;
    if step.SettleSlot? || step.MarkOwed? { TellsSettle(s, step); RecordStays(s, step); }
    else if step.WriteRecord? || step.TakeOwedRecord? || step.Mint? { TellsWrite(s, step); }
    else if step.Begin? { TellsTurn(s.disk.record, s.proc.value, step.clock, step.purgeOk); }
    else { TellsOther(s, step); }
  }

  lemma CoherentStart(s: State, healOk: bool, markOk: bool)
    requires Shape(s) && s.proc.None?
    ensures var s' := NextRaw(s, Start(healOk, markOk));
            RecordTells(s'.disk.record, s'.proc.value) &&
            (Pairing(s'.disk, s'.proc.value) || Absorbing(s'.disk.record))
  {
    TellsStart(s, healOk, markOk);
    if CleanStart(s) { PairingStart(s, healOk, markOk); }
    else { BootPlain(s, healOk, markOk); }
    hide Boot, Resolve, Conclude, Shape, Pairing, RecordTells;
  }

  lemma CoherentStep(s: State, step: Step)
    requires Coherent(s)
    ensures Coherent(Next(s, step))
  {
    hide Shape, Decided, Pairing, RecordTells, NextRaw, Absorbing, HoldsMinor;
    ShapeStep(s, step);
    DigestNeeded(s);
    DecidedStep(s, step);
    AbsorbingIsMinor(s);
    AbsorbingIsMinor(Next(s, step));
    if s.proc.None? {
      if step.Start? { CoherentStart(s, step.healOk, step.markOk); } else { NotRunning(s, step); }
    } else {
      if step.Crash? { Crashed(s); } else { TellsStep(s, step); }
      if Pairing(s.disk, s.proc.value) { PairingStep(s, step); }
    }
  }

  lemma DigestNeeded(s: State)
    requires Shape(s)
    ensures s.cfg.digest != ""
  {
  }

  lemma NotRunning(s: State, step: Step)
    requires s.proc.None? && !step.Start?
    ensures NextRaw(s, step) == s
  {
  }

  lemma Crashed(s: State)
    requires s.proc.Some?
    ensures NextRaw(s, Crash).proc.None?
  {
  }

  lemma {:induction false} CoherentRun(s: State, steps: seq<Step>)
    requires Shape(s) && s.proc.None?
    ensures Coherent(Run(s, steps)) && Run(s, steps).cfg == s.cfg
  {
    hide Coherent, Next, Shape;
    if steps == [] { CoherentRest(s); }
    else {
      CoherentRun(s, steps[..|steps| - 1]);
      CoherentStep(Run(s, steps[..|steps| - 1]), steps[|steps| - 1]);
      CfgStays(Run(s, steps[..|steps| - 1]), steps[|steps| - 1]);
    }
  }

  lemma CoherentRest(s: State)
    requires Shape(s) && s.proc.None?
    ensures Coherent(s)
  {
  }

  /**
   The other half of decision linearization. From files the floor wrote, in every run, whatever fails
   and however halves interleave: whenever the lock is free, the owed slot, or with an empty slot the
   record on disk, describes the last accepted decision; with all tickets served that is the live state.
   */
  lemma DecisionDescribed(s: State, steps: seq<Step>)
    requires Shape(s) && s.proc.None?
    ensures var e := Run(s, steps);
            e.proc.Some? && e.proc.value.slow == Idle ==>
              var p := e.proc.value;
              && Accepted(p) == (if p.recordOwed.Some? then LiveOf(p.recordOwed.value.decision) else RecordLive(e.disk.record))
              && (p.tickets == [] ==> p.live == Accepted(p))
  {
    CoherentRun(s, steps);
    hide Run, Shape, Pairing, Epochs;
  }

  // ---------------------------------------------------------------- a clean close

  /** What the files say when the lock is free and close finds nothing owed. */
  lemma CleanResolves(s: State)
    requires Coherent(s) && s.proc.Some? && s.proc.value.slow == Idle && CloseClean(s.proc.value, s.cfg.me)
    requires Pairing(s.disk, s.proc.value)
    ensures Absorbing(s.disk.record) || Resolve(s.cfg, s.disk) == Accepted(s.proc.value)
  {
    TrailFacts(s);
    var p := s.proc.value;
    LinkedTrails(p.box, s.disk.trail, s.cfg.me, s.used);
    BootPlain(s, true, true);
    hide Linked, Shape, ShapeOf, RestShape, Trail, Boot, Conclude, Resolve, Linear, Minor;
    assert s.disk.record.NoFile? || s.disk.record.wire.analytics.Word? by { RecordWord(s); }
    assert Listed(s.disk.trail) == p.box.receipts;
  }

  lemma RecordWord(s: State)
    requires Shape(s)
    ensures s.disk.record.NoFile? || (s.disk.record.File? && s.disk.record.wire.analytics.Word?)
  {
  }

  /**
   A clean close is safe to restart from. In every run that began with files the floor
   wrote, whatever failed or crashed on the way: when every ticket is served, the lock is free and
   the close verdict is nil, a restart resolves to the live state, which is the last accepted
   decision, and the trail on disk holds exactly the receipts still undelivered.
   */
  lemma CleanCloseRestarts(s: State, steps: seq<Step>)
    requires Shape(s) && s.proc.None?
    requires var e := Run(s, steps);
             e.proc.Some? && e.proc.value.tickets == [] && e.proc.value.slow == Idle && CloseClean(e.proc.value, s.cfg.me)
    ensures var e := Run(s, steps);
            && Resolve(s.cfg, e.disk) == e.proc.value.live == Accepted(e.proc.value)
            && Listed(e.disk.trail) == e.proc.value.box.receipts
  {
    CoherentRun(s, steps);
    var e := Run(s, steps);
    CleanNow(e);
  }

  lemma CleanNow(e: State)
    requires Coherent(e) && e.proc.Some?
    requires e.proc.value.tickets == [] && e.proc.value.slow == Idle && CloseClean(e.proc.value, e.cfg.me)
    ensures Resolve(e.cfg, e.disk) == e.proc.value.live == Accepted(e.proc.value)
    ensures Listed(e.disk.trail) == e.proc.value.box.receipts
  {
    var p := e.proc.value;
    LinkedTrails(p.box, e.disk.trail, e.cfg.me, e.used);
    assert p.live == Accepted(p);
    AbsorbingIsMinor(e);
    BootPlain(e, true, true);
    if !Absorbing(e.disk.record) { CleanResolves(e); }
    hide Linked, Shape, ShapeOf, RestShape, Trail, Boot, Conclude, Pairing;
  }

  // ---------------------------------------------------------------- receipts leave only when answered

  predicate Terminally(steps: seq<Step>) {
    Answer(Terminal) in steps
  }

  /** A pass whose post reached the server, or is settling, has its receipt in the server's log. */
  predicate PassDelivered(s: State) {
    s.proc.Some? ==>
      match s.proc.value.pass
      case InFlight(r, processed) => processed ==> HasKey(s.server, r.key)
      case Settling(r) => HasKey(s.server, r.key)
      case _ => true
  }

  lemma ServerGrows(s: State, step: Step)
    ensures s.server <= Next(s, step).server
    ensures forall k :: HasKey(s.server, k) ==> HasKey(Next(s, step).server, k)
  {
    hide Held, Append, Prune, Save, Boot, BeginTurn, FastHalf;
    var t := Next(s, step).server;
    assert t == s.server || (|t| > 0 && t[..|t| - 1] == s.server);
    forall k | HasKey(s.server, k) ensures HasKey(t, k) {
      var i :| 0 <= i < |s.server| && s.server[i].key == k;
      assert t[i].key == k;
    }
  }

  predicate Passing(step: Step) {
    step.Pick? || step.Check? || step.Send? || step.Answer? || step.PruneReceipt?
  }

  lemma PassStays(s: State, step: Step)
    requires s.proc.Some? && !step.Crash? && !Passing(step)
    ensures NextRaw(s, step).proc.Some? && NextRaw(s, step).proc.value.pass == s.proc.value.pass
  {
    hide Held, Append, Prune, Save, Boot, PickStep, CheckStep;
  }

  lemma StartRests(s: State, healOk: bool, markOk: bool)
    ensures Boot(s.cfg, s.disk, healOk, markOk).1.pass == Resting
  {
    hide Conclude, Resolve;
  }

  lemma DeliveredStep(s: State, step: Step)
    requires PassDelivered(s) && step != Answer(Terminal)
    ensures PassDelivered(Next(s, step))
  {
    hide Append, Prune, Save, Boot, BeginTurn, FastHalf, HasKey;
    if s.proc.Some? && !step.Crash? {
      ServerGrows(s, step);
      if Passing(step) { DeliveredPass(s, step); } else { PassStays(s, step); }
    } else if s.proc.None? && step.Start? {
      StartRests(s, step.healOk, step.markOk);
    }
  }

  lemma DeliveredPass(s: State, step: Step)
    requires s.proc.Some? && PassDelivered(s) && step != Answer(Terminal) && Passing(step)
    ensures PassDelivered(NextRaw(s, step))
  {
    hide Append, Prune, Held, HasKey;
    if step.Send? && s.proc.value.pass.Cleared? {
      HasKeyAfter(s.server, s.proc.value.pass.r);
    }
  }

  /**
   In a running process a receipt leaves the mirror only once the server has processed it, or by an
   eviction that the counter shows.
   */
  lemma {:induction false} UndeliveredStays(s: State, steps: seq<Step>, r: Receipt)
    requires Shape(s) && s.proc.Some? && PassDelivered(s)
    requires Crash !in steps && !Terminally(steps)
    requires r in s.proc.value.box.receipts
    ensures var e := Run(s, steps);
            && Shape(e) && PassDelivered(e) && e.proc.Some?
            && e.proc.value.box.evicted >= s.proc.value.box.evicted
            && (r in e.proc.value.box.receipts || HasKey(e.server, r.key) || e.proc.value.box.evicted > s.proc.value.box.evicted)
  {
    hide Shape, Next, PassDelivered;
    if steps != [] {
      var front, step := steps[..|steps| - 1], steps[|steps| - 1];
      assert step in steps && forall i :: i in front ==> i in steps;
      UndeliveredStays(s, front, r);
      UndeliveredStep(Run(s, front), step, r);
    }
  }

  lemma UndeliveredStep(s: State, step: Step, r: Receipt)
    requires Shape(s) && s.proc.Some? && PassDelivered(s) && !step.Crash? && step != Answer(Terminal)
    ensures var e := Next(s, step);
            && Shape(e) && PassDelivered(e) && e.proc.Some?
            && e.proc.value.box.evicted >= s.proc.value.box.evicted
            && (r in s.proc.value.box.receipts || HasKey(s.server, r.key) ==>
                  r in e.proc.value.box.receipts || HasKey(e.server, r.key) || e.proc.value.box.evicted > s.proc.value.box.evicted)
  {
    ShapeStep(s, step);
    ServerGrows(s, step);
    DeliveredStep(s, step);
    StaysUp(s, step);
    hide NextRaw, Shape, ShapeOf, Trail, HasKey, PassDelivered;
    MirrorKeeps(s, step, r);
  }

  lemma MirrorKeeps(s: State, step: Step, r: Receipt)
    requires Shape(s) && s.proc.Some? && PassDelivered(s) && !step.Crash?
    ensures var e := NextRaw(s, step);
            && e.proc.Some? && e.proc.value.box.evicted >= s.proc.value.box.evicted
            && (r in s.proc.value.box.receipts ==>
                  r in e.proc.value.box.receipts || HasKey(s.server, r.key) || e.proc.value.box.evicted > s.proc.value.box.evicted)
  {
    StaysUp(s, step);
    Effects(s, step);
    TrailFacts(s);
    var p := s.proc.value;
    if r in p.box.receipts {
      if step.PruneReceipt? && p.pass.Settling? { BaseWithout(s, step); }
      else { assert r in MirrorBase(p, step); }
    }
    hide NextRaw, Shape, ShapeOf, Trail, HasKey, MirrorBase, Sifted, FileFollows;
  }

  lemma StaysUp(s: State, step: Step)
    requires s.proc.Some? && !step.Crash?
    ensures NextRaw(s, step).proc.Some?
  {
    hide Held, Append, Prune, Save, Boot, BeginTurn, FastHalf;
  }
}
