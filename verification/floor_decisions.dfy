/**
 What the live state is, whatever overtakes what: the last decision that took
 effect. And the forced-minor denial, which nothing reverses.
 */
module FloorDecisions {
  import opened Basics
  import opened DecisionRecord
  import opened ConsentReceipts
  import opened ConsentOutbox
  import opened ConsentFloor
  import opened FloorShape
  import opened FloorPairing

  // ---------------------------------------------------------------- the live state is the last decision

  function LastDenial(tickets: seq<Ticket>): Option<Decision> {
    if tickets == [] then None
    else if tickets[|tickets| - 1].decision != Grant then Some(tickets[|tickets| - 1].decision)
    else LastDenial(tickets[..|tickets| - 1])
  }

  /**
   The decision in effect: a denial from its admission on, a grant from its turn on
   unless a denial was admitted after it, and the state the process started in before both.
   */
  function InEffect(p: Proc): Live {
    if LastDenial(p.tickets).Some? then LiveOf(LastDenial(p.tickets).value)
    else if p.accepted != [] then LiveOf(p.accepted[|p.accepted| - 1])
    else p.started
  }

  /** The lock holder works on the head ticket. */
  predicate Serving(slow: Slow) {
    !slow.Idle? && !slow.RetryMinted? && !slow.RetryAppended? && !slow.RetryRecorded?
  }

  /** A grant ticket's epoch is the present one exactly when no denial was admitted behind it. */
  ghost predicate Epochs(p: Proc) {
    && (forall i :: 0 <= i < |p.tickets| ==> p.tickets[i].epoch <= p.epoch)
    && (forall i :: 0 <= i < |p.tickets| && p.tickets[i].decision == Grant ==>
          (p.tickets[i].epoch == p.epoch <==> LastDenial(p.tickets[i + 1..]).None?))
  }

  ghost predicate Linear(p: Proc) {
    && Epochs(p)
    && p.live == InEffect(p)
    && HeadTicket(p)
    && HeadAccepted(p)
  }

  /** A denial being served is the head ticket, and it has been accepted. */
  predicate HeadAccepted(p: Proc) {
    Serving(p.slow) && p.tickets != [] && p.tickets[0].decision != Grant ==>
      p.accepted != [] && p.accepted[|p.accepted| - 1] == p.tickets[0].decision
  }

  lemma {:induction false} LastDenialTail(tickets: seq<Ticket>)
    requires tickets != []
    ensures LastDenial(tickets) ==
              if LastDenial(tickets[1..]).Some? then LastDenial(tickets[1..])
              else if tickets[0].decision != Grant then Some(tickets[0].decision) else None
  {
    if |tickets| > 1 && tickets[|tickets| - 1].decision == Grant {
      LastDenialTail(tickets[..|tickets| - 1]);
      assert tickets[1..][..|tickets| - 2] == tickets[..|tickets| - 1][1..];
    }
  }

  lemma LastDenialPush(tickets: seq<Ticket>, t: Ticket)
    ensures LastDenial(tickets + [t]) == if t.decision != Grant then Some(t.decision) else LastDenial(tickets)
  {
    assert (tickets + [t])[..|tickets|] == tickets;
  }

  lemma EpochsPush(p: Proc, q: Proc, d: Decision)
    requires Epochs(p) && q.tickets == p.tickets + [Ticket(d, p.epoch)]
    requires q.epoch == if d == Grant then p.epoch else p.epoch + 1
    ensures Epochs(q)
  {
    var t, n := Ticket(d, p.epoch), |p.tickets|;
    forall i | 0 <= i < |q.tickets| && q.tickets[i].decision == Grant
      ensures q.tickets[i].epoch == q.epoch <==> LastDenial(q.tickets[i + 1..]).None?
    {
      if i < n {
        assert q.tickets[i + 1..] == p.tickets[i + 1..] + [t];
        LastDenialPush(p.tickets[i + 1..], t);
      }
    }
  }

  lemma LinearFast(p: Proc, d: Decision)
    requires Linear(p)
    ensures Linear(FastHalf(p, d))
  {
    hide Epochs, LastDenial;
    var q := FastHalf(p, d);
    if q != p {
      EpochsPush(p, q, d);
      LastDenialPush(p.tickets, Ticket(d, p.epoch));
    }
  }

  lemma LinearTurn(p: Proc, clock: int, purgeOk: bool)
    requires Linear(p)
    ensures Linear(BeginTurn(p, clock, purgeOk))
  {
    if p.slow == Idle && p.tickets != [] {
      LastDenialTail(p.tickets);
    }
  }

  lemma LinearFinish(p: Proc)
    requires Linear(p) && p.slow == Served && p.tickets != []
    ensures Linear(p.(tickets := p.tickets[1..], slow := Idle))
  {
    LastDenialTail(p.tickets);
    var rest := p.tickets[1..];
    forall i | 0 <= i < |rest| ensures rest[i] == p.tickets[i + 1] && rest[i + 1..] == p.tickets[i + 1 + 1..] {}
  }

  predicate SameTurn(p: Proc, q: Proc) {
    && q.tickets == p.tickets && q.live == p.live && q.accepted == p.accepted
    && q.started == p.started && q.epoch == p.epoch
    && HeadTicket(q) && (Serving(q.slow) ==> Serving(p.slow))
  }

  lemma LinearSame(p: Proc, q: Proc)
    requires Linear(p) && SameTurn(p, q)
    ensures Linear(q)
  {
  }

  /** The other steps move neither the live state nor the tickets. */
  lemma LinearOther(s: State, step: Step)
    requires s.proc.Some? && HeadTicket(s.proc.value)
    requires !step.Decide? && !step.Begin? && !step.Finish? && !step.Crash?
    ensures NextRaw(s, step).proc.Some? && SameTurn(s.proc.value, NextRaw(s, step).proc.value)
  {
    hide Held, Append, Prune, Save, Boot, NextUp, HasKey, SaveRecord;
  }

  lemma LinearStep(s: State, step: Step)
    requires s.proc.Some? ==> Linear(s.proc.value)
    ensures var s' := Next(s, step); s'.proc.Some? ==> Linear(s'.proc.value)
  {
    if s.proc.Some? {
      var p := s.proc.value;
      if step.Decide? { LinearFast(p, step.decision); }
      else if step.Begin? { LinearTurn(p, step.clock, step.purgeOk); }
      else if step.Finish? { if p.slow == Served && p.tickets != [] { LinearFinish(p); } }
      else if !step.Crash? { LinearOther(s, step); LinearSame(p, NextRaw(s, step).proc.value); }
    }
  }

  /** The last accepted decision, or the state the process started in. */
  function Accepted(p: Proc): Live {
    if p.accepted == [] then p.started else LiveOf(p.accepted[|p.accepted| - 1])
  }

  /**
   Decision linearization. In every run, whatever fails and however halves interleave:
   the live state is the decision in effect, so once all tickets are served it is the
   last accepted decision, or the state the process started in.
   */
  lemma {:induction false} LiveIsLastDecision(s: State, steps: seq<Step>)
    requires s.proc.None?
    ensures var s' := Run(s, steps);
            s'.proc.Some? ==>
              var p := s'.proc.value;
              && Linear(p)
              && p.live == InEffect(p)
              && (p.tickets == [] ==> p.live == Accepted(p))
  {
    if steps != [] {
      LiveIsLastDecision(s, steps[..|steps| - 1]);
      LinearStep(Run(s, steps[..|steps| - 1]), steps[|steps| - 1]);
    }
  }

  // ---------------------------------------------------------------- what the slot is about

  predicate Granting(slow: Slow) {
    slow.GrantStamped? || slow.GrantUnminted? || slow.GrantMinted? || slow.GrantAppended? || slow.GrantRecorded?
  }

  /** The lock holder has not yet said whether its record landed. */
  predicate Unsettled(slow: Slow) {
    Granting(slow) || slow.DenyStamped? || slow.DenyRecorded?
  }

  /** The owed record is the last accepted decision's; a withheld grant healed from the trail leaves the state unknown. */
  predicate SlotTells(p: Proc) {
    && (Granting(p.slow) || p.slow.GrantSettled? ==> p.accepted != [] && Accepted(p) == Granted)
    && (p.recordOwed.Some? && !Unsettled(p.slow) ==> Tells(p, p.recordOwed.value.decision))
    && (p.slow.RetryRecorded? ==> p.recordOwed == Some(p.slow.o))
    && (p.slow.DenyStamped? ==> p.slow.d != Grant)
    && (p.slow.DenyRecorded? ==> p.slow.d != Grant)
  }

  predicate Tells(p: Proc, d: Decision) {
    LiveOf(d) == Accepted(p) || (d == Grant && Accepted(p) == Unknown)
  }

  lemma SlotTellsTurn(p: Proc, clock: int, purgeOk: bool)
    requires Linear(p) && SlotTells(p)
    ensures SlotTells(BeginTurn(p, clock, purgeOk))
  {
    hide Epochs, InEffect;
  }

  lemma SlotTellsSettle(s: State, step: Step)
    requires s.proc.Some? && HeadTicket(s.proc.value) && HeadAccepted(s.proc.value) && SlotTells(s.proc.value)
    requires step.SettleSlot? || step.MarkOwed?
    ensures NextRaw(s, step).proc.Some? && SlotTells(NextRaw(s, step).proc.value)
  {
  }

  lemma SlotTellsWrite(s: State, step: Step)
    requires s.proc.Some? && HeadTicket(s.proc.value) && HeadAccepted(s.proc.value) && SlotTells(s.proc.value)
    requires step.WriteRecord? || step.TakeOwedRecord? || step.Mint?
    ensures NextRaw(s, step).proc.Some? && SlotTells(NextRaw(s, step).proc.value)
  {
  }

  lemma SlotTellsOther(s: State, step: Step)
    requires s.proc.Some? && HeadTicket(s.proc.value) && SlotTells(s.proc.value)
    requires !step.SettleSlot? && !step.MarkOwed? && !step.WriteRecord? && !step.TakeOwedRecord? && !step.Mint?
    requires !step.Begin? && !step.Crash?
    ensures NextRaw(s, step).proc.Some? && SlotTells(NextRaw(s, step).proc.value)
  {
    hide Held, Append, Prune, Save, Boot;
  }

  lemma SlotTellsStep(s: State, step: Step)
    requires s.proc.Some? && Linear(s.proc.value) && SlotTells(s.proc.value) && !step.Crash?
    ensures NextRaw(s, step).proc.Some? && SlotTells(NextRaw(s, step).proc.value)
  {
    hide SlotTells, Epochs, InEffect;
    if step.SettleSlot? || step.MarkOwed? { SlotTellsSettle(s, step); }
    else if step.WriteRecord? || step.TakeOwedRecord? || step.Mint? { SlotTellsWrite(s, step); }
    else if step.Begin? { SlotTellsTurn(s.proc.value, step.clock, step.purgeOk); }
    else { SlotTellsOther(s, step); }
  }

  // ---------------------------------------------------------------- the forced-minor denial

  /** A file this actor's loader reads as a forced-minor denial. */
  predicate HoldsMinor(record: RecordFile, digest: string) {
    var l := Load(record, digest);
    l.ok && l.info.state == DeniedForcedMinor
  }

  /** Behind a forced-minor decision only forced-minor decisions are admitted. */
  ghost predicate Minor(p: Proc) {
    && (forall i, j :: 0 <= i < j < |p.tickets| && p.tickets[i].decision == ForcedMinor ==> p.tickets[j].decision == ForcedMinor)
    && (Accepted(p) == DeniedForcedMinor ==> forall i :: 0 <= i < |p.tickets| ==> p.tickets[i].decision == ForcedMinor)
  }

  ghost predicate Decided(s: State) {
    s.proc.Some? ==>
      var p := s.proc.value;
      && Linear(p) && SlotTells(p) && Minor(p)
      && (HoldsMinor(s.disk.record, s.cfg.digest) ==> Accepted(p) == DeniedForcedMinor)
  }

  lemma {:induction false} MinorLast(tickets: seq<Ticket>, k: nat)
    requires k < |tickets| && tickets[k].decision == ForcedMinor
    requires forall i, j :: 0 <= i < j < |tickets| && tickets[i].decision == ForcedMinor ==> tickets[j].decision == ForcedMinor
    ensures LastDenial(tickets) == Some(ForcedMinor)
  {
    assert tickets[|tickets| - 1].decision == ForcedMinor;
  }

  lemma MinorFast(p: Proc, d: Decision)
    requires Linear(p) && Minor(p)
    ensures Minor(FastHalf(p, d))
  {
    hide Epochs, LastDenial;
    var q := FastHalf(p, d);
    if q != p && d != ForcedMinor {
      forall i | 0 <= i < |p.tickets| ensures p.tickets[i].decision != ForcedMinor {
        if p.tickets[i].decision == ForcedMinor { MinorLast(p.tickets, i); }
      }
      if Accepted(p) == DeniedForcedMinor { MinorNow(p); }
    }
  }

  lemma MinorTurn(p: Proc, clock: int, purgeOk: bool)
    requires Minor(p)
    ensures Minor(BeginTurn(p, clock, purgeOk))
  {
  }

  lemma MinorStep(s: State, step: Step)
    requires s.proc.Some? && Linear(s.proc.value) && Minor(s.proc.value) && !step.Crash?
    ensures NextRaw(s, step).proc.Some? && Minor(NextRaw(s, step).proc.value)
  {
    hide BeginTurn, FastHalf, SlotStep, MarkStep, MintStep, AppendStep, RecordStep, TakeMintStep, TakeRecordStep,
         RetryPersist, PickStep, CheckStep, SendStep, AnswerStep, Prune, Epochs, InEffect;
    if step.Decide? { MinorFast(s.proc.value, step.decision); }
    else if step.Begin? { MinorTurn(s.proc.value, step.clock, step.purgeOk); }
    else if !step.Finish? { LinearOther(s, step); }
  }

  /** Once forced-minor is the last accepted decision, the record keeps saying so if it does. */
  lemma MinorRecord(s: State, step: Step)
    requires s.proc.Some? && Decided(s) && s.cfg.digest != "" && !step.Crash?
    ensures var s' := NextRaw(s, step);
            && s'.proc.Some?
            && (HoldsMinor(s.disk.record, s.cfg.digest) ==> HoldsMinor(s'.disk.record, s.cfg.digest))
            && (HoldsMinor(s'.disk.record, s.cfg.digest) ==> Accepted(s'.proc.value) == DeniedForcedMinor)
  {
    if step.WriteRecord? || step.TakeOwedRecord? { MinorWritten(s, step); }
    else if !step.Start? {
      RecordStays(s, step);
      MinorAccepted(s, step);
      hide NextRaw, HoldsMinor, Linear, SlotTells, Minor;
    }
  }

  lemma MinorWritten(s: State, step: Step)
    requires s.proc.Some? && Decided(s) && s.cfg.digest != "" && (step.WriteRecord? || step.TakeOwedRecord?)
    ensures var s' := NextRaw(s, step);
            && s'.proc.Some?
            && (HoldsMinor(s.disk.record, s.cfg.digest) ==> HoldsMinor(s'.disk.record, s.cfg.digest))
            && (HoldsMinor(s'.disk.record, s.cfg.digest) ==> Accepted(s'.proc.value) == DeniedForcedMinor)
  {
    hide Epochs, InEffect;
  }

  /** Behind an accepted forced-minor decision only forced-minor decisions take their turn. */
  lemma MinorAccepted(s: State, step: Step)
    requires s.proc.Some? && Minor(s.proc.value) && !step.Crash?
    ensures NextRaw(s, step).proc.Some?
    ensures Accepted(s.proc.value) == DeniedForcedMinor ==> Accepted(NextRaw(s, step).proc.value) == DeniedForcedMinor
  {
    hide Held, Append, Prune, Save, Boot;
  }

  /** In memory: no step of the process lifts a forced-minor state. */
  lemma MinorLive(s: State, step: Step)
    requires s.proc.Some? && Decided(s) && !step.Crash? && s.proc.value.live == DeniedForcedMinor
    ensures NextRaw(s, step).proc.Some? && NextRaw(s, step).proc.value.live == DeniedForcedMinor
  {
    hide Held, Append, Prune, Save, Boot;
    var p := s.proc.value;
    if step.Begin? && p.slow == Idle && p.tickets != [] && p.tickets[0].decision == Grant {
      LastDenialTail(p.tickets);
    }
  }

  lemma DecidedStart(s: State, healOk: bool, markOk: bool)
    requires s.proc.None? && s.cfg.digest != ""
    ensures var s' := NextRaw(s, Start(healOk, markOk));
            && Decided(s')
            && (HoldsMinor(s.disk.record, s.cfg.digest) ==> HoldsMinor(s'.disk.record, s.cfg.digest))
  {
    hide LoadBox;
  }

  lemma CfgStays(s: State, step: Step)
    ensures Next(s, step).cfg == s.cfg
  {
    hide Boot, BeginTurn, FastHalf, SlotStep, MarkStep, Append, RetryPersist, PickStep, CheckStep, AnswerStep, Prune;
  }

  lemma DecidedStep(s: State, step: Step)
    requires Decided(s) && s.cfg.digest != ""
    ensures Decided(Next(s, step)) && Next(s, step).cfg == s.cfg
    ensures HoldsMinor(s.disk.record, s.cfg.digest) ==> HoldsMinor(Next(s, step).disk.record, s.cfg.digest)
    ensures s.proc.Some? && s.proc.value.live == DeniedForcedMinor && !step.Crash? ==>
              Next(s, step).proc.Some? && Next(s, step).proc.value.live == DeniedForcedMinor
  {
    hide Linear, SlotTells, Minor, HoldsMinor;
    CfgStays(s, step);
    if s.proc.None? {
      if step.Start? { DecidedStart(s, step.healOk, step.markOk); }
    } else if !step.Crash? {
      LinearStep(s, step);
      SlotTellsStep(s, step);
      MinorStep(s, step);
      MinorRecord(s, step);
      if s.proc.value.live == DeniedForcedMinor { MinorLive(s, step); }
    }
  }

  lemma {:induction false} DecidedRun(s: State, steps: seq<Step>)
    requires s.proc.None? && s.cfg.digest != ""
    ensures Decided(Run(s, steps)) && Run(s, steps).cfg == s.cfg
  {
    hide Next, HoldsMinor, Linear, SlotTells, Minor;
    if steps != [] {
      DecidedRun(s, steps[..|steps| - 1]);
      DecidedStep(Run(s, steps[..|steps| - 1]), steps[|steps| - 1]);
    }
  }

  /**
   The forced-minor denial is absorbing. From any files whatever, through any faults, once the
   record on disk is a forced-minor denial of this actor it stays one in every later state, every
   running process is in the forced-minor state, and every restart resolves to it.
   */
  lemma {:induction false} MinorForever(s: State, before: seq<Step>, after: seq<Step>)
    requires s.proc.None? && s.cfg.digest != ""
    requires HoldsMinor(Run(s, before).disk.record, s.cfg.digest)
    ensures var s' := Run(Run(s, before), after);
            && HoldsMinor(s'.disk.record, s.cfg.digest)
            && Resolve(s.cfg, s'.disk) == DeniedForcedMinor
            && (s'.proc.Some? ==> s'.proc.value.live == DeniedForcedMinor)
  {
    DecidedRun(s, before);
    MinorRun(Run(s, before), after);
    var s' := Run(Run(s, before), after);
    if s'.proc.Some? { MinorNow(s'.proc.value); }
  }

  /** With forced-minor the last accepted decision, the live state is forced-minor. */
  lemma MinorNow(p: Proc)
    requires Linear(p) && Minor(p) && Accepted(p) == DeniedForcedMinor
    ensures p.live == DeniedForcedMinor
  {
    if p.tickets != [] { MinorLast(p.tickets, 0); }
  }

  lemma {:induction false} MinorRun(s: State, steps: seq<Step>)
    requires Decided(s) && s.cfg.digest != "" && HoldsMinor(s.disk.record, s.cfg.digest)
    ensures Decided(Run(s, steps)) && Run(s, steps).cfg == s.cfg && HoldsMinor(Run(s, steps).disk.record, s.cfg.digest)
  {
    hide Next, HoldsMinor, Linear, SlotTells, Minor;
    if steps != [] {
      MinorRun(s, steps[..|steps| - 1]);
      DecidedStep(Run(s, steps[..|steps| - 1]), steps[|steps| - 1]);
    }
  }

  /** In memory: a process in the forced-minor state stays there until it crashes. */
  lemma {:induction false} MinorInMemory(s: State, steps: seq<Step>)
    requires Decided(s) && s.cfg.digest != "" && s.proc.Some? && s.proc.value.live == DeniedForcedMinor
    requires Crash !in steps
    ensures var s' := Run(s, steps); Decided(s') && s'.proc.Some? && s'.proc.value.live == DeniedForcedMinor && s'.cfg == s.cfg
  {
    hide Next, HoldsMinor, Linear, SlotTells, Minor;
    if steps != [] {
      var front := steps[..|steps| - 1];
      assert forall i :: 0 <= i < |steps| ==> steps[i] != Crash;
      MinorInMemory(s, front);
      DecidedStep(Run(s, front), steps[|steps| - 1]);
    }
  }
}
