/**
 The publish gate: a publisher loads the gate and then re-checks consent, while a denial
 stores its state and then swaps and cancels the gate. Every interleaving of any number
 of publishers with denials and grants.
 */
module PublishGate {
  import opened Basics

  /** A denial between its sections, all under the lifecycle lock. */
  datatype Deciding = Nobody | Stored | Swapped(previous: nat)

  datatype Publisher =
    | Loaded(gate: nat)
    | Sending(gate: nat, grantAfter: Option<nat>)

  /**
   `gate` numbers the gate in place by the denials that have swapped it, `completed` counts the denials
   that have also cancelled the one before, and `grantAfter` is the gate's number at the last grant.
   `delivered` lists the publishes that ended neither refused nor cancelled.
   */
  datatype State = State(
    denied: bool,
    gate: nat,
    cancelled: set<nat>,
    deciding: Deciding,
    publishers: map<nat, Publisher>,
    completed: nat,
    grantAfter: Option<nat>,
    delivered: seq<Delivery>)

  /** What a delivered publish had seen, and how many denials had completed when it ended. */
  datatype Delivery = Delivery(gate: nat, grantAfter: Option<nat>, completed: nat)

  datatype Step =
    | StoreDenied
    | SwapGate
    | CancelGate
    | StoreGranted
    | LoadGate(p: nat)
    | CheckConsent(p: nat)
    | Finish(p: nat)

  function Next(s: State, step: Step): State {
    match step
    case StoreDenied => if s.deciding != Nobody then s else s.(denied := true, deciding := Stored)
    case SwapGate => if s.deciding != Stored then s else s.(gate := s.gate + 1, deciding := Swapped(s.gate))
    case CancelGate =>
      if !s.deciding.Swapped? then s
      else s.(cancelled := s.cancelled + {s.deciding.previous}, deciding := Nobody, completed := s.completed + 1)
    case StoreGranted =>
      if s.deciding != Nobody then s else s.(denied := false, grantAfter := Some(s.gate))
    case LoadGate(p) =>
      if p in s.publishers then s else s.(publishers := s.publishers[p := Loaded(s.gate)])
    case CheckConsent(p) =>
      if p !in s.publishers || !s.publishers[p].Loaded? then s
      else if s.denied then s.(publishers := s.publishers - {p})
      else s.(publishers := s.publishers[p := Sending(s.publishers[p].gate, s.grantAfter)])
    case Finish(p) =>
      if p !in s.publishers || !s.publishers[p].Sending? then s
      else
        var q := s.publishers[p];
        var t := s.(publishers := s.publishers - {p});
        if q.gate in s.cancelled then t
        else t.(delivered := s.delivered + [Delivery(q.gate, q.grantAfter, s.completed)])
  }

  function Run(s: State, steps: seq<Step>): State {
    if steps == [] then s else Next(Run(s, steps[..|steps| - 1]), steps[|steps| - 1])
  }

  predicate Start(s: State) {
    !s.denied && s.gate == 0 && s.cancelled == {} && s.deciding == Nobody && s.publishers == map[]
    && s.completed == 0 && s.grantAfter == None && s.delivered == []
  }

  /** A publisher still holds the gate in place, or a denial has cancelled its gate or is about to. */
  predicate Gated(s: State, p: Publisher) {
    && p.gate <= s.gate
    && (p.gate < s.gate ==> p.gate in s.cancelled || s.deciding == Swapped(p.gate))
  }

  predicate CheckedAfter(p: Publisher)
    requires p.Sending?
  {
    p.gate > 0 ==> p.grantAfter.Some? && p.grantAfter.value >= p.gate
  }

  /** Every denial completed by its end had swapped the gate before it was loaded, and a later grant passed the check. */
  predicate Clean(d: Delivery) {
    d.gate >= d.completed && (d.completed > 0 ==> d.grantAfter.Some? && d.grantAfter.value >= d.completed)
  }

  ghost predicate Guarded(s: State) {
    && (forall p :: p in s.publishers ==> Gated(s, s.publishers[p]))
    && (forall p :: p in s.publishers && s.publishers[p].Sending? ==> CheckedAfter(s.publishers[p]))
    && (forall i :: 0 <= i < |s.delivered| ==> Clean(s.delivered[i]))
    && (s.deciding.Swapped? ==> s.deciding.previous + 1 == s.gate)
    && (forall g :: g in s.cancelled ==> g < s.gate)
    && s.gate == s.completed + (if s.deciding.Swapped? then 1 else 0)
    && (s.deciding != Nobody ==> s.denied)
    && (!s.denied && s.gate > 0 ==> s.grantAfter == Some(s.gate))
  }

  lemma GuardedStep(s: State, step: Step)
    requires Guarded(s)
    ensures Guarded(Next(s, step))
  {
  }

  /**
   The publish gate. For every interleaving: a publish that ends neither refused nor cancelled loaded
   its gate after every denial completed by then, and passed its re-check under a later grant.
   */
  lemma {:induction false} NoPublishPastADenial(s: State, steps: seq<Step>)
    requires Start(s)
    ensures var e := Run(s, steps); Guarded(e) && forall i :: 0 <= i < |e.delivered| ==> Clean(e.delivered[i])
  {
    hide Next;
    if steps != [] {
      NoPublishPastADenial(s, steps[..|steps| - 1]);
      GuardedStep(Run(s, steps[..|steps| - 1]), steps[|steps| - 1]);
    }
  }

  // ---------------------------------------------------------------- which publish is delivered

  /** Gates are cancelled one by one, each by the denial that swapped it. */
  ghost predicate InTurn(s: State) {
    Guarded(s) && forall g :: g in s.cancelled <==> 0 <= g < s.completed
  }

  predicate Mentions(step: Step, p: nat) {
    step == LoadGate(p) || step == CheckConsent(p) || step == Finish(p)
  }

  lemma InTurnStep(s: State, step: Step)
    requires InTurn(s)
    ensures InTurn(Next(s, step))
  {
    GuardedStep(s, step);
    hide Gated, CheckedAfter, Clean;
  }

  /** The other publishers and the denials leave a publisher's own state alone. */
  lemma {:induction false} Aside(s: State, steps: seq<Step>, p: nat)
    requires InTurn(s) && forall i :: 0 <= i < |steps| ==> !Mentions(steps[i], p)
    ensures var e := Run(s, steps);
            && InTurn(e)
            && (p in e.publishers <==> p in s.publishers) && (p in s.publishers ==> e.publishers[p] == s.publishers[p])
  {
    if steps != [] {
      var front, step := steps[..|steps| - 1], steps[|steps| - 1];
      Aside(s, front, p);
      InTurnStep(Run(s, front), step);
      AsideStep(Run(s, front), step, p);
      hide Next, InTurn;
    }
  }

  lemma AsideStep(s: State, step: Step, p: nat)
    requires !Mentions(step, p)
    ensures var t := Next(s, step);
            (p in t.publishers <==> p in s.publishers) && (p in s.publishers ==> t.publishers[p] == s.publishers[p])
  {
  }

  lemma {:induction false} InTurnRun(s: State, steps: seq<Step>)
    requires Start(s)
    ensures InTurn(Run(s, steps))
  {
    hide Next;
    if steps != [] {
      InTurnRun(s, steps[..|steps| - 1]);
      InTurnStep(Run(s, steps[..|steps| - 1]), steps[|steps| - 1]);
    }
  }

  lemma DeliveredFrom(s: State, p: nat, toCheck: seq<Step>, toEnd: seq<Step>)
    requires InTurn(s) && p !in s.publishers
    requires forall i :: 0 <= i < |toCheck| ==> !Mentions(toCheck[i], p)
    requires forall i :: 0 <= i < |toEnd| ==> !Mentions(toEnd[i], p)
    ensures var checked := Run(Next(s, LoadGate(p)), toCheck);
            var ending := Run(Next(checked, CheckConsent(p)), toEnd);
            Next(ending, Finish(p)).delivered ==
              if !checked.denied && ending.completed <= s.gate
              then ending.delivered + [Delivery(s.gate, checked.grantAfter, ending.completed)] else ending.delivered
  {
    var loaded := Next(s, LoadGate(p));
    InTurnStep(s, LoadGate(p));
    Aside(loaded, toCheck, p);
    var checked := Run(loaded, toCheck);
    InTurnStep(checked, CheckConsent(p));
    Aside(Next(checked, CheckConsent(p)), toEnd, p);
    Loads(s, p);
    Rechecks(checked, p, s.gate);
    Ends(Run(Next(checked, CheckConsent(p)), toEnd), p, s.gate, checked.grantAfter);
    hide Run, Next, InTurn, Mentions;
  }

  lemma Loads(s: State, p: nat)
    requires p !in s.publishers
    ensures var t := Next(s, LoadGate(p)); p in t.publishers && t.publishers[p] == Loaded(s.gate)
  {
  }

  lemma Rechecks(s: State, p: nat, gate: nat)
    requires p in s.publishers && s.publishers[p] == Loaded(gate)
    ensures var t := Next(s, CheckConsent(p));
            if s.denied then p !in t.publishers else p in t.publishers && t.publishers[p] == Sending(gate, s.grantAfter)
  {
  }

  lemma Ends(s: State, p: nat, gate: nat, grantAfter: Option<nat>)
    requires InTurn(s) && (p in s.publishers ==> s.publishers[p] == Sending(gate, grantAfter))
    ensures Next(s, Finish(p)).delivered ==
              if p in s.publishers && s.completed <= gate then s.delivered + [Delivery(gate, grantAfter, s.completed)] else s.delivered
  {
    hide Guarded;
  }

  /**
   Whatever runs before it and between its sections, a publish is delivered exactly when consent stood at its
   re-check and no denial that swapped the gate it loaded has completed by its end; else it is refused or cancelled.
   */
  lemma DeliveredExactly(start: State, before: seq<Step>, p: nat, toCheck: seq<Step>, toEnd: seq<Step>)
    requires Start(start) && p !in Run(start, before).publishers
    requires forall i :: 0 <= i < |toCheck| ==> !Mentions(toCheck[i], p)
    requires forall i :: 0 <= i < |toEnd| ==> !Mentions(toEnd[i], p)
    ensures var s := Run(start, before);
            var checked := Run(Next(s, LoadGate(p)), toCheck);
            var ending := Run(Next(checked, CheckConsent(p)), toEnd);
            Next(ending, Finish(p)).delivered ==
              if !checked.denied && ending.completed <= s.gate
              then ending.delivered + [Delivery(s.gate, checked.grantAfter, ending.completed)] else ending.delivered
  {
    hide *;
    InTurnRun(start, before);
    DeliveredFrom(Run(start, before), p, toCheck, toEnd);
  }
}
