/**
 From a handle's owed record to the wire: when a hand-off lets a pending or withdrawn fact into
 the queue, what stops it there, and what every fact sent has behind it.
 */
module SubjectHandoff {
  import opened Basics
  import opened SubjectHandle

  // ---------------------------------------------------------------- pending declarations over a run

  lemma RunOnward(h: Handle, steps: seq<Step>, step: Step)
    ensures Run(h, steps + [step]) == Next(Run(h, steps), step)
  {
    hide Next;
    assert (steps + [step])[..|steps|] == steps;
  }

  predicate Declares(step: Step, key: string) {
    step == Begin(key, NonAdult)
  }

  /** An adult declaration, the platform's withdrawal, or the end of the fetch whose declaration stands. */
  predicate Clears(h: Handle, step: Step, key: string) {
    match step
    case Begin(k, band) => k == key && band == Adult
    case Sentinel => true
    case End(n) => n in h.fetches && h.fetches[n].declares && h.fetches[n].key == key && key in h.declaring && h.declaring[key].seqNo == n
    case _ => false
  }

  lemma PendingStep(h: Handle, step: Step, key: string)
    ensures key in Next(h, step).declaring <==> Declares(step, key) || (key in h.declaring && !Clears(h, step, key))
  {
    hide Applied, WithdrawAge, Recording, Sending;
    if step.Answered? {
      if step.n in h.fetches { AppliedEffects(h, step.n, h.fetches[step.n].key, step.answer, step.fences); }
    } else if step.Begin? { BeginEffects(h, step.key, step.band); hide Next; }
    else if step.End? { if step.n in h.fetches { EndEffects(h, step.n); } else { EndNothing(h, step.n); } hide Next; }
    else { OtherPending(h, step); hide Next; }
  }

  lemma OtherPending(h: Handle, step: Step)
    requires !step.Answered? && !step.Begin? && !step.End?
    ensures Next(h, step).declaring == if step.Sentinel? then map[] else h.declaring
  {
    if Recording(step) { RecordingCore(h, step); hide Next; }
  }

  /** Some step of the run declares for the key, and none after it clears that. */
  ghost predicate DeclaredDuring(h: Handle, steps: seq<Step>, key: string) {
    exists i :: 0 <= i < |steps| && Declares(steps[i], key) && Standing(h, steps, i + 1, key)
  }

  ghost predicate Standing(h: Handle, steps: seq<Step>, from: nat, key: string) {
    forall j :: from <= j < |steps| ==> !Clears(Run(h, steps[..j]), steps[j], key)
  }

  lemma StandingFront(h: Handle, steps: seq<Step>, from: nat, key: string)
    requires steps != [] && from <= |steps| - 1
    ensures var front := steps[..|steps| - 1];
            Standing(h, steps, from, key) <==> Standing(h, front, from, key) && !Clears(Run(h, front), steps[|front|], key)
  {
    hide Run, Clears;
    var front := steps[..|steps| - 1];
    assert forall j :: 0 <= j < |front| ==> steps[..j] == front[..j] && steps[j] == front[j];
    assert steps[..|front|] == front;
  }

  /** The steps alone decide what is pending. */
  lemma {:induction false} PendingExactly(h: Handle, steps: seq<Step>, key: string)
    ensures key in Run(h, steps).declaring
            <==> DeclaredDuring(h, steps, key) || (key in h.declaring && Standing(h, steps, 0, key))
  {
    if steps == [] {
      assert Standing(h, steps, 0, key);
    } else {
      hide *;
      PendingExactly(h, steps[..|steps| - 1], key);
      PendingOnward(h, steps, key);
    }
  }

  lemma PendingOnward(h: Handle, steps: seq<Step>, key: string)
    requires steps != []
    ensures var front := steps[..|steps| - 1];
            (key in Run(h, front).declaring <==> DeclaredDuring(h, front, key) || (key in h.declaring && Standing(h, front, 0, key)))
            ==> (key in Run(h, steps).declaring <==> DeclaredDuring(h, steps, key) || (key in h.declaring && Standing(h, steps, 0, key)))
  {
    var front, step := steps[..|steps| - 1], steps[|steps| - 1];
    hide *;
    RunOnward(h, front, step);
    assert front + [step] == steps;
    PendingStep(Run(h, front), step, key);
    StandingFront(h, steps, 0, key);
    DeclaredFront(h, steps, key);
  }

  lemma DeclaredFront(h: Handle, steps: seq<Step>, key: string)
    requires steps != []
    ensures var front := steps[..|steps| - 1];
            DeclaredDuring(h, steps, key) <==>
              Declares(steps[|front|], key) || (DeclaredDuring(h, front, key) && !Clears(Run(h, front), steps[|front|], key))
  {
    hide Run, Clears, Declares, Standing;
    var front := steps[..|steps| - 1];
    forall i | 0 <= i < |front| ensures steps[i] == front[i] && (Standing(h, steps, i + 1, key) <==>
        Standing(h, front, i + 1, key) && !Clears(Run(h, front), steps[|front|], key)) {
      StandingFront(h, steps, i + 1, key);
    }
    assert Standing(h, steps, |front| + 1, key) by { StandingEnd(h, steps, key); }
    if DeclaredDuring(h, steps, key) {
      var i :| 0 <= i < |steps| && Declares(steps[i], key) && Standing(h, steps, i + 1, key);
      if i < |front| { assert Declares(front[i], key) && Standing(h, front, i + 1, key); }
    }
    if DeclaredDuring(h, front, key) && !Clears(Run(h, front), steps[|front|], key) {
      var i :| 0 <= i < |front| && Declares(front[i], key) && Standing(h, front, i + 1, key);
      assert Declares(steps[i], key) && Standing(h, steps, i + 1, key);
    }
  }

  lemma StandingEnd(h: Handle, steps: seq<Step>, key: string)
    ensures Standing(h, steps, |steps|, key)
  {
  }

  // ---------------------------------------------------------------- the hand-off's open section

  /** The head check lets the oldest record through. */
  predicate Passes(h: Handle) {
    h.out.handing.None? && h.granted && h.owed != [] && h.owed[0].key !in h.declaring
  }

  function HeadFact(h: Handle): Fact
    requires h.owed != []
  {
    Fact(h.owed[0].key, h.withdrawSeq, h.owed[0].serial)
  }

  function FactOf(g: Handing): Fact {
    Fact(g.record.key, g.stamp, g.record.serial)
  }

  /** Only the sending steps touch what is on its way out, and none of the others denies while a hand-off is under way. */
  lemma OutKept(h: Handle, step: Step)
    requires !Sending(step)
    ensures var t := Next(h, step); t.out == h.out && (h.out.handing.Some? ==> t.granted == h.granted && t.deniedAt == h.deniedAt)
  {
    hide WithoutKey, ExposedElsewhere;
    if step.Apply? { ApplyKeeps(h, step.key, step.blocked, step.recordable); hide ApplyVariant; }
    else if step.Outcome? { OutcomeKeeps(h, step.key); hide TrackOutcome; }
    else if step.Answered? {
      if step.n in h.fetches { AppliedKeeps(h, step.n, h.fetches[step.n].key, step.answer, step.fences); }
      hide Applied;
    } else if step.End? && step.n in h.fetches { EndKeeps(h, step.n); hide EndDeclaration, Next; }
    else if step.Begin? { BeginKeeps(h, step.key, step.band); hide BeginDeclaration, Next; }
  }

  lemma ApplyKeeps(h: Handle, key: string, blocked: bool, recordable: bool)
    ensures var t := ApplyVariant(h, key, blocked, recordable); t.out == h.out && t.granted == h.granted && t.deniedAt == h.deniedAt
  {
    hide AppendOwed, ServedEntry;
  }

  lemma OutcomeKeeps(h: Handle, key: string)
    ensures var t := TrackOutcome(h, key); t.out == h.out && t.granted == h.granted && t.deniedAt == h.deniedAt
  {
    hide AppendOwed;
  }

  lemma GapStep(h: Handle, step: Step)
    requires h.out.handing.Some? && !h.out.handing.value.judged && !step.Enqueue?
    ensures var t := Next(h, step);
            t.out.handing == h.out.handing && t.granted == h.granted && t.deniedAt == h.deniedAt
  {
    if !Sending(step) { OutKept(h, step); hide Next; }
    else {
      SendingOutward(h, step);
      assert Next(h, step).out.handing == h.out.handing by {
        hide FactWithdrawn, RemoveAt, Outward;
        if step.Vet? { VetKeeps(h, step.i); hide VetFact; }
        if step.Release? { ReleaseKeeps(h, step.i); hide ReleaseFact; }
      }
      hide Next;
    }
  }

  lemma AppliedKeeps(h: Handle, n: nat, key: string, a: Answer, f: Fences)
    ensures var t := Applied(h, n, key, a, f).0; t.out == h.out && t.granted == h.granted && t.deniedAt == h.deniedAt
  {
    hide WithoutKey;
    RaiseEffects(h, key, n);
    RaiseEffects(WithdrawAll(h.(rejected := true)), key, n);
    hide Raise;
  }

  lemma EndKeeps(h: Handle, n: nat)
    requires n in h.fetches
    ensures var t := Next(h, End(n)); t.out == h.out && t.granted == h.granted && t.deniedAt == h.deniedAt
  {
    hide WithoutKey;
  }

  lemma BeginKeeps(h: Handle, key: string, band: Band)
    ensures var t := Next(h, Begin(key, band)); t.out == h.out && t.granted == h.granted && t.deniedAt == h.deniedAt
  {
  }

  lemma VetKeeps(h: Handle, i: nat)
    ensures VetFact(h, i).handing == h.out.handing
  {
  }

  lemma ReleaseKeeps(h: Handle, i: nat)
    ensures ReleaseFact(h, i).handing == h.out.handing
  {
  }

  lemma {:induction false} GapRun(h: Handle, gap: seq<Step>)
    requires h.out.handing.Some? && !h.out.handing.value.judged
    requires forall i :: 0 <= i < |gap| ==> !gap[i].Enqueue?
    ensures var e := Run(h, gap); e.out.handing == h.out.handing && e.granted == h.granted && e.deniedAt == h.deniedAt
  {
    hide Next;
    if gap != [] {
      GapRun(h, gap[..|gap| - 1]);
      GapStep(Run(h, gap[..|gap| - 1]), gap[|gap| - 1]);
    }
  }

  /**
   Between its head check and the queue the hand-off holds no lock a declaration or an age refusal takes.
   Whatever the other goroutines do in the gap, the fact that enters the queue is under a pending declaration
   exactly when one was begun in the gap and stands, it is already withdrawn exactly when its experiment was
   withdrawn in the gap, and no denial of its player came between.
   */
  lemma EnqueuedExactly(h: Handle, gap: seq<Step>)
    requires Stamped(h) && Passes(h)
    requires forall i :: 0 <= i < |gap| ==> !gap[i].Enqueue?
    ensures var c, f := Next(h, Check), HeadFact(h);
            var e := Run(c, gap);
            var q := Next(e, Enqueue(Accepted));
            && q.out.queued == e.out.queued + [f]
            && (f.key in q.declaring <==> DeclaredDuring(c, gap, f.key))
            && (FactWithdrawn(q, f) <==> WithdrawnDuring(c, gap, f.key))
            && q.granted && q.deniedAt == h.deniedAt
  {
    var c, f := Next(h, Check), HeadFact(h);
    Passed(h);
    hide Next, Run, Stamped, DeclaredDuring, WithdrawnDuring, HeadFact;
    GapRun(c, gap);
    PendingExactly(c, gap, f.key);
    WithheldExactlyAfterWithdrawal(c, gap, f);
    EnqueueOnly(Run(c, gap), f);
  }

  lemma Passed(h: Handle)
    requires Passes(h)
    ensures var c, f := Next(h, Check), HeadFact(h);
            && c.out.handing.Some? && !c.out.handing.value.judged && FactOf(c.out.handing.value) == f
            && c.granted && c.deniedAt == h.deniedAt && f.key !in c.declaring && f.stamp == c.withdrawSeq
            && (Stamped(h) ==> Stamped(c))
  {
  }

  lemma EnqueueOnly(e: Handle, f: Fact)
    requires e.out.handing.Some? && !e.out.handing.value.judged && FactOf(e.out.handing.value) == f
    ensures var q := Next(e, Enqueue(Accepted));
            && q.out.queued == e.out.queued + [f]
            && q.declaring == e.declaring && q.granted == e.granted && q.deniedAt == e.deniedAt
            && (FactWithdrawn(q, f) <==> FactWithdrawn(e, f))
  {
  }

  // ---------------------------------------------------------------- what every fact sent has behind it

  /** Step `i` checks the head of which `f` is the fact. */
  predicate CheckedAt(h: Handle, steps: seq<Step>, i: nat, f: Fact) {
    i < |steps| && steps[i] == Check && Passes(Run(h, steps[..i])) && f == HeadFact(Run(h, steps[..i]))
  }

  /** Step `j` is the withdrawal check of an attempt, and lets the fact pass. */
  predicate VettedAt(h: Handle, steps: seq<Step>, j: nat, f: Fact) {
    j < |steps| && steps[j].Vet? &&
    var p := Run(h, steps[..j]);
    steps[j].i < |p.out.queued| && p.out.queued[steps[j].i] == f && !FactWithdrawn(p, f)
  }

  /** Step `k` sends it, with no declaration of its experiment pending. */
  predicate ReleasedAt(h: Handle, steps: seq<Step>, k: nat, f: Fact) {
    k < |steps| && steps[k].Release? &&
    var p := Run(h, steps[..k]);
    steps[k].i < |p.out.vetted| && p.out.vetted[steps[k].i] == f && f.key !in p.declaring
  }

  ghost predicate WasChecked(h: Handle, steps: seq<Step>, to: nat, f: Fact) {
    exists i :: 0 <= i < to && CheckedAt(h, steps, i, f)
  }

  ghost predicate WasVetted(h: Handle, steps: seq<Step>, to: nat, f: Fact) {
    exists j :: 0 <= j < to && VettedAt(h, steps, j, f) && WasChecked(h, steps, j, f)
  }

  ghost predicate WasReleased(h: Handle, steps: seq<Step>, to: nat, f: Fact) {
    exists k :: 0 <= k < to && ReleasedAt(h, steps, k, f) && WasVetted(h, steps, k, f)
  }

  /** Everything on its way out has its history among the first `to` steps. */
  ghost predicate Traced(h: Handle, steps: seq<Step>, to: nat, out: Outgoing) {
    && (out.handing.Some? ==> WasChecked(h, steps, to, FactOf(out.handing.value)))
    && (forall f :: f in out.queued ==> WasChecked(h, steps, to, f))
    && (forall f :: f in out.vetted ==> WasVetted(h, steps, to, f))
    && (forall f :: f in out.sent ==> WasReleased(h, steps, to, f))
  }

  ghost predicate Histories(h: Handle, steps: seq<Step>) {
    Traced(h, steps, |steps|, Run(h, steps).out)
  }

  /** What happened in the front of a run happened in the run. */
  lemma Longer(h: Handle, steps: seq<Step>, f: Fact)
    requires steps != []
    ensures var front := steps[..|steps| - 1];
            && (forall to :: 0 <= to <= |front| && WasChecked(h, front, to, f) ==> WasChecked(h, steps, to, f))
            && (forall to :: 0 <= to <= |front| && WasVetted(h, front, to, f) ==> WasVetted(h, steps, to, f))
            && (forall to :: 0 <= to <= |front| && WasReleased(h, front, to, f) ==> WasReleased(h, steps, to, f))
  {
    var front := steps[..|steps| - 1];
    forall i | 0 <= i < |front| ensures steps[..i] == front[..i] && steps[i] == front[i] {}
    forall i | 0 <= i < |front| ensures
      && (CheckedAt(h, front, i, f) ==> CheckedAt(h, steps, i, f))
      && (VettedAt(h, front, i, f) ==> VettedAt(h, steps, i, f))
      && (ReleasedAt(h, front, i, f) ==> ReleasedAt(h, steps, i, f)) { hide Run, FactWithdrawn, Passes; }
    hide CheckedAt, VettedAt, ReleasedAt;
  }

  lemma TracedLonger(h: Handle, steps: seq<Step>)
    requires steps != [] && Histories(h, steps[..|steps| - 1])
    ensures Traced(h, steps, |steps| - 1, Run(h, steps[..|steps| - 1]).out)
  {
    var front := steps[..|steps| - 1];
    forall f ensures
      && (WasChecked(h, front, |front|, f) ==> WasChecked(h, steps, |front|, f))
      && (WasVetted(h, front, |front|, f) ==> WasVetted(h, steps, |front|, f))
      && (WasReleased(h, front, |front|, f) ==> WasReleased(h, steps, |front|, f)) { Longer(h, steps, f); }
    hide Run, WasChecked, WasVetted, WasReleased;
  }

  /** The last step of a run, at a state whose outgoing facts are traced. */
  predicate Last(h: Handle, steps: seq<Step>, p: Handle) {
    steps != [] && p == Run(h, steps[..|steps| - 1])
  }

  lemma CheckTraced(h: Handle, steps: seq<Step>, p: Handle)
    requires Last(h, steps, p) && steps[|steps| - 1] == Check && Traced(h, steps, |steps| - 1, p.out)
    ensures Traced(h, steps, |steps|, CheckHead(p))
  {
    hide Run;
    if Passes(p) { assert CheckedAt(h, steps, |steps| - 1, HeadFact(p)); }
    hide CheckedAt, VettedAt, ReleasedAt;
  }

  lemma RemoveAtIn(facts: seq<Fact>, i: nat)
    requires i < |facts|
    ensures forall f :: f in RemoveAt(facts, i) ==> f in facts
  {
  }

  lemma VetTraced(h: Handle, steps: seq<Step>, p: Handle, i: nat)
    requires Last(h, steps, p) && steps[|steps| - 1] == Vet(i) && Traced(h, steps, |steps| - 1, p.out)
    ensures Traced(h, steps, |steps|, VetFact(p, i))
  {
    hide Run, FactWithdrawn;
    if i < |p.out.queued| { RemoveAtIn(p.out.queued, i); assert p.out.queued[i] in p.out.queued; }
    hide RemoveAt;
    if i < |p.out.queued| && !FactWithdrawn(p, p.out.queued[i]) { assert VettedAt(h, steps, |steps| - 1, p.out.queued[i]); }
    hide CheckedAt, VettedAt, ReleasedAt;
  }

  lemma ReleaseTraced(h: Handle, steps: seq<Step>, p: Handle, i: nat)
    requires Last(h, steps, p) && steps[|steps| - 1] == Release(i) && Traced(h, steps, |steps| - 1, p.out)
    ensures Traced(h, steps, |steps|, ReleaseFact(p, i))
  {
    hide Run;
    if i < |p.out.vetted| {
      var f := p.out.vetted[i];
      RemoveAtIn(p.out.vetted, i);
      hide RemoveAt;
      assert f in p.out.vetted;
      assert WasVetted(h, steps, |steps| - 1, f);
      if f.key !in p.declaring { assert ReleasedAt(h, steps, |steps| - 1, f); }
    }
    hide CheckedAt, VettedAt, ReleasedAt;
  }

  lemma EnqueueTraced(h: Handle, steps: seq<Step>, to: nat, out: Outgoing, v: Verdict)
    requires Traced(h, steps, to, out)
    ensures Traced(h, steps, to, EnqueueFact(out, v)) && Traced(h, steps, to, HandedOff(out))
  {
    hide WasChecked, WasVetted, WasReleased;
  }

  lemma TracedOnward(h: Handle, steps: seq<Step>, to: nat, out: Outgoing)
    requires Traced(h, steps, to, out)
    ensures Traced(h, steps, to + 1, out)
  {
    hide CheckedAt, VettedAt, ReleasedAt;
  }

  lemma HistoriesStep(h: Handle, steps: seq<Step>)
    requires steps != [] && Histories(h, steps[..|steps| - 1])
    ensures Histories(h, steps)
  {
    var n, step := |steps| - 1, steps[|steps| - 1];
    var p := Run(h, steps[..n]);
    TracedLonger(h, steps);
    assert Run(h, steps) == Next(p, step);
    hide Run, Traced, CheckHead, EnqueueFact, HandedOff, VetFact, ReleaseFact;
    match step
    case Check => CheckTraced(h, steps, p);
    case Vet(i) => VetTraced(h, steps, p, i);
    case Release(i) => ReleaseTraced(h, steps, p, i);
    case Enqueue(v) => EnqueueTraced(h, steps, n, p.out, v); TracedOnward(h, steps, n, EnqueueFact(p.out, v));
    case Remove => EnqueueTraced(h, steps, n, p.out, TooLarge); TracedOnward(h, steps, n, HandedOff(p.out));
    case _ => OutKept(p, step); hide Next; TracedOnward(h, steps, n, p.out);
  }

  lemma {:induction false} HistoriesRun(h: Handle, steps: seq<Step>)
    requires Start(h)
    ensures Histories(h, steps)
  {
    if steps != [] {
      HistoriesRun(h, steps[..|steps| - 1]);
      HistoriesStep(h, steps);
    }
  }

  lemma {:induction false} RunSplit(h: Handle, a: seq<Step>, b: seq<Step>)
    ensures Run(h, a + b) == Run(Run(h, a), b)
  {
    hide Next;
    if b == [] { assert a + b == a; }
    else {
      assert (a + b)[..|a + b| - 1] == a + b[..|b| - 1];
      RunSplit(h, a, b[..|b| - 1]);
    }
  }

  lemma {:induction false} StampedRun(h: Handle, steps: seq<Step>)
    requires Stamped(h)
    ensures Stamped(Run(h, steps))
  {
    hide Next, Stamped;
    if steps != [] {
      StampedRun(h, steps[..|steps| - 1]);
      WithdrawalStamps(Run(h, steps[..|steps| - 1]), steps[|steps| - 1], "");
    }
  }

  /** The withdrawal check at `j` of a fact checked at `i` asks for the withdrawals in between. */
  lemma WithdrawnSince(h: Handle, steps: seq<Step>, i: nat, j: nat, f: Fact)
    requires Start(h) && CheckedAt(h, steps, i, f) && i <= j <= |steps|
    ensures FactWithdrawn(Run(h, steps[..j]), f) <==> WithdrawnDuring(Run(h, steps[..i]), steps[i..j], f.key)
  {
    StampedRun(h, steps[..i]);
    assert steps[..i] + steps[i..j] == steps[..j];
    RunSplit(h, steps[..i], steps[i..j]);
    assert f.stamp == Run(h, steps[..i]).withdrawSeq;
    hide Run, Stamped, FactWithdrawn, WithdrawnDuring;
    WithheldExactlyAfterWithdrawal(Run(h, steps[..i]), steps[i..j], f);
  }

  /**
   A fact sent was checked as the head of its player's granted records, no declaration pending; passed the
   withdrawal check of an attempt, no withdrawal of its experiment by then; and was released in that attempt
   with no declaration pending. It is withdrawn at the send exactly when that came between the last two.
   */
  lemma SentFacts(h: Handle, steps: seq<Step>, f: Fact) returns (i: nat, j: nat, k: nat)
    requires Start(h) && f in Run(h, steps).out.sent
    ensures i < j < k < |steps| && CheckedAt(h, steps, i, f) && VettedAt(h, steps, j, f) && ReleasedAt(h, steps, k, f)
    ensures f.key !in Run(h, steps[..i]).declaring && Run(h, steps[..i]).granted
    ensures !WithdrawnDuring(Run(h, steps[..i]), steps[i..j], f.key)
    ensures f.key !in Run(h, steps[..k]).declaring
    ensures FactWithdrawn(Run(h, steps[..k]), f) <==> WithdrawnDuring(Run(h, steps[..j]), steps[j..k], f.key)
  {
    HistoriesRun(h, steps);
    k :| 0 <= k < |steps| && ReleasedAt(h, steps, k, f) && WasVetted(h, steps, k, f);
    j :| 0 <= j < k && VettedAt(h, steps, j, f) && WasChecked(h, steps, j, f);
    i :| 0 <= i < j && CheckedAt(h, steps, i, f);
    WithdrawnSince(h, steps, i, j, f);
    WithdrawnSince(h, steps, i, k, f);
    WithdrawnSplit(h, steps, i, j, k, f.key);
  }

  lemma WithdrawnSplit(h: Handle, steps: seq<Step>, i: nat, j: nat, k: nat, key: string)
    requires i <= j <= k <= |steps|
    ensures WithdrawnDuring(Run(h, steps[..i]), steps[i..k], key)
            <==> WithdrawnDuring(Run(h, steps[..i]), steps[i..j], key) || WithdrawnDuring(Run(h, steps[..j]), steps[j..k], key)
  {
    During(h, steps, i, j, key);
    During(h, steps, i, k, key);
    During(h, steps, j, k, key);
    hide WithdrawnDuring, Withdraws, Run;
  }

  lemma During(h: Handle, steps: seq<Step>, i: nat, k: nat, key: string)
    requires i <= k <= |steps|
    ensures WithdrawnDuring(Run(h, steps[..i]), steps[i..k], key) <==> exists m :: i <= m < k && Withdraws(Run(h, steps[..m]), steps[m], key)
  {
    forall m | i <= m < k
      ensures Run(h, steps[..m]) == Run(Run(h, steps[..i]), steps[i..k][..m - i]) && steps[m] == steps[i..k][m - i]
    {
      assert steps[..i] + steps[i..k][..m - i] == steps[..m];
      RunSplit(h, steps[..i], steps[i..k][..m - i]);
    }
    hide Withdraws, Run;
    var c, gap := Run(h, steps[..i]), steps[i..k];
    if m :| i <= m < k && Withdraws(Run(h, steps[..m]), steps[m], key) {
      assert Withdraws(Run(c, gap[..m - i]), gap[m - i], key);
    }
    if WithdrawnDuring(c, gap, key) {
      var m :| 0 <= m < |gap| && Withdraws(Run(c, gap[..m]), gap[m], key);
      assert gap[..m] == steps[i..k][..i + m - i] && Withdraws(Run(h, steps[..i + m]), steps[i + m], key);
    }
  }

  /** The next withdrawal check drops a queued fact exactly when its experiment was withdrawn since its head check. */
  lemma DroppedExactly(h: Handle, steps: seq<Step>, q: nat) returns (i: nat)
    requires Start(h) && q < |Run(h, steps).out.queued|
    ensures var p, f := Run(h, steps), Run(h, steps).out.queued[q];
            && i < |steps| && CheckedAt(h, steps, i, f)
            && Next(p, Vet(q)).out.queued == RemoveAt(p.out.queued, q)
            && Next(p, Vet(q)).out.vetted ==
                 if WithdrawnDuring(Run(h, steps[..i]), steps[i..], f.key) then p.out.vetted else p.out.vetted + [f]
  {
    var p, f := Run(h, steps), Run(h, steps).out.queued[q];
    hide *;
    assert f in p.out.queued;
    i := QueuedChecked(h, steps, f);
    assert i <= |steps|;
    WithdrawnSince(h, steps, i, |steps|, f);
    assert steps[..|steps|] == steps && steps[i..|steps|] == steps[i..];
    VetOut(p, q);
  }

  lemma VetOut(p: Handle, q: nat)
    requires q < |p.out.queued|
    ensures var t, f := Next(p, Vet(q)).out, p.out.queued[q];
            t.queued == RemoveAt(p.out.queued, q) && t.vetted == if FactWithdrawn(p, f) then p.out.vetted else p.out.vetted + [f]
  {
    hide RemoveAt, FactWithdrawn;
  }

  lemma QueuedChecked(h: Handle, steps: seq<Step>, f: Fact) returns (i: nat)
    requires Start(h) && f in Run(h, steps).out.queued
    ensures i < |steps| && CheckedAt(h, steps, i, f)
  {
    HistoriesRun(h, steps);
    hide Run, CheckedAt;
    assert WasChecked(h, steps, |steps|, f);
    i :| 0 <= i < |steps| && CheckedAt(h, steps, i, f);
  }

  // ---------------------------------------------------------------- a whole period of a pending declaration

  ghost predicate PendingThroughout(h: Handle, steps: seq<Step>, key: string) {
    forall i :: 0 <= i <= |steps| ==> key in Run(h, steps[..i]).declaring
  }

  /** The fact is being handed off, queued or in an attempt. */
  predicate Outbound(out: Outgoing, f: Fact) {
    (out.handing.Some? && f == FactOf(out.handing.value)) || f in out.queued || f in out.vetted
  }

  /** Nothing age-gated of the experiment was recorded, no fact of it set out and none was sent. */
  ghost predicate Quiet(h: Handle, t: Handle, key: string) {
    && (forall r :: r in t.owed && r.key == key && r.entry.gated ==> r in h.owed)
    && (key in t.lastApplied && t.lastApplied[key].gated ==> key in h.lastApplied && t.lastApplied[key] == h.lastApplied[key])
    && (forall f: Fact :: f.key == key && Outbound(t.out, f) ==> Outbound(h.out, f))
    && h.out.sent <= t.out.sent && (forall i :: |h.out.sent| <= i < |t.out.sent| ==> t.out.sent[i].key != key)
  }

  predicate Fewer(h: Handle, t: Handle) {
    && (forall r :: r in t.owed ==> r in h.owed)
    && (forall k :: k in t.lastApplied ==> k in h.lastApplied && t.lastApplied[k] == h.lastApplied[k])
  }

  lemma FewerWithoutAge(h: Handle, key: string, dropEntry: bool)
    ensures Fewer(h, WithdrawAge(h, key, dropEntry))
  {
    WithoutKeyIn(h.owed, key);
    hide WithoutKey, ExposedElsewhere;
  }

  lemma FewerApplied(h: Handle, n: nat, key: string, a: Answer, f: Fences)
    ensures Fewer(h, Applied(h, n, key, a, f).0)
  {
    WithoutKeyIn(h.owed, key);
    RaiseEffects(h, key, n);
    RaiseEffects(WithdrawAll(h.(rejected := true)), key, n);
    hide Raise, WithoutKey, ExposedElsewhere;
  }

  lemma FewerEnd(h: Handle, n: nat)
    ensures Fewer(h, Next(h, End(n)))
  {
    if n in h.fetches {
      FewerEnded(h.(fetches := h.fetches - {n}), h.fetches[n].key, n);
      hide EndDeclaration;
    }
  }

  lemma FewerEnded(h: Handle, key: string, n: nat)
    ensures Fewer(h, EndDeclaration(h, key, n))
  {
    hide WithdrawAge, Raise;
    if key in h.declaring {
      var d := h.declaring[key];
      var ended := h.(declaring := h.declaring - {key});
      RaiseEffects(ended, key, d.fence);
      FewerWithoutAge(Raise(ended, key, d.fence), key, true);
      FewerWithoutAge(Raise(ended, key, d.fence), key, false);
    }
  }

  lemma FewerBegin(h: Handle, key: string, band: Band)
    ensures Fewer(h, Next(h, Begin(key, band)))
  {
  }

  lemma FewerStep(h: Handle, step: Step)
    requires !step.Apply? && !step.Outcome? && !Sending(step)
    ensures Fewer(h, Next(h, step))
  {
    hide Applied, WithdrawAge, EndDeclaration, BeginDeclaration;
    match step
    case Answered(n, a, f) => if n in h.fetches { FewerApplied(h, n, h.fetches[n].key, a, f); }
    case End(n) => FewerEnd(h, n);
    case Begin(k, b) => FewerBegin(h, k, b);
    case SealRefused(k) => FewerWithoutAge(h, k, true);
    case _ =>
  }

  lemma QuietRecording(h: Handle, step: Step, key: string)
    requires key in h.declaring && (step.Apply? || step.Outcome?)
    ensures Quiet(h, Next(h, step), key)
  {
    AppendOnly(h.owed, step.key);
    hide AppendOwed, Outbound;
  }

  lemma QuietCheck(h: Handle, key: string)
    requires key in h.declaring
    ensures Quiet(h, Next(h, Check), key)
  {
  }

  lemma QuietEnqueue(h: Handle, v: Verdict, key: string)
    ensures Quiet(h, Next(h, Enqueue(v)), key)
  {
  }

  lemma QuietRemove(h: Handle, key: string)
    ensures Quiet(h, Next(h, Remove), key)
  {
  }

  lemma QuietVet(h: Handle, i: nat, key: string)
    ensures Quiet(h, Next(h, Vet(i)), key)
  {
    if i < |h.out.queued| { RemoveAtIn(h.out.queued, i); assert h.out.queued[i] in h.out.queued; }
    hide RemoveAt, FactWithdrawn;
  }

  lemma QuietRelease(h: Handle, i: nat, key: string)
    requires key in h.declaring
    ensures Quiet(h, Next(h, Release(i)), key)
  {
    if i < |h.out.vetted| { RemoveAtIn(h.out.vetted, i); assert h.out.vetted[i] in h.out.vetted; }
    hide RemoveAt;
  }

  lemma QuietStep(h: Handle, step: Step, key: string)
    requires key in h.declaring
    ensures Quiet(h, Next(h, step), key)
  {
    if !step.Apply? && !step.Outcome? && !Sending(step) {
      FewerStep(h, step);
      OutKept(h, step);
      hide Next, Outbound;
    } else {
      hide Next, Quiet;
      match step
      case Check => QuietCheck(h, key);
      case Enqueue(v) => QuietEnqueue(h, v, key);
      case Remove => QuietRemove(h, key);
      case Vet(i) => QuietVet(h, i, key);
      case Release(i) => QuietRelease(h, i, key);
      case _ => QuietRecording(h, step, key);
    }
  }

  lemma QuietThen(h: Handle, m: Handle, t: Handle, key: string)
    requires Quiet(h, m, key) && Quiet(m, t, key)
    ensures Quiet(h, t, key)
  {
    hide Outbound;
    forall i | |h.out.sent| <= i < |t.out.sent| ensures t.out.sent[i].key != key {
      if i < |m.out.sent| { assert m.out.sent[i] == t.out.sent[i]; }
    }
  }

  /**
   As long as a non-adult declaration of an experiment stays pending, whatever else happens: no age-gated
   record of it joins the owed ones, no outcome gets an age-gated application to follow, no fact of it,
   age-gated or not, sets out, and none is sent, wherever it was on its way.
   */
  lemma {:induction false} PendingPeriod(h: Handle, steps: seq<Step>, key: string)
    requires PendingThroughout(h, steps, key)
    ensures Quiet(h, Run(h, steps), key)
  {
    if steps == [] {
    } else {
      var front := steps[..|steps| - 1];
      forall i | 0 <= i <= |front| ensures steps[..i] == front[..i] {}
      PendingPeriod(h, front, key);
      assert front[..|front|] == front && key in Run(h, front).declaring;
      QuietStep(Run(h, front), steps[|front|], key);
      hide Next, Quiet;
      QuietThen(h, Run(h, front), Run(h, steps), key);
    }
  }

  /** At every point of the period nothing age-gated is served, and no answer hands one out but the declaring fetch's own. */
  lemma PendingPeriodServes(h: Handle, steps: seq<Step>, key: string, i: nat, sameAttributes: bool, blocked: bool)
    requires PendingThroughout(h, steps, key) && i <= |steps|
    ensures var m := Run(h, steps[..i]); ServedEntry(m, key, blocked).Some? ==> !ServedEntry(m, key, blocked).value.gated
    ensures i < |steps| && steps[i].Answered? ==>
              var m, n := Run(h, steps[..i]), steps[i].n;
              n in m.fetches && !m.fetches[n].answered && m.fetches[n].key == key ==>
                var given := Result(m, n, steps[i].answer, steps[i].fences, sameAttributes, blocked);
                var declaring := Run(h, steps[..i + 1]).declaring;
                given.Some? && given.value.gated ==> key in declaring && declaring[key].seqNo == n && declaring[key].decided
  {
    var m := Run(h, steps[..i]);
    assert key in m.declaring;
    if i < |steps| && steps[i].Answered? && steps[i].n in m.fetches && !m.fetches[steps[i].n].answered && m.fetches[steps[i].n].key == key {
      RunOnward(h, steps[..i], steps[i]);
      assert steps[..i] + [steps[i]] == steps[..i + 1];
      assert key in Run(h, steps[..i + 1]).declaring;
      PendingAnswersNothingGated(m, steps[i].n, steps[i].answer, steps[i].fences, sameAttributes, blocked);
      hide Commit, Result, Run;
    }
  }

  // ---------------------------------------------------------------- the open sections, used

  const PLAYER := Handle(true, false, 0, map[], map[], map[], map[], {}, [], map[], 0, 0, 0, map[], Outgoing(None, [], [], []))
  const RECORDED: Entry := Entry(1, true, "a")
  const ASSIGNED: Answer := Assigned(true, "a")
  const HEAD: Owed := Owed("x", RECORDED, 0)
  const FACT: Fact := Fact("x", 0, 0)

  /** An age-gated application is recorded and its hand-off has checked the head. */
  const CHECKED: seq<Step> :=
    [Begin("x", NoBand), Answered(1, ASSIGNED, Fences(false, false)), End(1), Apply("x", false, true), Check]

  function Waiting(): Handle {
    PLAYER.(fetchSeq := 1, settled := map["x" := 1], entries := map["x" := RECORDED])
  }

  function Checked(): Handle {
    Waiting().(exposed := {("x", "a")}, owed := [HEAD], lastApplied := map["x" := RECORDED], serials := 1,
               out := Outgoing(Some(Handing(HEAD, 0, false)), [], [], []))
  }

  lemma ToWaiting()
    ensures Run(PLAYER, CHECKED[..3]) == Waiting()
  {
    var s1 := PLAYER.(fetchSeq := 1, fetches := map[1 := Fetch("x", false, false)]);
    var s2 := Waiting().(fetches := map[1 := Fetch("x", false, true)]);
    assert Next(PLAYER, CHECKED[0]) == s1;
    assert Next(s1, CHECKED[1]) == s2;
    assert Next(s2, CHECKED[2]) == Waiting();
    hide Next;
    RunOnward(PLAYER, [], CHECKED[0]);
    RunOnward(PLAYER, CHECKED[..1], CHECKED[1]);
    RunOnward(PLAYER, CHECKED[..2], CHECKED[2]);
    assert [] + [CHECKED[0]] == CHECKED[..1] && CHECKED[..1] + [CHECKED[1]] == CHECKED[..2]
           && CHECKED[..2] + [CHECKED[2]] == CHECKED[..3];
  }

  lemma FirstApplied()
    ensures Next(Waiting(), CHECKED[3]) == Checked().(out := PLAYER.out)
  {
    assert AppendOwed([], HEAD) == [HEAD];
    hide AppendOwed;
  }

  lemma HeadChecked()
    ensures Next(Checked().(out := PLAYER.out), Check) == Checked()
  {
  }

  lemma ToChecked()
    ensures Run(PLAYER, CHECKED) == Checked()
  {
    ToWaiting();
    var s4 := Checked().(out := PLAYER.out);
    FirstApplied();
    assert Next(s4, CHECKED[4]) == Checked() by { HeadChecked(); }
    hide *;
    RunOnward(PLAYER, CHECKED[..3], CHECKED[3]);
    RunOnward(PLAYER, CHECKED[..4], CHECKED[4]);
    assert CHECKED[..3] + [CHECKED[3]] == CHECKED[..4] && CHECKED[..4] + [CHECKED[4]] == CHECKED;
  }

  function Declared(h: Handle): Handle {
    h.(fetchSeq := 2, fetches := map[2 := Fetch("x", true, false)], declaring := map["x" := Declaration(1, 2, false)])
  }

  function Ended(h: Handle): Handle {
    h.(fetchSeq := 2, entries := map[], exposed := {}, owed := [], lastApplied := map[], withdrawSeq := 1, ageWithdrawnAt := map["x" := 1])
  }

  lemma DeclareThenEnd(h: Handle)
    requires h.(out := Checked().out, owed := [HEAD]) == Checked() && (h.owed == [HEAD] || h.owed == [])
    ensures Next(h, Begin("x", NonAdult)) == Declared(h)
    ensures Next(Declared(h), End(2)) == Ended(h)
  {
    assert WithoutKey([HEAD], "x") == [];
    assert ExposedElsewhere({("x", "a")}, "x") == {};
    assert Declared(h).fetches - {2} == map[] && Declared(h).declaring - {"x"} == map[];
    assert h.entries - {"x"} == map[] && h.lastApplied - {"x"} == map[];
  }

  /** A declaration between the head check and the queue: the fact is queued while it is pending. */
  lemma DeclaredInTheGap()
    ensures var t := Run(PLAYER, CHECKED + [Begin("x", NonAdult), Enqueue(Accepted)]);
            Start(PLAYER) && t.out.queued == [FACT] && "x" in t.declaring && !FactWithdrawn(t, FACT)
  {
    ToChecked();
    DeclareThenEnd(Checked());
    hide Run;
    var t := Next(Declared(Checked()), Enqueue(Accepted));
    RunOnward(PLAYER, CHECKED, Begin("x", NonAdult));
    RunOnward(PLAYER, CHECKED + [Begin("x", NonAdult)], Enqueue(Accepted));
    assert CHECKED + [Begin("x", NonAdult)] + [Enqueue(Accepted)] == CHECKED + [Begin("x", NonAdult), Enqueue(Accepted)];
  }

  /** One that also ends unanswered there: the fact is withdrawn when it is queued, and the next check drops it. */
  lemma RefusedInTheGap()
    ensures var t := Run(PLAYER, CHECKED + [Begin("x", NonAdult), End(2), Enqueue(Accepted)]);
            t.out.queued == [FACT] && FactWithdrawn(t, FACT) && Next(t, Vet(0)).out.queued == Next(t, Vet(0)).out.vetted == []
  {
    ToChecked();
    DeclareThenEnd(Checked());
    hide Run;
    var t := Next(Ended(Checked()), Enqueue(Accepted));
    assert t == Ended(Checked()).(out := Outgoing(Some(Handing(HEAD, 0, true)), [FACT], [], []));
    assert FactWithdrawn(t, FACT);
    RunOnward(PLAYER, CHECKED, Begin("x", NonAdult));
    RunOnward(PLAYER, CHECKED + [Begin("x", NonAdult)], End(2));
    RunOnward(PLAYER, CHECKED + [Begin("x", NonAdult), End(2)], Enqueue(Accepted));
    assert CHECKED + [Begin("x", NonAdult)] + [End(2)] == CHECKED + [Begin("x", NonAdult), End(2)];
    assert CHECKED + [Begin("x", NonAdult), End(2)] + [Enqueue(Accepted)] == CHECKED + [Begin("x", NonAdult), End(2), Enqueue(Accepted)];
  }

  const RACED: seq<Step> := [Enqueue(Accepted), Remove, Vet(0), Begin("x", NonAdult), End(2), Release(0)]

  /** One that begins and ends between the two checks of an attempt: the fact is sent, withdrawn. */
  lemma RacedFactIsSent()
    ensures var t := Run(PLAYER, CHECKED + RACED); t.out.sent == [FACT] && FactWithdrawn(t, FACT)
  {
    var s6, s7, s8, t := Walked();
    hide Next, Run;
    ToChecked();
    DeclareThenEnd(s8);
    var all := CHECKED + RACED;
    assert all[..5] == CHECKED;
    Walk(all, 5); Walk(all, 6); Walk(all, 7); Walk(all, 8); Walk(all, 9); Walk(all, 10);
    assert all[..11] == all;
  }

  lemma Walked() returns (s6: Handle, s7: Handle, s8: Handle, t: Handle)
    ensures Next(Checked(), RACED[0]) == s6 && Next(s6, RACED[1]) == s7 && Next(s7, RACED[2]) == s8
    ensures s8.(out := Checked().out, owed := [HEAD]) == Checked() && s8.owed == []
    ensures Next(Ended(s8), RACED[5]) == t && t.out.sent == [FACT] && FactWithdrawn(t, FACT)
  {
    s6 := Checked().(out := Outgoing(Some(Handing(HEAD, 0, true)), [FACT], [], []));
    s7 := Checked().(owed := [], out := Outgoing(None, [FACT], [], []));
    s8 := Checked().(owed := [], out := Outgoing(None, [], [FACT], []));
    t := Ended(s8).(out := Outgoing(None, [], [], [FACT]));
  }

  lemma Walk(all: seq<Step>, i: nat)
    requires i < |all|
    ensures Run(PLAYER, all[..i + 1]) == Next(Run(PLAYER, all[..i]), all[i])
  {
    RunOnward(PLAYER, all[..i], all[i]);
    assert all[..i] + [all[i]] == all[..i + 1];
  }
}
