/**
 What a dispatch pass lets through. Each hold is judged at its own moment; for a receipt the
 record does not cover, this says exactly when each hold lets it pass, and, over whole runs,
 exactly which judgements a receipt has behind it when it is posted uncovered.
 */
module FloorHolds {
  import opened Basics
  import opened DecisionRecord
  import opened ConsentReceipts
  import opened ConsentOutbox
  import opened ConsentMirror
  import opened ConsentFloor
  import opened FloorShape
  import opened FloorPairing
  import opened FloorDecisions
  import opened FloorClose
  import opened FloorMarks

  // ---------------------------------------------------------------- one hold, exactly

  /** A denial newer than `r` stands in the mirror, unanswered, or as the trail's end while a denial fills the slot. */
  ghost predicate DenialPends(p: Proc, r: Receipt) {
    exists e :: e in p.box.receipts && Pends(p, r, e)
  }

  predicate Pends(p: Proc, r: Receipt, e: Receipt) {
    !e.granted && r.at < e.at && (e.key !in p.answered || EndsDenied(p, e))
  }

  /** The receipt ends the trail while a denial fills the slot. */
  predicate EndsDenied(p: Proc, e: Receipt) {
    IsDenial(p.recordOwed) && LastOf(p.box.receipts) == Some(e)
  }

  ghost predicate DenialFollows(p: Proc, r: Receipt) {
    exists e :: e in p.box.receipts && !e.granted && r.at < e.at
  }

  /** What lets a receipt that the record does not cover past hold number `n`. */
  ghost predicate Lets(p: Proc, r: Receipt, n: nat) {
    var kept := r in p.box.receipts;
    match n
    // the mark: not yet written, gone with an eviction, or the receipt was answered before
    case 0 => Window(p.slow, r) || !kept || r.key in p.answered
    // a denial's key is not owed
    case 1 => !IsDenial(p.mintOwed)
    case 2 => kept ==> !DenialPends(p, r)
    case 3 => kept ==> !EndsDenied(p, r)
    // the mirror is saved, no grant is being served, and a denial has taken the slot over
    case 4 => !p.box.dirty && !Arming(p) && IsDenial(p.recordOwed)
    // the lock is free, and a newer grant has taken the slot over in its turn, with no denial left behind
    case _ =>
      && p.slow == Idle
      && (if kept then IsGrant(p.recordOwed) && !DenialPends(p, r) && (LiveDenied(p) ==> DenialFollows(p, r))
          else !IsDenial(p.mintOwed) && !LiveDenied(p))
  }

  /** The invariants a running process keeps while no forced-minor record makes them irrelevant. */
  ghost predicate Healthy(s: State) {
    s.proc.Some? && Shape(s) && Pairing(s.disk, s.proc.value) && Marks(s.disk, s.proc.value) && Unmarked(s, s.proc.value)
  }

  /** The trail by position and by stamp. */
  lemma TrailBehind(rs: seq<Receipt>, me: Identity, r: Receipt, e: Receipt)
    requires Trail(rs, me) && r in rs && e in rs
    ensures r.at < e.at <==> exists i, j :: 0 <= i < j < |rs| && rs[i] == r && rs[j] == e
  {
    var a :| 0 <= a < |rs| && rs[a] == r;
    var b :| 0 <= b < |rs| && rs[b] == e;
    assert a < b ==> rs[a] == r && rs[b] == e;
  }

  /** The proof hold on a receipt of the mirror. */
  lemma ProofIs(p: Proc, me: Identity, e: Receipt)
    requires Trail(p.box.receipts, me) && e in p.box.receipts
    ensures DenyProofHeld(p, me, e) <==> EndsDenied(p, e)
  {
    var rs := p.box.receipts;
    LatestIsLast(rs, me);
    assert rs[|rs| - 1] in rs;
    TrailTells(rs, me, rs[|rs| - 1], e);
    hide Trail;
  }

  /** A newer denial that is marked, or that the proof hold would hold. */
  predicate HeldAfter(p: Proc, r: Receipt, e: Receipt) {
    !e.granted && r.at < e.at && (e.key in p.box.owed || EndsDenied(p, e))
  }

  /** The denial hold on a receipt of the mirror, by stamps. */
  lemma NewerHeldIs(p: Proc, me: Identity, r: Receipt)
    requires Trail(p.box.receipts, me) && r in p.box.receipts
    ensures NewerDenialHeld(p, me, r) <==>
              exists e :: e in p.box.receipts && HeldAfter(p, r, e)
  {
    var rs := p.box.receipts;
    if NewerDenialHeld(p, me, r) {
      var i, j :| 0 <= i < j < |rs| && rs[i].key == r.key && HeldBehind(p, me, r, rs[j]);
      TrailTells(rs, me, rs[i], r);
      TrailBehind(rs, me, r, rs[j]);
      ProofIs(p, me, rs[j]);
      assert rs[j] in rs;
    }
    if e :| e in rs && HeldAfter(p, r, e) {
      TrailBehind(rs, me, r, e);
      TrailTells(rs, me, e, r);
      ProofIs(p, me, e);
      var i, j :| 0 <= i < j < |rs| && rs[i] == r && rs[j] == e;
      hide Trail, DenyProofHeld, EndsDenied;
      assert HeldBehind(p, me, r, rs[j]);
    }
  }

  lemma NewerInIs(p: Proc, me: Identity, r: Receipt)
    requires Trail(p.box.receipts, me) && r in p.box.receipts
    ensures NewerDenialInTrail(p, me, r) <==> DenialFollows(p, r)
  {
    var rs := p.box.receipts;
    if NewerDenialInTrail(p, me, r) {
      var i, j :| 0 <= i < j < |rs| && rs[i].key == r.key && DenialBehind(p, me, r, rs[j]);
      TrailTells(rs, me, rs[i], r);
      TrailBehind(rs, me, r, rs[j]);
      assert rs[j] in rs;
    }
    if e :| e in rs && !e.granted && r.at < e.at {
      TrailBehind(rs, me, r, e);
      TrailTells(rs, me, e, r);
      var i, j :| 0 <= i < j < |rs| && rs[i] == r && rs[j] == e;
      hide Trail;
      assert DenialBehind(p, me, r, rs[j]);
    }
  }

  /** A receipt that an eviction has taken is held by nothing that reads the trail. */
  lemma GoneUnheld(p: Proc, me: Identity, r: Receipt)
    requires Known(p.box.receipts, r) && r !in p.box.receipts && Trail(p.box.receipts, me)
    ensures !NewerDenialHeld(p, me, r) && !NewerDenialInTrail(p, me, r) && !DenyProofHeld(p, me, r)
  {
    var rs := p.box.receipts;
    forall i | 0 <= i < |rs| ensures rs[i].key != r.key { assert rs[i] in rs; }
    LatestIsLast(rs, me);
  }

  /** In its window over an uncovering record a denial ends the trail and fills the slot. */
  lemma WindowDenial(record: RecordFile, p: Proc, e: Receipt)
    requires Place(record, p) && Window(p.slow, e) && !e.granted && !Covers(record, e.at)
    ensures EndsDenied(p, e)
  {
    hide Covers, Ahead;
  }

  /** Behind an uncovered receipt a denial of the mirror is held unless it was answered before. */
  lemma HeldIsPends(record: RecordFile, p: Proc, r: Receipt, e: Receipt)
    requires Place(record, p) && !Covers(record, r.at) && Marked(record, p, e)
    requires e.key in p.box.owed ==> e.key !in p.answered
    ensures HeldAfter(p, r, e) <==> Pends(p, r, e)
  {
    if Pends(p, r, e) && Window(p.slow, e) { WindowDenial(record, p, e); }
    hide Place, EndsDenied;
  }

  /** Behind an uncovered receipt the denial hold misses exactly the denials answered before. */
  lemma DenialPendsIs(s: State, r: Receipt)
    requires Healthy(s) && r in s.proc.value.box.receipts && !Covers(s.disk.record, r.at)
    ensures NewerDenialHeld(s.proc.value, s.cfg.me, r) <==> DenialPends(s.proc.value, r)
  {
    var p := s.proc.value;
    TrailFacts(s);
    PlaceOf(s);
    hide Shape, Pairing, Trail, Stamps, PassPlace, NewerDenialHeld, Place, Marked, HeldAfter, Pends, HasKey, Covers;
    NewerHeldIs(p, s.cfg.me, r);
    forall e | e in p.box.receipts ensures HeldAfter(p, r, e) <==> Pends(p, r, e) {
      assert Marked(s.disk.record, p, e);
      HeldIsPends(s.disk.record, p, r, e);
    }
  }

  /** The slot over an uncovered receipt: it is never empty, and belongs to a decision as new at least. */
  lemma SlotOver(s: State, r: Receipt)
    requires Shape(s) && s.proc.Some? && Pairing(s.disk, s.proc.value) && !Covers(s.disk.record, r.at)
    requires r in s.proc.value.box.receipts || PassReceipt(s.proc.value.pass) == Some(r)
    ensures var p := s.proc.value;
            Working(p.slow, r) || (p.recordOwed.Some? && r.at <= p.recordOwed.value.at)
  {
    var p := s.proc.value;
    if r in p.box.receipts { KeptSlot(s.disk, p, r); }
    else { GoneFacts(s, p); GoneSlot(s.disk, p, s.cfg.me, r); }
    hide Shape, Pairing, Trail, Stamps, PassPlace, SlotNewest, Place, Covers;
  }

  lemma KeptSlot(disk: Disk, p: Proc, r: Receipt)
    requires Pairing(disk, p) && r in p.box.receipts && !Covers(disk.record, r.at)
    ensures Working(p.slow, r) || (p.recordOwed.Some? && r.at <= p.recordOwed.value.at)
  {
    NewestOf(disk, p);
    hide Pairing;
    assert Dated(disk.record, p, r);
  }

  /** Over a receipt that an eviction has taken the slot is filled. */
  lemma GoneSlot(disk: Disk, p: Proc, me: Identity, r: Receipt)
    requires SlotNewest(disk, p) && Place(disk.record, p) && Trail(p.box.receipts, me) && !Covers(disk.record, r.at)
    requires |p.box.receipts| >= 2 && r.at < p.box.receipts[|p.box.receipts| - 2].at
    ensures p.recordOwed.Some? && r.at < p.recordOwed.value.at
  {
    var rs := p.box.receipts;
    var e := rs[|rs| - 2];
    assert e in rs && Dated(disk.record, p, e);
    assert e != rs[|rs| - 1];
    if p.recordOwed.Some? { GoneOlder(disk, p, me, r); }
    hide Trail, SlotNewest;
  }

  lemma PairHoldIs(s: State, r: Receipt)
    requires Healthy(s) && PassReceipt(s.proc.value.pass) == Some(r) && r.granted && !Covers(s.disk.record, r.at)
    ensures !PairIncomplete(s.proc.value) <==> Lets(s.proc.value, r, 4)
  {
    var p := s.proc.value;
    SlotOver(s, r);
    PlaceOf(s);
    if Working(p.slow, r) { ArmingHead(p); assert HeadTicket(p); }
    hide Shape, SlotNewest, MintSlot, SlotWitness, PassFree, Place, Marks, Unmarked, Arming;
  }

  /** With the lock free a denial in the slot has its key owed, or its receipt at the end of the trail. */
  lemma IdleSlot(s: State)
    requires Healthy(s) && s.proc.value.slow == Idle
    ensures var p := s.proc.value;
            && (IsDenial(p.mintOwed) && p.recordOwed.Some? ==> IsDenial(p.recordOwed))
            && (IsDenial(p.recordOwed) ==>
                  || IsDenial(p.mintOwed)
                  || (LastOf(p.box.receipts).Some? && !LastOf(p.box.receipts).value.granted
                      && LastOf(p.box.receipts).value.at == p.recordOwed.value.at))
  {
    hide Shape, SlotNewest, PassFree, Place, Marks, Unmarked, Covers, HeadTicket;
  }

  lemma LastHoldIs(s: State, r: Receipt)
    requires Healthy(s) && PassReceipt(s.proc.value.pass) == Some(r) && r.granted && !Covers(s.disk.record, r.at)
    ensures !Held(s.proc.value, s.cfg.me, r, 5) <==> Lets(s.proc.value, r, 5)
  {
    if r in s.proc.value.box.receipts { LastHoldKept(s, r); } else { LastHoldGone(s, r); }
    hide Healthy, Held, Lets, Covers;
  }

  lemma LastHoldKept(s: State, r: Receipt)
    requires Healthy(s) && r in s.proc.value.box.receipts && r.granted && !Covers(s.disk.record, r.at)
    ensures !Held(s.proc.value, s.cfg.me, r, 5) <==> Lets(s.proc.value, r, 5)
  {
    var p := s.proc.value;
    HoldsAre(p, s.cfg.me, r);
    if p.slow == Idle {
      SlotOver(s, r);
      DenialPendsIs(s, r);
      IdleSlot(s);
      TrailOf(s);
      NewerInIs(p, s.cfg.me, r);
      LastPends(p, s.cfg.me, r);
    }
    hide Healthy, Held, Trail, NewerDenialHeld, NewerDenialInTrail, DenialPends, DenialFollows, Covers;
  }

  lemma TrailOf(s: State)
    requires Shape(s) && s.proc.Some?
    ensures Trail(s.proc.value.box.receipts, s.cfg.me)
  {
    TrailFacts(s);
    hide Shape, Trail, Stamps, PassPlace;
  }

  lemma LastHoldGone(s: State, r: Receipt)
    requires Healthy(s) && PassReceipt(s.proc.value.pass) == Some(r) && r !in s.proc.value.box.receipts
    ensures !Held(s.proc.value, s.cfg.me, r, 5) <==> Lets(s.proc.value, r, 5)
  {
    HoldsAre(s.proc.value, s.cfg.me, r);
    TrailFacts(s);
    GoneUnheld(s.proc.value, s.cfg.me, r);
    hide Healthy, Held, Trail, Stamps, NewerDenialHeld, NewerDenialInTrail, DenialPends, DenialFollows;
  }

  /** A denial that fills the slot and ends the trail pends behind whatever is older. */
  lemma LastPends(p: Proc, me: Identity, r: Receipt)
    requires Trail(p.box.receipts, me) && r in p.box.receipts && r.granted
    ensures var last := LastOf(p.box.receipts);
            last.Some? && !last.value.granted && IsDenial(p.recordOwed) ==> DenialPends(p, r)
  {
    var rs := p.box.receipts;
    var e := rs[|rs| - 1];
    assert e in rs;
    TrailTells(rs, me, e, r);
    if !e.granted && IsDenial(p.recordOwed) { assert Pends(p, r, e); }
  }

  /** The holds a receipt has to pass. */
  predicate Faces(r: Receipt, n: nat) {
    if r.granted then n <= 5 else n == 0 || n == 3
  }

  /**
   Every hold, exactly: a receipt under judgement that the record does not cover passes hold number
   `n` exactly when what `Lets` names is the case. Holds 1, 2 pass every denial.
   */
  lemma HoldsExactly(s: State, r: Receipt, n: nat)
    requires Healthy(s) && PassReceipt(s.proc.value.pass) == Some(r) && !Covers(s.disk.record, r.at) && Faces(r, n)
    ensures !Held(s.proc.value, s.cfg.me, r, n) <==> Lets(s.proc.value, r, n)
  {
    var p := s.proc.value;
    HoldsAre(p, s.cfg.me, r);
    TrailFacts(s);
    if n == 0 { PassKeys(s, p, r); FirstHoldExactly(s, p, r); }
    else if n == 4 { PairHoldIs(s, r); }
    else if n == 5 { LastHoldIs(s, r); }
    else if r in p.box.receipts { DenialPendsIs(s, r); ProofIs(p, s.cfg.me, r); }
    else { GoneUnheld(p, s.cfg.me, r); }
    hide Shape, Pairing, Trail, Stamps, Marks, Unmarked, NewerDenialHeld, DenyProofHeld, DenialPends, DenialFollows, Held, PairIncomplete;
  }

  lemma PassKeys(s: State, p: Proc, r: Receipt)
    requires PassPlace(s, p) && PassReceipt(p.pass) == Some(r)
    ensures r in p.box.receipts || !HasKey(p.box.receipts, r.key)
  {
    HasKeyIn(p.box.receipts, r.key);
  }

  // ---------------------------------------------------------------- whole runs

  /** The invariants of every run, whatever fails. */
  ghost predicate Steady(s: State) {
    Coherent(s) && (s.proc.Some? && !Absorbing(s.disk.record) ==> Marks(s.disk, s.proc.value) && Unmarked(s, s.proc.value))
  }

  /** Forward in time: a forced-minor record stays, and what a record covers stays covered. */
  ghost predicate Forward(s: State, t: State) {
    t.cfg == s.cfg &&
    (!Absorbing(t.disk.record) ==>
       !Absorbing(s.disk.record) && (s.proc.Some? && t.proc.Some? ==> forall x :: Covers(s.disk.record, x) ==> Covers(t.disk.record, x)))
  }

  lemma AbsorbingStays(s: State, step: Step)
    requires Coherent(s)
    ensures Absorbing(s.disk.record) ==> Absorbing(Next(s, step).disk.record)
    ensures Next(s, step).cfg == s.cfg
  {
    hide Shape, Decided, Pairing, RecordTells, NextRaw, Absorbing, HoldsMinor;
    ShapeStep(s, step);
    DigestNeeded(s);
    DecidedStep(s, step);
    AbsorbingIsMinor(s);
    AbsorbingIsMinor(Next(s, step));
  }

  lemma SteadyStep(s: State, step: Step)
    requires Steady(s)
    ensures Steady(Next(s, step)) && Forward(s, Next(s, step))
  {
    hide Shape, Decided, Pairing, RecordTells, NextRaw, Absorbing, Marks, Unmarked;
    CoherentStep(s, step);
    AbsorbingStays(s, step);
    if !Absorbing(s.disk.record) {
      if s.proc.Some? && !step.Crash? {
        MarksStep(s, step);
        UnmarkedObserve(NextRaw(s, step));
        forall x | Covers(s.disk.record, x) ensures Covers(Next(s, step).disk.record, x) { RecordForward(s, step, x); }
      } else if s.proc.None? && step.Start? { SteadyStart(s, step.healOk, step.markOk); }
      else { DownStays(s, step); }
    }
  }

  lemma DownStays(s: State, step: Step)
    requires if s.proc.Some? then step.Crash? else !step.Start?
    ensures Next(s, step).proc.None?
  {
  }

  lemma UnmarkedObserve(s: State)
    requires s.proc.Some? && Unmarked(s, s.proc.value)
    ensures Unmarked(Observe(s), s.proc.value)
  {
    hide HasKey;
  }

  lemma SteadyStart(s: State, healOk: bool, markOk: bool)
    requires Shape(s) && s.proc.None? && !Absorbing(s.disk.record)
    ensures var t := Next(s, Start(healOk, markOk));
            t.proc.Some? && Marks(t.disk, t.proc.value) && Unmarked(t, t.proc.value)
  {
    MarksStart(s, healOk, markOk);
    UnmarkedStart(s, healOk, markOk);
    UnmarkedObserve(NextRaw(s, Start(healOk, markOk)));
    hide Boot, Shape, Marks, HasKey;
  }

  lemma {:induction false} SteadyRun(s: State, steps: seq<Step>)
    requires Shape(s) && s.proc.None?
    ensures Steady(Run(s, steps)) && Run(s, steps).cfg == s.cfg
  {
    hide Steady, Next, Shape;
    if steps == [] { SteadyRest(s); }
    else {
      SteadyRun(s, steps[..|steps| - 1]);
      SteadyStep(Run(s, steps[..|steps| - 1]), steps[|steps| - 1]);
    }
  }

  lemma SteadyRest(s: State)
    requires Shape(s) && s.proc.None?
    ensures Steady(s)
  {
  }

  /** The states in which the pass of the run's end has judged its receipt so far, in the order of the holds. */
  ghost function Judgements(s: State, steps: seq<Step>): seq<State> {
    if steps == [] then []
    else
      var front := steps[..|steps| - 1];
      After(Judgements(s, front), Run(s, front), steps[|steps| - 1])
  }

  ghost function After(js: seq<State>, e: State, step: Step): seq<State> {
    var t := Next(e, step);
    if t.proc.None? || t.proc.value.pass.Resting? then []
    else if step.Check? && e.proc.Some? && e.proc.value.pass.Checking? then js + [e]
    else js
  }

  /** How many holds the pass has let its receipt past. */
  function Passed(pass: Pass): nat {
    match pass
    case Resting => 0
    case Checking(_, n) => n
    case Cleared(r) => HoldCount(r)
    case InFlight(r, _) => HoldCount(r)
    case Settling(r) => HoldCount(r)
  }

  /** Hold number `k` let the receipt pass in state `j`, some way before `e`. */
  ghost predicate Judged(j: State, e: State, r: Receipt, k: nat) {
    && j.proc.Some? && e.proc.Some? && j.proc.value.pass == Checking(r, k) && !Held(j.proc.value, j.cfg.me, r, k)
    && Forward(j, e)
    && (!Absorbing(j.disk.record) ==> Healthy(j))
    && (r !in j.proc.value.box.receipts ==> r !in e.proc.value.box.receipts)
  }

  ghost predicate History(js: seq<State>, e: State) {
    if e.proc.None? || e.proc.value.pass.Resting? then js == []
    else
      var r := PassReceipt(e.proc.value.pass).value;
      && |js| == Passed(e.proc.value.pass)
      && (e.proc.value.pass.Checking? ==> |js| < HoldCount(r))
      && forall k :: 0 <= k < |js| ==> Judged(js[k], e, r, k)
  }

  /** Steps other than a check of a receipt under judgement leave the count alone. */
  lemma PassedStays(s: State, step: Step)
    requires s.proc.Some? && !step.Crash? && !(step.Check? && s.proc.value.pass.Checking?)
    ensures var p, t := s.proc.value, NextRaw(s, step);
            && t.proc.Some?
            && (t.proc.value.pass.Resting?
                || (p.pass.Resting? && t.proc.value.pass.Checking? && t.proc.value.pass.passed == 0)
                || (PassReceipt(t.proc.value.pass) == PassReceipt(p.pass) && Passed(t.proc.value.pass) == Passed(p.pass)
                    && t.proc.value.pass.Checking? == p.pass.Checking?))
  {
    if Passing(step) { PassedPassing(s, step); } else { PassStays(s, step); }
    hide NextRaw;
  }

  lemma PassedPassing(s: State, step: Step)
    requires s.proc.Some? && Passing(step) && !(step.Check? && s.proc.value.pass.Checking?)
    ensures var p, t := s.proc.value, NextRaw(s, step);
            && t.proc.Some?
            && (t.proc.value.pass.Resting?
                || (p.pass.Resting? && t.proc.value.pass.Checking? && t.proc.value.pass.passed == 0)
                || (PassReceipt(t.proc.value.pass) == PassReceipt(p.pass) && Passed(t.proc.value.pass) == Passed(p.pass)
                    && t.proc.value.pass.Checking? == p.pass.Checking?))
  {
    hide Prune, HasKey, NextUp, HoldCount, HoldsGrants;
  }

  lemma JudgedStep(j: State, e: State, step: Step, r: Receipt, k: nat)
    requires Judged(j, e, r, k) && Steady(e) && !step.Crash?
    requires PassReceipt(e.proc.value.pass) == Some(r)
    requires var t := Next(e, step);
             t.proc.Some? && PassReceipt(t.proc.value.pass) == Some(r) && (step.Check? || Progress(t.proc.value.pass) > 0)
    ensures Judged(j, Next(e, step), r, k)
  {
    SteadyStep(e, step);
    if step.Check? { CheckAdvances(e.cfg, e.proc.value); } else { PassKeepsPlace(e, step); }
    hide Healthy, Held, Absorbing, Covers, Shape, Pairing, Marks, Unmarked, CheckStep, Decided, RecordTells;
  }

  lemma HistoryStep(js: seq<State>, e: State, step: Step)
    requires Steady(e) && History(js, e)
    ensures History(After(js, e, step), Next(e, step))
  {
    var t := Next(e, step);
    NotResting(e, step);
    if t.proc.Some? && !t.proc.value.pass.Resting? {
      if step.Check? && e.proc.value.pass.Checking? { Checked(e); HistoryChecked(js, e); }
      else { HistoryKept(js, e, step); }
    }
    hide Steady, History, NextRaw, Observe, CheckStep;
  }

  lemma NotResting(e: State, step: Step)
    ensures var t := Next(e, step); e.proc.None? || step.Crash? ==> t.proc.None? || t.proc.value.pass.Resting?
  {
    if e.proc.None? && step.Start? { StartRests(e, step.healOk, step.markOk); }
    hide NextProc, Boot;
  }

  lemma HistoryChecked(js: seq<State>, e: State)
    requires Steady(e) && History(js, e) && e.proc.Some? && e.proc.value.pass.Checking?
    requires !CheckStep(e.cfg, e.proc.value).pass.Resting?
    ensures History(js + [e], Next(e, Check))
  {
    var p, t := e.proc.value, Next(e, Check);
    var r := p.pass.r;
    Checked(e);
    CheckAdvances(e.cfg, p);
    SelfJudged(e);
    hide Held, Steady, Judged, CheckStep, Next, HoldCount;
    forall k | 0 <= k < |js| + 1 ensures Judged((js + [e])[k], t, r, k) { JudgedStep((js + [e])[k], e, Check, r, k); }
  }

  lemma Checked(e: State)
    requires e.proc.Some?
    ensures Next(e, Check).proc == Some(CheckStep(e.cfg, e.proc.value))
  {
    hide CheckStep;
  }

  lemma SelfJudged(e: State)
    requires Steady(e) && e.proc.Some? && e.proc.value.pass.Checking?
    ensures var p := e.proc.value;
            !Held(p, e.cfg.me, p.pass.r, p.pass.passed) ==> Judged(e, e, p.pass.r, p.pass.passed)
  {
    hide Held, Shape, Pairing, Marks, Unmarked, Decided, RecordTells;
  }

  lemma HistoryKept(js: seq<State>, e: State, step: Step)
    requires Steady(e) && History(js, e) && e.proc.Some? && !step.Crash? && !(step.Check? && e.proc.value.pass.Checking?)
    requires Next(e, step).proc.Some? && !Next(e, step).proc.value.pass.Resting?
    ensures History(js, Next(e, step))
  {
    var t := Next(e, step);
    PassedStays(e, step);
    hide Held, Steady, Judged, NextRaw;
    if js != [] {
      var r := PassReceipt(t.proc.value.pass).value;
      forall k | 0 <= k < |js| ensures Judged(js[k], t, r, k) { JudgedStep(js[k], e, step, r, k); }
    }
  }

  lemma {:induction false} HistoryRun(s: State, steps: seq<Step>)
    requires Shape(s) && s.proc.None?
    ensures History(Judgements(s, steps), Run(s, steps)) && Steady(Run(s, steps))
  {
    SteadyRun(s, steps);
    hide Steady, History, Next, After, Shape;
    if steps == [] { NoHistory(s); }
    else {
      var front := steps[..|steps| - 1];
      HistoryRun(s, front);
      HistoryStep(Judgements(s, front), Run(s, front), steps[|steps| - 1]);
    }
  }

  lemma NoHistory(s: State)
    requires s.proc.None?
    ensures History([], s)
  {
  }

  /** The pass has decided to post its receipt, or has posted it. */
  predicate Posting(pass: Pass) {
    pass.Cleared? || pass.InFlight? || pass.Settling?
  }

  /** The holds a judged receipt has behind it let it pass uncovered, each in its own state. */
  ghost predicate LetThrough(js: seq<State>, r: Receipt) {
    forall k :: 0 <= k < |js| ==>
      && js[k].proc.Some? && js[k].proc.value.pass == Checking(r, k) && !Covers(js[k].disk.record, r.at)
      && (Faces(r, k) ==> Lets(js[k].proc.value, r, k))
  }

  lemma JudgedLets(j: State, e: State, r: Receipt, k: nat)
    requires Judged(j, e, r, k) && !Absorbing(e.disk.record) && !Covers(e.disk.record, r.at)
    ensures !Covers(j.disk.record, r.at) && (Faces(r, k) ==> Lets(j.proc.value, r, k))
  {
    if Faces(r, k) { HoldsExactly(j, r, k); }
    hide Held, Lets, Healthy, Absorbing, Covers;
  }

  lemma HistoryLets(js: seq<State>, e: State)
    requires History(js, e) && e.proc.Some? && !e.proc.value.pass.Resting? && !Absorbing(e.disk.record)
    requires !Covers(e.disk.record, PassReceipt(e.proc.value.pass).value.at)
    ensures LetThrough(js, PassReceipt(e.proc.value.pass).value)
  {
    var r := PassReceipt(e.proc.value.pass).value;
    forall k | 0 <= k < |js|
      ensures js[k].proc.Some? && js[k].proc.value.pass == Checking(r, k) && !Covers(js[k].disk.record, r.at)
              && (Faces(r, k) ==> Lets(js[k].proc.value, r, k))
    {
      assert Judged(js[k], e, r, k);
      JudgedLets(js[k], e, r, k);
    }
  }

  /**
   What an uncovered receipt has behind it. In every run, whatever fails, races or is evicted: a receipt
   posted while neither the record covers it nor a forced-minor record stands was judged by all its
   holds, each in a state of its own in which it was uncovered too, and each let it pass for the reason
   that `Lets` names.
   */
  lemma PostedUncovered(s: State, steps: seq<Step>)
    requires Shape(s) && s.proc.None?
    requires var e := Run(s, steps);
             && e.proc.Some? && Posting(e.proc.value.pass) && !Absorbing(e.disk.record)
             && !Covers(e.disk.record, PassReceipt(e.proc.value.pass).value.at)
    ensures var r := PassReceipt(Run(s, steps).proc.value.pass).value;
            |Judgements(s, steps)| == HoldCount(r) && LetThrough(Judgements(s, steps), r)
  {
    HistoryRun(s, steps);
    HistoryLets(Judgements(s, steps), Run(s, steps));
    hide Run, Judgements, Shape, Absorbing, LetThrough, Judged, Steady;
  }

  /**
   And conversely: when an uncovered receipt stands before its last hold, the next check clears it exactly
   when all its holds, the ones behind it and this one, let it pass.
   */
  lemma ClearedExactly(s: State, steps: seq<Step>, r: Receipt)
    requires Shape(s) && s.proc.None?
    requires var e := Run(s, steps);
             && e.proc.Some? && e.proc.value.pass == Checking(r, HoldCount(r) - 1)
             && !Absorbing(e.disk.record) && !Covers(e.disk.record, r.at)
    ensures var e, js := Run(s, steps), Judgements(s, steps);
            && |js| == HoldCount(r) - 1
            && (Next(e, Check).proc.value.pass == Cleared(r) <==> LetThrough(js + [e], r))
  {
    var e, js := Run(s, steps), Judgements(s, steps);
    HistoryRun(s, steps);
    hide Run, Judgements, Shape, Absorbing, Judged;
    HistoryLets(js, e);
    SteadyHealthy(e);
    LastCheck(js, e, r);
  }

  lemma SteadyHealthy(e: State)
    requires Steady(e) && e.proc.Some? && !Absorbing(e.disk.record)
    ensures Healthy(e)
  {
  }

  lemma LastCheck(js: seq<State>, e: State, r: Receipt)
    requires Healthy(e) && e.proc.value.pass == Checking(r, HoldCount(r) - 1) && !Covers(e.disk.record, r.at)
    requires LetThrough(js, r) && |js| == HoldCount(r) - 1
    ensures Next(e, Check).proc.Some?
    ensures Next(e, Check).proc.value.pass == Cleared(r) <==> LetThrough(js + [e], r)
  {
    var n := HoldCount(r) - 1;
    Checked(e);
    CheckAdvances(e.cfg, e.proc.value);
    HoldsExactly(e, r, n);
    hide Healthy, Held, Lets, Covers, CheckStep, Next;
    assert (js + [e])[n] == e;
    if Lets(e.proc.value, r, n) {
      forall k | 0 <= k < |js + [e]|
        ensures var j := (js + [e])[k];
                && j.proc.Some? && j.proc.value.pass == Checking(r, k) && !Covers(j.disk.record, r.at)
                && (Faces(r, k) ==> Lets(j.proc.value, r, k))
      {
        assert k < n ==> (js + [e])[k] == js[k];
      }
    }
  }

  /**
   The whole pass over a denial that is the trail's last word while its record is not down: with the
   lock free the next check clears it exactly when both its guards are gone: its mark hold was judged in
   its window, or after an earlier answer, and its slot has gone to a grant whose mint has failed.
   */
  lemma LastDenialCleared(s: State, steps: seq<Step>, r: Receipt)
    requires Shape(s) && s.proc.None? && !r.granted
    requires var e := Run(s, steps);
             && e.proc.Some? && e.proc.value.pass == Checking(r, 3) && e.proc.value.slow == Idle
             && LastOf(e.proc.value.box.receipts) == Some(r)
             && !Absorbing(e.disk.record) && !Covers(e.disk.record, r.at)
    ensures var e, js := Run(s, steps), Judgements(s, steps);
            && |js| == 3 && js[0].proc.Some?
            && (Next(e, Check).proc.value.pass == Cleared(r) <==>
                  && (Window(js[0].proc.value.slow, r) || r.key in js[0].proc.value.answered)
                  && IsGrant(e.proc.value.mintOwed) && e.proc.value.recordOwed == e.proc.value.mintOwed)
  {
    var e, js := Run(s, steps), Judgements(s, steps);
    HistoryRun(s, steps);
    ClearedExactly(s, steps, r);
    hide Run, Judgements, Shape, Absorbing, Next;
    HistoryLets(js, e);
    SteadyHealthy(e);
    assert Judged(js[0], e, r, 0);
    assert r in e.proc.value.box.receipts;
    LastDenialSlot(e, r);
    hide Judged, Steady, LetThrough, Covers, Healthy;
    DenialThrough(js, e, r);
  }

  /** For a denial only the first and the last of its holds judge anything. */
  lemma DenialThrough(js: seq<State>, e: State, r: Receipt)
    requires |js| == 3 && !r.granted && LetThrough(js, r)
    requires e.proc.Some? && e.proc.value.pass == Checking(r, 3) && !Covers(e.disk.record, r.at)
    ensures LetThrough(js + [e], r) <==> Lets(e.proc.value, r, 3)
    ensures js[0].proc.Some? && Lets(js[0].proc.value, r, 0)
  {
    hide Lets, Covers;
    assert (js + [e])[3] == e;
    forall k | 0 <= k < 3 ensures (js + [e])[k] == js[k] {}
  }

  lemma LastDenialSlot(e: State, r: Receipt)
    requires Healthy(e) && e.proc.value.slow == Idle && !r.granted && LastOf(e.proc.value.box.receipts) == Some(r)
    requires !Covers(e.disk.record, r.at)
    ensures var p := e.proc.value;
            Lets(p, r, 3) <==> IsGrant(p.mintOwed) && p.recordOwed == p.mintOwed
  {
    var p := e.proc.value;
    assert r in p.box.receipts;
    SlotOver(e, r);
    hide Shape, SlotNewest, MintSlot, PassFree, HeadTicket, Marks, Unmarked, Covers, SlotUncovered;
  }
}
