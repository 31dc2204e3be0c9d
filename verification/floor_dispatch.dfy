/**
 Pair before dispatch: a receipt is posted only over a record at least as new as its
 decision, in every run that is spared the judgements that let an uncovered receipt through.
 */
module FloorDispatch {
  import opened Basics
  import opened DecisionRecord
  import opened ConsentReceipts
  import opened ConsentOutbox
  import opened ConsentMirror
  import opened ConsentFloor
  import opened FloorShape
  import opened FloorPairing
  import opened FloorDecisions
  import opened FloorClose
  import opened FloorMarks
  import opened FloorHolds

  /** What a run is spared: failed mints or else raced grants, and raced denials or not. */
  datatype Mode = Mode(mints: bool, denials: bool)

  /** The receipts a mode speaks for: grants always, denials if it is spared raced ones. */
  predicate Vouches(m: Mode, granted: bool) {
    granted || m.denials
  }

  /** No eviction has taken an uncovered receipt that a pass is judging. */
  predicate Kept(s: State, step: Step, m: Mode) {
    s.proc.Some? && step.Check? && s.proc.value.pass.Checking? ==>
      var p := s.proc.value;
      var r := p.pass.r;
      Vouches(m, r.granted) && (p.pass.passed == 0 || (m.mints && r.granted)) ==>
        Covers(s.disk.record, r.at) || r in p.box.receipts
  }

  predicate Fair(s: State, step: Step, m: Mode) {
    && (m.denials ==> Unraced(s, step, false))
    && (if m.mints then !(step.Mint? && step.key.None?) else Unraced(s, step, true))
    && Kept(s, step, m)
  }

  // ---------------------------------------------------------------- receipts judged over their mark

  /** A receipt past its first hold is covered. */
  predicate Firm(record: RecordFile, p: Proc, granted: bool) {
    PassReceipt(p.pass).Some? && PassReceipt(p.pass).value.granted == granted && Progress(p.pass) > 0 ==>
      Covers(record, PassReceipt(p.pass).value.at)
  }

  lemma FirmStep(s: State, step: Step, granted: bool)
    requires Shape(s) && s.proc.Some? && Pairing(s.disk, s.proc.value) && !step.Crash?
    requires Marks(s.disk, s.proc.value) && Unmarked(s, s.proc.value)
    requires JudgedCovered(s.disk, s.proc.value, granted) && Unraced(s, step, granted) && Firm(s.disk.record, s.proc.value, granted)
    requires step.Check? && s.proc.value.pass.Checking? && s.proc.value.pass.passed == 0 && s.proc.value.pass.r.granted == granted ==>
               Covers(s.disk.record, s.proc.value.pass.r.at) || s.proc.value.pass.r in s.proc.value.box.receipts
    ensures var t := NextRaw(s, step);
            t.proc.Some? && JudgedCovered(t.disk, t.proc.value, granted) && Firm(t.disk.record, t.proc.value, granted)
  {
    CoveredNext(s, step, granted);
    var p := s.proc.value;
    if step.Check? { CheckAdvances(s.cfg, p); hide CheckStep, Held, HoldCount; }
    else {
      PassShorter(s, step);
      if PassReceipt(p.pass).Some? && Covers(s.disk.record, PassReceipt(p.pass).value.at) {
        RecordForward(s, step, PassReceipt(p.pass).value.at);
      }
      hide NextRaw;
    }
    hide Shape, Pairing, Marks, Unmarked, Unraced, Covers;
  }

  // ---------------------------------------------------------------- without failed mints

  /** The receipt of the denial in the slot, not answered yet. */
  predicate SlotOf(p: Proc, e: Receipt) {
    !e.granted && p.recordOwed.Some? && e.at == p.recordOwed.value.at && e.key !in p.answered
  }

  ghost predicate SlotShown(p: Proc) {
    exists e :: e in p.box.receipts && SlotOf(p, e)
  }

  /** A denial that is being served and has no receipt yet. */
  predicate DenialServed(slow: Slow) {
    slow.DenySettled? || slow.DenyMinted?
  }

  /** Without failed mints nothing is owed to the mint, and an owed denial has its receipt in the trail. */
  ghost predicate AllMinted(p: Proc) {
    && p.mintOwed.None? && !p.slow.GrantUnminted? && !p.slow.RetryMinted? && !p.slow.RetryAppended?
    && (IsDenial(p.recordOwed) && !DenialServed(p.slow) && !Appending(p.slow) ==> SlotShown(p))
  }

  lemma ShownSame(p: Proc, q: Proc)
    requires SlotShown(p) && q.box.receipts == p.box.receipts && q.recordOwed == p.recordOwed && q.answered == p.answered
    ensures SlotShown(q)
  {
    var e :| e in p.box.receipts && SlotOf(p, e);
    assert SlotOf(q, e);
  }

  lemma AllMintedSlot(p: Proc)
    requires AllMinted(p) && (p.slow.DenyRecorded? ==> p.slow.d != Grant) && (p.slow.RetryRecorded? ==> p.recordOwed == Some(p.slow.o))
    ensures AllMinted(SlotStep(p))
  {
    var q := SlotStep(p);
    if SlotShown(p) && q.box.receipts == p.box.receipts && q.recordOwed == p.recordOwed && q.answered == p.answered { ShownSame(p, q); }
    hide SlotShown;
  }

  lemma SlotPlaces(s: State)
    requires s.proc.Some? && Pairing(s.disk, s.proc.value)
    ensures var p := s.proc.value;
            (p.slow.DenyRecorded? ==> p.slow.d != Grant) && (p.slow.RetryRecorded? ==> p.recordOwed == Some(p.slow.o))
  {
    PlaceOf(s);
    hide Pairing, Covers;
  }

  /** A denial just appended over an owed record ends the trail, and is not answered yet. */
  lemma AppendedShown(s: State, ok: bool)
    requires Shape(s) && s.proc.Some? && Pairing(s.disk, s.proc.value) && Unmarked(s, s.proc.value) && Marks(s.disk, s.proc.value)
    requires s.proc.value.slow.DenyMinted? && IsDenial(s.proc.value.recordOwed)
    ensures var p, t := s.proc.value, NextRaw(s, AppendReceipt(ok));
            && t.proc.Some? && p.slow.r in t.proc.value.box.receipts && SlotOf(t.proc.value, p.slow.r)
            && t.proc.value.recordOwed == p.recordOwed
  {
    var p, t := s.proc.value, NextRaw(s, AppendReceipt(ok));
    AppendTouches(s, ok);
    PairingAppend(s, ok);
    MarksStep(s, AppendReceipt(ok));
    PlaceOf(s);
    PlaceOf(t);
    hide Shape, NextRaw, Append, Pairing, Covers, Ahead;
    assert t.proc.value.slow == DenyAppended(p.slow.r, p.slow.written);
  }

  lemma AllMintedAppend(s: State, ok: bool)
    requires Shape(s) && s.proc.Some? && Pairing(s.disk, s.proc.value) && Unmarked(s, s.proc.value) && Marks(s.disk, s.proc.value)
    requires AllMinted(s.proc.value)
    ensures NextRaw(s, AppendReceipt(ok)).proc.Some? && AllMinted(NextRaw(s, AppendReceipt(ok)).proc.value)
  {
    var p := s.proc.value;
    AppendTouches(s, ok);
    hide Shape, NextRaw, Append, Pairing, Marks, Unmarked;
    if p.slow.DenyMinted? && IsDenial(p.recordOwed) { AppendedShown(s, ok); }
  }

  /** A save keeps the slot's receipt: nothing in the trail is newer. */
  lemma ShownSaved(s: State, t: State, step: Step, p: Proc, q: Proc)
    requires s.proc == Some(p) && t.proc == Some(q) && SlotShown(p) && !Appending(p.slow)
    requires SlotNewest(t.disk, q) && Effect(s, step, t) && Prunable(p, step) && PassPlace(s, p)
    requires q == p.(box := q.box, pass := q.pass, answered := q.answered)
    requires q.answered == (if step.PruneReceipt? && p.pass.Settling? then p.answered + {p.pass.r.key} else p.answered)
    requires forall e :: e in MirrorBase(p, step) <==> e in p.box.receipts && !(step.PruneReceipt? && p.pass.Settling? && e == p.pass.r)
    ensures SlotShown(q)
  {
    var e :| e in p.box.receipts && SlotOf(p, e);
    var out := q.box.receipts;
    assert e in MirrorBase(p, step);
    assert out != [] ==> out[0] in out && Dated(t.disk.record, q, out[0]);
    assert e in out;
    if step.PruneReceipt? && p.pass.Settling? { assert Known(p.box.receipts, p.pass.r); }
    assert SlotOf(q, e);
    hide Effect, SlotNewest, MirrorBase, PassPlace;
  }

  lemma AllMintedSaved(s: State, step: Step)
    requires Shape(s) && s.proc.Some? && Pairing(s.disk, s.proc.value) && AllMinted(s.proc.value)
    requires step.PruneReceipt? || step.PersistAgain?
    ensures NextRaw(s, step).proc.Some? && AllMinted(NextRaw(s, step).proc.value)
  {
    var p, t := s.proc.value, NextRaw(s, step);
    StaysUp(s, step);
    TrailFacts(s);
    Effects(s, step);
    BaseWithout(s, step);
    FreeOf(s.disk, p);
    PrunedFree(p, step);
    PairingSaved(s, step);
    SaveLeaves(s, step);
    NewestOf(t.disk, t.proc.value);
    hide Shape, Pairing, NextRaw, Trail, Stamps, PassPlace, SlotNewest, Effect, SlotShown, Prunable, MirrorBase;
    if SlotShown(p) && !Appending(p.slow) { ShownSaved(s, t, step, p, t.proc.value); }
  }

  lemma SaveLeaves(s: State, step: Step)
    requires s.proc.Some? && (step.PruneReceipt? || step.PersistAgain?)
    ensures var p, t := s.proc.value, NextRaw(s, step);
            && t.proc.Some? && t.proc.value == p.(box := t.proc.value.box, pass := t.proc.value.pass, answered := t.proc.value.answered)
            && t.proc.value.answered == (if step.PruneReceipt? && p.pass.Settling? then p.answered + {p.pass.r.key} else p.answered)
  {
    if step.PruneReceipt? { PruneTouches(s, step.ok); } else { PersistTouches(s, step.ok); }
    hide NextRaw, Prune, RetryPersist;
  }

  lemma AllMintedOther(s: State, step: Step)
    requires s.proc.Some? && AllMinted(s.proc.value) && !(step.Mint? && step.key.None?)
    requires !step.Crash? && !Saves(step) && !step.SettleSlot?
    ensures NextRaw(s, step).proc.Some? && AllMinted(NextRaw(s, step).proc.value)
  {
    OtherSlots(s, step);
    var p, q := s.proc.value, NextRaw(s, step).proc.value;
    if SlotShown(p) { ShownSame(p, q); }
    hide NextRaw, SlotShown;
  }

  lemma OtherSlots(s: State, step: Step)
    requires s.proc.Some? && s.proc.value.mintOwed.None? && !(step.Mint? && step.key.None?)
    requires !s.proc.value.slow.GrantUnminted? && !s.proc.value.slow.RetryMinted? && !s.proc.value.slow.RetryAppended?
    requires !step.Crash? && !Saves(step) && !step.SettleSlot?
    ensures var p, t := s.proc.value, NextRaw(s, step);
            && t.proc.Some?
            && var q := t.proc.value;
               && q.box.receipts == p.box.receipts && q.recordOwed == p.recordOwed && q.answered == p.answered && q.mintOwed.None?
               && !q.slow.GrantUnminted? && !q.slow.RetryMinted? && !q.slow.RetryAppended?
               && DenialServed(q.slow) == DenialServed(p.slow) && Appending(q.slow) == Appending(p.slow)
  {
    hide Held, Boot, NextUp;
  }

  lemma AllMintedStep(s: State, step: Step)
    requires Shape(s) && s.proc.Some? && Pairing(s.disk, s.proc.value) && Marks(s.disk, s.proc.value) && Unmarked(s, s.proc.value)
    requires AllMinted(s.proc.value) && !(step.Mint? && step.key.None?) && !step.Crash?
    ensures NextRaw(s, step).proc.Some? && AllMinted(NextRaw(s, step).proc.value)
  {
    hide Shape, Pairing, Marks, Unmarked, AllMinted, SlotStep;
    if step.SettleSlot? { SlotPlaces(s); AllMintedSlot(s.proc.value); }
    else if step.AppendReceipt? { AllMintedAppend(s, step.ok); }
    else if Saves(step) { AllMintedSaved(s, step); }
    else { AllMintedOther(s, step); }
  }

  // ---------------------------------------------------------------- grants without failed mints

  /** An unanswered denial's receipt stands behind `r`, or is about to be appended over an owed record. */
  ghost predicate Shadowed(p: Proc, r: Receipt) {
    || (exists e :: e in p.box.receipts && Shadows(p, r, e))
    || (IsDenial(p.recordOwed) && DenialServed(p.slow))
  }

  predicate Shadows(p: Proc, r: Receipt, e: Receipt) {
    !e.granted && r.at < e.at && e.key !in p.answered
  }

  /** A grant past its pair hold is covered, gone or shadowed; past its last hold it is covered. */
  ghost predicate GrantFirm(record: RecordFile, p: Proc) {
    PassReceipt(p.pass).Some? && PassReceipt(p.pass).value.granted ==>
      var r, n := PassReceipt(p.pass).value, Progress(p.pass);
      && (n > 4 ==> Covers(record, r.at) || r !in p.box.receipts || Shadowed(p, r))
      && (n > 5 ==> Covers(record, r.at))
  }

  /** A grant past its pair hold is covered or has a denial behind it. */
  lemma PairHoldShadow(s: State, r: Receipt)
    requires Healthy(s) && AllMinted(s.proc.value) && r.granted && r in s.proc.value.box.receipts
    requires !Covers(s.disk.record, r.at) && !PairIncomplete(s.proc.value)
    ensures Shadowed(s.proc.value, r)
  {
    var p := s.proc.value;
    NotServed(s, r);
    SlotOver(s, r);
    hide Healthy, Covers, Arming, StampOf;
    if !DenialServed(p.slow) {
      var e :| e in p.box.receipts && SlotOf(p, e);
      assert Shadows(p, r, e);
    }
  }

  /** The last hold keeps a shadowed grant back. */
  lemma LastHoldShadow(s: State, r: Receipt)
    requires Healthy(s) && r in s.proc.value.box.receipts && !Covers(s.disk.record, r.at) && Shadowed(s.proc.value, r)
    ensures Held(s.proc.value, s.cfg.me, r, 5)
  {
    var p := s.proc.value;
    HoldsAre(p, s.cfg.me, r);
    DenialPendsIs(s, r);
    if p.slow == Idle {
      var e :| e in p.box.receipts && Shadows(p, r, e);
      assert Pends(p, r, e);
    }
    hide Healthy, Covers, Held, NewerDenialHeld;
  }

  lemma GrantChecked(s: State, m: Mode)
    requires Healthy(s) && AllMinted(s.proc.value) && GrantFirm(s.disk.record, s.proc.value) && m.mints && Kept(s, Check, m)
    ensures GrantFirm(s.disk.record, CheckStep(s.cfg, s.proc.value))
  {
    var p, q := s.proc.value, CheckStep(s.cfg, s.proc.value);
    CheckAdvances(s.cfg, p);
    if p.pass.Checking? && p.pass.r.granted && !Covers(s.disk.record, p.pass.r.at) {
      var r := p.pass.r;
      HoldsAre(p, s.cfg.me, r);
      if p.pass.passed == 4 && !PairIncomplete(p) { PairHoldShadow(s, r); ShadowSame(p, q, r); }
      if p.pass.passed >= 5 { LastHoldShadow(s, r); }
    }
    hide Healthy, AllMinted, Shadowed, Held, CheckStep, Covers, PairIncomplete, NewerDenialHeld, NewerDenialInTrail, DenyProofHeld, LiveDenied;
  }

  lemma ShadowSame(p: Proc, q: Proc, r: Receipt)
    requires Shadowed(p, r) && q == p.(pass := q.pass)
    ensures Shadowed(q, r)
  {
    if e :| e in p.box.receipts && Shadows(p, r, e) { assert Shadows(q, r, e); }
  }

  /** While the pass keeps its grant, the denial behind it stays, unless both are evicted. */
  lemma ShadowStays(s: State, step: Step, r: Receipt)
    requires Healthy(s) && AllMinted(s.proc.value) && !step.Crash? && !step.Check? && !(step.Mint? && step.key.None?)
    requires PassReceipt(s.proc.value.pass) == Some(r) && Shadowed(s.proc.value, r)
    requires !(step.PruneReceipt? && s.proc.value.pass.Settling?)
    ensures var t := NextRaw(s, step); t.proc.Some? && (r in t.proc.value.box.receipts ==> Shadowed(t.proc.value, r))
  {
    StaysUp(s, step);
    var p, q := s.proc.value, NextRaw(s, step).proc.value;
    if r in q.box.receipts {
      if e :| e in p.box.receipts && Shadows(p, r, e) { WitnessStays(s, step, r, e); }
      else if step.AppendReceipt? { AppendShadows(s, step.ok, r); }
      else { DenyPends(s, step); }
    }
    hide Healthy, NextRaw, AllMinted;
  }

  lemma WitnessStays(s: State, step: Step, r: Receipt, e: Receipt)
    requires Shape(s) && s.proc.Some? && !step.Crash? && NextRaw(s, step).proc.Some?
    requires !(step.PruneReceipt? && s.proc.value.pass.Settling?)
    requires e in s.proc.value.box.receipts && Shadows(s.proc.value, r, e) && r in NextRaw(s, step).proc.value.box.receipts
    ensures var q := NextRaw(s, step).proc.value; e in q.box.receipts && Shadows(q, r, e)
  {
    Effects(s, step);
    AnsweredMoves(s, step);
    var p, q := s.proc.value, NextRaw(s, step).proc.value;
    assert e in MirrorBase(p, step);
    TrailTells(q.box.receipts, s.cfg.me, r, r);
    hide Shape, NextRaw, MirrorBase, Trail, FileFollows;
  }

  /** The denial being served is appended behind the grant. */
  lemma AppendShadows(s: State, ok: bool, r: Receipt)
    requires Healthy(s) && PassReceipt(s.proc.value.pass) == Some(r)
    requires IsDenial(s.proc.value.recordOwed) && DenialServed(s.proc.value.slow)
    ensures var t := NextRaw(s, AppendReceipt(ok)); t.proc.Some? && Shadowed(t.proc.value, r)
  {
    var p := s.proc.value;
    if p.slow.DenyMinted? {
      AppendedShown(s, ok);
      MintedNewer(s, r);
      hide Healthy, NextRaw;
      assert Shadows(NextRaw(s, AppendReceipt(ok)).proc.value, r, p.slow.r);
    } else { AppendTouches(s, ok); hide Healthy, NextRaw; }
  }

  lemma MintedNewer(s: State, r: Receipt)
    requires Shape(s) && s.proc.Some? && PassReceipt(s.proc.value.pass) == Some(r) && s.proc.value.slow.DenyMinted?
    ensures r.at < s.proc.value.slow.r.at
  {
    TrailFacts(s);
    PendingAhead(s, s.proc.value);
    hide Shape, Trail, PassPlace, Stamps, Ahead;
    PassOlder(s, s.proc.value, s.proc.value.slow.r.at);
  }

  lemma PendingAhead(s: State, p: Proc)
    requires Stamps(s, p) && p.slow.DenyMinted?
    ensures Ahead(p.box.receipts, p.slow.r.at)
  {
    assert PendingAt(p.slow) == Some(p.slow.r.at);
    hide Ahead, Newest;
  }

  lemma DenyPends(s: State, step: Step)
    requires s.proc.Some? && !step.Crash? && !step.AppendReceipt? && !(step.Mint? && step.key.None?)
    requires DenialServed(s.proc.value.slow)
    ensures var t := NextRaw(s, step);
            t.proc.Some? && t.proc.value.recordOwed == s.proc.value.recordOwed && DenialServed(t.proc.value.slow)
  {
    hide Held, Append, Prune, Save, Boot;
  }

  lemma GrantFirmStep(s: State, step: Step, m: Mode)
    requires Healthy(s) && AllMinted(s.proc.value) && GrantFirm(s.disk.record, s.proc.value) && m.mints
    requires Kept(s, step, m) && !step.Crash? && !(step.Mint? && step.key.None?)
    ensures var t := NextRaw(s, step); t.proc.Some? && GrantFirm(t.disk.record, t.proc.value)
  {
    if step.Check? { GrantChecked(s, m); hide CheckStep; }
    else { GrantCarried(s, step); hide NextRaw; }
    hide Healthy, AllMinted, GrantFirm, Kept;
  }

  lemma GrantCarried(s: State, step: Step)
    requires Healthy(s) && AllMinted(s.proc.value) && GrantFirm(s.disk.record, s.proc.value)
    requires !step.Crash? && !step.Check? && !(step.Mint? && step.key.None?)
    ensures var t := NextRaw(s, step); t.proc.Some? && GrantFirm(t.disk.record, t.proc.value)
  {
    PassKeepsPlace(s, step);
    SettlingRests(s, step);
    var p, t := s.proc.value, NextRaw(s, step);
    hide Healthy, NextRaw, AllMinted, Shadowed, Covers;
    if PassReceipt(t.proc.value.pass).Some? && Progress(t.proc.value.pass) > 0 {
      var r := PassReceipt(p.pass).value;
      if Covers(s.disk.record, r.at) { RecordOn(s, step, r.at); }
      else if Shadowed(p, r) { ShadowStays(s, step, r); }
    }
  }

  lemma RecordOn(s: State, step: Step, x: int)
    requires Healthy(s) && !step.Crash? && Covers(s.disk.record, x)
    ensures Covers(NextRaw(s, step).disk.record, x)
  {
    RecordForward(s, step, x);
    hide Shape, Pairing, NextRaw, Covers, Marks, Unmarked;
  }

  lemma SettlingRests(s: State, step: Step)
    requires s.proc.Some?
    ensures step.PruneReceipt? && s.proc.value.pass.Settling? ==>
              NextRaw(s, step).proc.Some? && NextRaw(s, step).proc.value.pass == Resting
  {
    if step.PruneReceipt? { PruneTouches(s, step.ok); }
    hide NextRaw, Prune;
  }

  // ---------------------------------------------------------------- every step, every run

  ghost predicate Paired(disk: Disk, p: Proc, m: Mode) {
    && (m.denials ==> JudgedCovered(disk, p, false) && Firm(disk.record, p, false))
    && (if m.mints then AllMinted(p) && GrantFirm(disk.record, p) else JudgedCovered(disk, p, true) && Firm(disk.record, p, true))
  }

  lemma PairedStep(s: State, step: Step, m: Mode)
    requires Healthy(s) && !step.Crash? && Paired(s.disk, s.proc.value, m) && Fair(s, step, m)
    ensures var t := NextRaw(s, step); t.proc.Some? && Paired(t.disk, t.proc.value, m)
  {
    StaysUp(s, step);
    if m.denials { FirmStep(s, step, false); }
    if m.mints { AllMintedStep(s, step); GrantFirmStep(s, step, m); } else { FirmStep(s, step, true); }
    hide Shape, Pairing, Marks, Unmarked, NextRaw, JudgedCovered, Firm, AllMinted, GrantFirm, Unraced;
  }

  lemma PairedStart(s: State, healOk: bool, markOk: bool, m: Mode)
    requires Shape(s)
    ensures var (disk, p) := Boot(s.cfg, s.disk, healOk, markOk); Paired(disk, p, m)
  {
    BootPlain(s, healOk, markOk);
    LoadBoxLists(s.disk.trail, s.cfg.me);
    var rs, p := Listed(s.disk.trail), Boot(s.cfg, s.disk, healOk, markOk).1;
    hide Boot, Conclude, Resolve, Shape, LoadBox;
    if IsDenial(p.recordOwed) {
      assert rs[|rs| - 1] in rs;
      assert SlotOf(p, rs[|rs| - 1]);
    }
  }

  /** The invariant of a run in which every step is fair. */
  ghost predicate Orderly(s: State, m: Mode) {
    Steady(s) && (s.proc.Some? && !Absorbing(s.disk.record) ==> Paired(s.disk, s.proc.value, m))
  }

  lemma OrderlyStep(s: State, step: Step, m: Mode)
    requires Orderly(s, m) && Fair(s, step, m)
    ensures Orderly(Next(s, step), m) && Next(s, step).cfg == s.cfg
  {
    SteadyStep(s, step);
    if !Absorbing(s.disk.record) {
      if s.proc.Some? && !step.Crash? { SteadyHealthy(s); PairedStep(s, step, m); }
      else if s.proc.None? && step.Start? { SteadyShape(s); PairedStart(s, step.healOk, step.markOk, m); }
      else { DownStays(s, step); }
    }
    hide Steady, Fair, Paired, Healthy, NextProc, Boot, Absorbing;
  }

  lemma SteadyShape(s: State)
    requires Steady(s)
    ensures Shape(s)
  {
  }

  ghost predicate FairRun(s: State, steps: seq<Step>, m: Mode) {
    steps == [] ||
    (FairRun(s, steps[..|steps| - 1], m) && Fair(Run(s, steps[..|steps| - 1]), steps[|steps| - 1], m))
  }

  lemma {:induction false} OrderlyRun(s: State, steps: seq<Step>, m: Mode)
    requires Orderly(s, m) && FairRun(s, steps, m)
    ensures Orderly(Run(s, steps), m) && Run(s, steps).cfg == s.cfg
  {
    hide Orderly, Next, Fair;
    if steps != [] {
      OrderlyRun(s, steps[..|steps| - 1], m);
      OrderlyStep(Run(s, steps[..|steps| - 1]), steps[|steps| - 1], m);
    }
  }

  /**
   Pair before dispatch. A receipt about to be posted, posted or about to be pruned stands under a
   record at least as new as its decision, or under a forced-minor record: a grant, in every run in
   which no mint fails or no pass judges a grant's first hold between its append and its mark; a
   denial, in every run in which no pass judges a denial's first hold there; and in which no eviction
   takes an uncovered receipt while it is being judged.
   */
  lemma PairBeforeDispatch(s: State, steps: seq<Step>, m: Mode)
    requires Shape(s) && s.proc.None? && FairRun(s, steps, m)
    ensures var e := Run(s, steps);
            e.proc.Some? && Posting(e.proc.value.pass) && Vouches(m, PassReceipt(e.proc.value.pass).value.granted) ==>
              Absorbing(e.disk.record) || Covers(e.disk.record, PassReceipt(e.proc.value.pass).value.at)
  {
    hide Run, Next, FairRun, Absorbing, Steady, Shape;
    assert Orderly(s, m) by { SteadyRest(s); }
    OrderlyRun(s, steps, m);
  }
}
