/**
 The crash-closed denial: once a denial has reached the disk, as a record or as a
 receipt, no later state reloads as granted before a newer grant's receipt is durable.
 */
module FloorEvidence {
  import opened Basics
  import opened DecisionRecord
  import opened ConsentReceipts
  import opened ConsentOutbox
  import opened ConsentMirror
  import opened ConsentFloor
  import opened FloorShape
  import opened FloorPairing
  import opened FloorDecisions
  import opened FloorClose
  import opened FloorMarks

  // ---------------------------------------------------------------- what the disk testifies

  /** The decision stamped `x` is still visible: the record or the end of the trail is at least as new. */
  predicate Dominated(record: RecordFile, rs: seq<Receipt>, x: int) {
    Covers(record, x) || (rs != [] && rs[|rs| - 1].at >= x)
  }

  /** The observers know what stands on disk, and a recorded grant's receipt was durable. */
  ghost predicate Observed(s: State) {
    && (forall e :: e in Listed(s.disk.trail) ==> if e.granted then e.at in s.grants else e.at in s.denials)
    && (RecordLive(s.disk.record) == Granted && RecordAt(s.disk.record).Some? ==> RecordAt(s.disk.record).value in s.grants)
  }

  /** A grant's receipt as new as `x` has stood on disk. */
  ghost predicate Outdated(s: State, x: int) {
    exists g :: g in s.grants && g >= x
  }

  ghost predicate AllDominated(s: State, rs: seq<Receipt>) {
    forall x :: x in s.denials ==> Outdated(s, x) || Dominated(s.disk.record, rs, x)
  }

  /** The list has a newer receipt than `r`. */
  ghost predicate Outlived(rs: seq<Receipt>, r: Receipt) {
    exists e :: e in rs && r.at < e.at
  }

  /** Taking `r` away leaves everything dominated. */
  ghost predicate Safe(record: RecordFile, rs: seq<Receipt>, r: Receipt) {
    Covers(record, r.at) || Outlived(rs, r)
  }

  /** A denial past its proof hold is not the trail's last word, or its record is down. */
  ghost predicate DenySafe(record: RecordFile, p: Proc) {
    PassReceipt(p.pass).Some? && !PassReceipt(p.pass).value.granted && Progress(p.pass) > 3 ==>
      Safe(record, p.box.receipts, PassReceipt(p.pass).value)
  }

  /** A grant past its pair hold has stood on disk, or an eviction has taken it. */
  ghost predicate GrantSeen(s: State, p: Proc) {
    PassReceipt(p.pass).Some? && PassReceipt(p.pass).value.granted && Progress(p.pass) > 4 ==>
      PassReceipt(p.pass).value.at in s.grants || PassReceipt(p.pass).value !in p.box.receipts
  }

  ghost predicate Testimony(s: State, p: Proc) {
    && AllDominated(s, p.box.receipts)
    && DenySafe(s.disk.record, p) && GrantSeen(s, p)
    && (p.slow.GrantAppended? && p.slow.stored ==> p.slow.r.at in s.grants)
  }

  ghost predicate Testified(s: State) {
    && Coherent(s)
    && (Absorbing(s.disk.record) ||
          (Observed(s) && AllDominated(s, Listed(s.disk.trail)) &&
           (s.proc.Some? ==> Testimony(s, s.proc.value))))
  }

  /** While the newest evidence is a denial, the files resolve to a denial. */
  lemma TestimonyResolves(s: State, d: int)
    requires Shape(s) && Observed(s) && AllDominated(s, Listed(s.disk.trail))
    requires d in s.denials && forall g :: g in s.grants ==> g < d
    ensures Resolve(s.cfg, s.disk) == Denied || Resolve(s.cfg, s.disk) == DeniedForcedMinor
  {
    var rs := Listed(s.disk.trail);
    BootPlain(s, true, true);
    RecordWord(s);
    assert !Outdated(s, d);
    assert Dominated(s.disk.record, rs, d);
    assert rs != [] ==> rs[|rs| - 1] in rs;
    hide Boot, Conclude, Resolve, Shape, AllDominated;
  }

  // ---------------------------------------------------------------- domination, step by step

  /** What is as new as `at` in a list survives its save, or something newer does. */
  lemma EndStays(base: seq<Receipt>, listed: seq<Receipt>, out: seq<Receipt>, me: Identity, e: Receipt)
    requires Trail(out, me) && Sifted(base, listed, out) && e in base
    ensures out != [] && out[|out| - 1].at >= e.at
  {
    assert out != [] ==> out[|out| - 1].at >= out[0].at;
    if e in out { TrailTells(out, me, e, e); }
  }

  /** A prune takes no stamp's only witness. */
  ghost predicate PruneKeeps(s: State, step: Step) {
    s.proc.Some? && step.PruneReceipt? && s.proc.value.pass.Settling? ==>
      s.proc.value.pass.r !in s.proc.value.box.receipts || Outlived(s.proc.value.box.receipts, s.proc.value.pass.r)
  }

  lemma DominatedOne(s: State, step: Step, x: int)
    requires Shape(s) && s.proc.Some? && !step.Crash? && Pairing(s.disk, s.proc.value)
    requires Dominated(s.disk.record, s.proc.value.box.receipts, x) && Dominated(s.disk.record, Listed(s.disk.trail), x)
    requires Covers(s.disk.record, x) || PruneKeeps(s, step)
    ensures var t := NextRaw(s, step);
            && t.proc.Some?
            && Dominated(t.disk.record, t.proc.value.box.receipts, x)
            && Dominated(t.disk.record, Listed(t.disk.trail), x)
  {
    StaysUp(s, step);
    if Covers(s.disk.record, x) { RecordForward(s, step, x); } else { DominatedEnd(s, step, x); }
    hide Shape, NextRaw, Pairing, Covers, PruneKeeps;
  }

  lemma DominatedEnd(s: State, step: Step, x: int)
    requires Shape(s) && s.proc.Some? && NextRaw(s, step).proc.Some? && PruneKeeps(s, step)
    requires s.proc.value.box.receipts != [] && s.proc.value.box.receipts[|s.proc.value.box.receipts| - 1].at >= x
    ensures var out, listed := NextRaw(s, step).proc.value.box.receipts, Listed(NextRaw(s, step).disk.trail);
            && out != [] && out[|out| - 1].at >= x
            && (listed == Listed(s.disk.trail) || listed == out)
  {
    Effects(s, step);
    var e := BaseEnds(s, step);
    hide Shape, NextRaw, PruneKeeps, MirrorBase, Effect;
    EffectEnds(s, step, NextRaw(s, step), e);
  }

  lemma EffectEnds(s: State, step: Step, t: State, e: Receipt)
    requires Effect(s, step, t) && e in MirrorBase(s.proc.value, step)
    ensures var out := t.proc.value.box.receipts;
            && out != [] && out[|out| - 1].at >= e.at
            && (Listed(t.disk.trail) == Listed(s.disk.trail) || Listed(t.disk.trail) == out)
  {
    hide Trail, Sifted, MirrorBase;
    EndStays(MirrorBase(s.proc.value, step), Listed(s.disk.trail), t.proc.value.box.receipts, s.cfg.me, e);
  }

  /** What a save starts from has a receipt no older than the mirror's end. */
  lemma BaseEnds(s: State, step: Step) returns (e: Receipt)
    requires Shape(s) && s.proc.Some? && PruneKeeps(s, step) && s.proc.value.box.receipts != []
    ensures e in MirrorBase(s.proc.value, step) && e.at >= s.proc.value.box.receipts[|s.proc.value.box.receipts| - 1].at
  {
    TrailFacts(s);
    var p := s.proc.value;
    var rs := p.box.receipts;
    e := rs[|rs| - 1];
    assert e in rs;
    if step.PruneReceipt? && p.pass.Settling? {
      BaseWithout(s, step);
      if p.pass.r in rs {
        var f :| f in rs && p.pass.r.at < f.at;
        TrailTells(rs, s.cfg.me, e, f);
      }
    }
    hide Shape, Trail, Stamps, PassPlace, Known, Gone, Without, HasKey;
  }

  lemma DominatedStep(s: State, step: Step)
    requires Shape(s) && s.proc.Some? && !step.Crash? && Pairing(s.disk, s.proc.value) && Testimony(s, s.proc.value)
    requires AllDominated(s, Listed(s.disk.trail))
    ensures var t := NextRaw(s, step);
            && t.proc.Some? && t.denials == s.denials && t.grants == s.grants
            && AllDominated(t, t.proc.value.box.receipts) && AllDominated(t, Listed(t.disk.trail))
  {
    StaysUp(s, step);
    SetsStay(s, step);
    var t := NextRaw(s, step);
    forall x | x in s.denials
      ensures Outdated(t, x) || (Dominated(t.disk.record, t.proc.value.box.receipts, x) && Dominated(t.disk.record, Listed(t.disk.trail), x))
    {
      if Outdated(s, x) {
        var g :| g in s.grants && g >= x;
        assert g in t.grants;
      } else {
        PruneLeaves(s, step, x);
        hide Shape, NextRaw, Pairing, Testimony, PruneKeeps, Dominated, Outdated;
        DominatedOne(s, step, x);
      }
    }
    hide Shape, NextRaw, Pairing, Testimony, Dominated, Outdated;
  }

  /** A prune takes the only witness of no denial but one that a grant has outdated. */
  lemma PruneLeaves(s: State, step: Step, x: int)
    requires Shape(s) && s.proc.Some? && Testimony(s, s.proc.value) && x in s.denials && !Outdated(s, x)
    ensures Covers(s.disk.record, x) || PruneKeeps(s, step)
  {
    var p := s.proc.value;
    if step.PruneReceipt? && p.pass.Settling? && p.pass.r in p.box.receipts && !Outlived(p.box.receipts, p.pass.r) {
      TrailFacts(s);
      var r, rs := p.pass.r, p.box.receipts;
      TrailTells(rs, s.cfg.me, rs[|rs| - 1], r);
      assert rs[|rs| - 1] in rs;
      hide Shape, Trail, Stamps, PassPlace;
      assert r == rs[|rs| - 1];
      assert Dominated(s.disk.record, rs, x);
    }
  }

  lemma SetsStay(s: State, step: Step)
    ensures NextRaw(s, step).denials == s.denials && NextRaw(s, step).grants == s.grants && NextRaw(s, step).cfg == s.cfg
  {
    hide Held, Append, Prune, Save, Boot, BeginTurn, FastHalf;
  }

  // ---------------------------------------------------------------- one warrant: no grant is owed to a failed mint

  /** The environment mints every grant's key. */
  predicate MintsGrant(s: State, step: Step) {
    s.proc.Some? && s.proc.value.slow.GrantStamped? ==> !(step.Mint? && step.key.None?)
  }

  /** No grant is owed to a failed mint, so an owed grant record has its receipt at the end of the trail. */
  ghost predicate GrantsMinted(p: Proc) {
    && !IsGrant(p.mintOwed) && !p.slow.GrantUnminted?
    && (p.slow.RetryMinted? ==> !p.slow.r.granted)
    && (p.slow.RetryAppended? ==> !p.slow.r.granted)
    && (IsGrant(p.recordOwed) && !Appending(p.slow) ==> EndsIn(p.box.receipts, p.recordOwed.value))
  }

  lemma MintedSlot(s: State)
    requires Shape(s) && s.proc.Some? && Pairing(s.disk, s.proc.value) && GrantsMinted(s.proc.value)
    ensures GrantsMinted(SlotStep(s.proc.value))
  {
    PlaceOf(s);
    hide Shape, Pairing, Covers;
  }

  lemma MintedAppend(s: State, ok: bool)
    requires Shape(s) && s.proc.Some? && Pairing(s.disk, s.proc.value) && GrantsMinted(s.proc.value)
    ensures GrantsMinted(NextRaw(s, AppendReceipt(ok)).proc.value)
  {
    var p := s.proc.value;
    AppendTouches(s, ok);
    if MintedIn(p.slow).Some? {
      PlaceOf(s);
      hide Shape, Pairing, NextRaw, GrantsMinted, Place;
      AppendedMinted(s.disk.record, p, NextRaw(s, AppendReceipt(ok)).proc.value);
    }
  }

  lemma AppendedMinted(record: RecordFile, p: Proc, q: Proc)
    requires Place(record, p) && GrantsMinted(p) && MintedIn(p.slow).Some?
    requires q == p.(box := q.box, slow := q.slow) && Appended(p.slow, q.slow)
    ensures GrantsMinted(q)
  {
    hide Covers, EndsIn;
  }

  lemma MintedSaved(s: State, step: Step)
    requires Shape(s) && s.proc.Some? && Pairing(s.disk, s.proc.value) && GrantsMinted(s.proc.value)
    requires step.PruneReceipt? || step.PersistAgain?
    ensures NextRaw(s, step).proc.Some? && GrantsMinted(NextRaw(s, step).proc.value)
  {
    var p := s.proc.value;
    SlotEndStays(s, step);
    if step.PruneReceipt? { PruneTouches(s, step.ok); } else { PersistTouches(s, step.ok); }
    hide Shape, Pairing, NextRaw, EndsIn, Prune, RetryPersist;
  }

  /** While the trail ends in the slot's receipt, saves leave it there. */
  lemma SlotEndStays(s: State, step: Step)
    requires Shape(s) && s.proc.Some? && Pairing(s.disk, s.proc.value) && (step.PruneReceipt? || step.PersistAgain?)
    ensures var p, t := s.proc.value, NextRaw(s, step);
            && t.proc.Some?
            && (p.recordOwed.Some? && EndsIn(p.box.receipts, p.recordOwed.value) && !Appending(p.slow) ==>
                  EndsIn(t.proc.value.box.receipts, p.recordOwed.value))
  {
    StaysUp(s, step);
    TrailFacts(s);
    Effects(s, step);
    BaseWithout(s, step);
    FreeOf(s.disk, s.proc.value);
    PrunedFree(s.proc.value, step);
    PairingSaved(s, step);
    SaveSlots(s, step);
    var t := NextRaw(s, step);
    NewestOf(t.disk, t.proc.value);
    hide Shape, Pairing, NextRaw, Trail, Stamps, PassPlace, SlotNewest;
    EndInSlot(s, t, step, s.proc.value, t.proc.value);
  }

  lemma SaveSlots(s: State, step: Step)
    requires s.proc.Some? && (step.PruneReceipt? || step.PersistAgain?)
    ensures var p, t := s.proc.value, NextRaw(s, step);
            t.proc.Some? && t.proc.value == p.(box := t.proc.value.box, pass := t.proc.value.pass, answered := t.proc.value.answered)
  {
    if step.PruneReceipt? { PruneTouches(s, step.ok); } else { PersistTouches(s, step.ok); }
    hide NextRaw, Prune, RetryPersist;
  }

  lemma MintedOther(s: State, step: Step)
    requires s.proc.Some? && Place(s.disk.record, s.proc.value) && GrantsMinted(s.proc.value) && MintsGrant(s, step)
    requires !step.Crash? && !Saves(step) && !step.SettleSlot?
    ensures NextRaw(s, step).proc.Some? && GrantsMinted(NextRaw(s, step).proc.value)
  {
    hide Held, Boot, NextUp, Covers;
  }

  lemma MintedStep(s: State, step: Step)
    requires Shape(s) && s.proc.Some? && Pairing(s.disk, s.proc.value) && GrantsMinted(s.proc.value)
    requires MintsGrant(s, step) && !step.Crash?
    ensures NextRaw(s, step).proc.Some? && GrantsMinted(NextRaw(s, step).proc.value)
  {
    hide Shape, Pairing, MintsGrant;
    if step.SettleSlot? { MintedSlot(s); }
    else if step.AppendReceipt? { MintedAppend(s, step.ok); }
    else if Saves(step) { MintedSaved(s, step); }
    else { hide GrantsMinted, NextRaw; PlaceOf(s); MintedOther(s, step); }
  }

  /** A denial past its proof hold is not the trail's last word, or its record is down. */
  lemma ProofHoldSafe(s: State, r: Receipt)
    requires Shape(s) && s.proc.Some? && Pairing(s.disk, s.proc.value) && GrantsMinted(s.proc.value)
    requires !r.granted && r in s.proc.value.box.receipts && !DenyProofHeld(s.proc.value, s.cfg.me, r)
    ensures Safe(s.disk.record, s.proc.value.box.receipts, r)
  {
    TrailFacts(s);
    PlaceOf(s);
    NewestOf(s.disk, s.proc.value);
    var p := s.proc.value;
    var rs := p.box.receipts;
    assert Dated(s.disk.record, p, r) && rs[|rs| - 1] in rs;
    TrailTells(rs, s.cfg.me, rs[|rs| - 1], r);
    hide Shape, Pairing, Trail, Stamps, PassPlace, SlotNewest, Covers, Outlived;
    assert r.at < rs[|rs| - 1].at ==> Outlived(rs, r) by { LastOutlives(rs, r); }
  }

  lemma LastOutlives(rs: seq<Receipt>, r: Receipt)
    requires rs != []
    ensures r.at < rs[|rs| - 1].at ==> Outlived(rs, r)
  {
    assert rs[|rs| - 1] in rs;
  }

  // ---------------------------------------------------------------- the pass under either warrant

  /** What spares the run: every grant gets its key, or no pass judges a denial inside its window. */
  predicate Spared(s: State, step: Step, mints: bool) {
    if mints then MintsGrant(s, step) else Unraced(s, step, false)
  }

  ghost predicate Warranted(s: State, p: Proc, mints: bool) {
    if mints then GrantsMinted(p) else Marks(s.disk, p) && Unmarked(s, p) && JudgedCovered(s.disk, p, false)
  }

  lemma WarrantedStep(s: State, step: Step, mints: bool)
    requires Shape(s) && s.proc.Some? && Pairing(s.disk, s.proc.value) && !step.Crash?
    requires Warranted(s, s.proc.value, mints) && Spared(s, step, mints)
    ensures var t := NextRaw(s, step); t.proc.Some? && Warranted(t, t.proc.value, mints)
  {
    StaysUp(s, step);
    if mints { MintedStep(s, step); }
    else {
      MarksStep(s, step);
      CoveredNext(s, step, false);
    }
    hide Shape, Pairing, Marks, Unmarked, JudgedCovered, GrantsMinted, MintsGrant, Unraced;
  }

  lemma WarrantedStart(s: State, healOk: bool, markOk: bool, mints: bool)
    requires Shape(s) && s.proc.None? && CleanStart(s)
    ensures var t := NextRaw(s, Start(healOk, markOk)); t.proc.Some? && Warranted(t, t.proc.value, mints)
  {
    BootPlain(s, healOk, markOk);
    LoadBoxLists(s.disk.trail, s.cfg.me);
    MarksStart(s, healOk, markOk);
    UnmarkedStart(s, healOk, markOk);
    hide Boot, Conclude, Resolve, Shape, Marks, LoadBox;
  }

  /** The proof hold lets a denial pass only if taking it away is safe. */
  lemma DenyChecked(s: State, mints: bool)
    requires Shape(s) && s.proc.Some? && Pairing(s.disk, s.proc.value) && Warranted(s, s.proc.value, mints)
    requires DenySafe(s.disk.record, s.proc.value)
    ensures DenySafe(s.disk.record, CheckStep(s.cfg, s.proc.value))
  {
    var p := s.proc.value;
    CheckAdvances(s.cfg, p);
    if p.pass.Checking? && !p.pass.r.granted {
      HoldsAre(p, s.cfg.me, p.pass.r);
      if p.pass.passed == 3 && !DenyProofHeld(p, s.cfg.me, p.pass.r) { PassedProof(s, mints, p.pass.r); }
    }
    hide Shape, Pairing, Warranted, Held, DenyProofHeld, Safe, CheckStep;
  }

  lemma PassedProof(s: State, mints: bool, r: Receipt)
    requires Shape(s) && s.proc.Some? && Pairing(s.disk, s.proc.value) && Warranted(s, s.proc.value, mints)
    requires s.proc.value.pass == Checking(r, 3) && !r.granted && !DenyProofHeld(s.proc.value, s.cfg.me, r)
    ensures Safe(s.disk.record, s.proc.value.box.receipts, r)
  {
    ShapeParts(s);
    if r in s.proc.value.box.receipts {
      if mints { ProofHoldSafe(s, r); }
    } else { GoneOutlived(s, s.proc.value); }
    hide Shape, Pairing, Linked, Trail, Stamps, PassPlace, Marks, Unmarked, GrantsMinted, DenyProofHeld, Outlived, Covers;
  }

  lemma GoneOutlived(s: State, p: Proc)
    requires PassPlace(s, p) && PassReceipt(p.pass).Some? && PassReceipt(p.pass).value !in p.box.receipts
    ensures Outlived(p.box.receipts, PassReceipt(p.pass).value)
  {
    assert p.box.receipts[|p.box.receipts| - 2] in p.box.receipts;
  }

  /** A receipt once safe stays safe while the pass keeps it. */
  lemma SafeStays(s: State, step: Step, r: Receipt)
    requires Shape(s) && s.proc.Some? && !step.Crash? && !step.PruneReceipt? && Pairing(s.disk, s.proc.value)
    requires Safe(s.disk.record, s.proc.value.box.receipts, r)
    ensures var t := NextRaw(s, step); t.proc.Some? && Safe(t.disk.record, t.proc.value.box.receipts, r)
  {
    StaysUp(s, step);
    if Covers(s.disk.record, r.at) { RecordForward(s, step, r.at); }
    else {
      Effects(s, step);
      var p, q := s.proc.value, NextRaw(s, step).proc.value;
      var e :| e in p.box.receipts && r.at < e.at;
      assert e in MirrorBase(p, step);
      EndStays(MirrorBase(p, step), Listed(s.disk.trail), q.box.receipts, s.cfg.me, e);
      LastOutlives(q.box.receipts, r);
    }
    hide Shape, NextRaw, Pairing, Covers, Outlived;
  }

  lemma DenySafeStep(s: State, step: Step, mints: bool)
    requires Shape(s) && s.proc.Some? && !step.Crash? && Pairing(s.disk, s.proc.value)
    requires Warranted(s, s.proc.value, mints) && DenySafe(s.disk.record, s.proc.value)
    ensures var t := NextRaw(s, step); t.proc.Some? && DenySafe(t.disk.record, t.proc.value)
  {
    StaysUp(s, step);
    if step.Check? { DenyChecked(s, mints); hide CheckStep; }
    else {
      PassKeepsPlace(s, step);
      var p, t := s.proc.value, NextRaw(s, step);
      if step.PruneReceipt? { PruneTouches(s, step.ok); }
      else if PassReceipt(p.pass).Some? && Safe(s.disk.record, p.box.receipts, PassReceipt(p.pass).value) {
        SafeStays(s, step, PassReceipt(p.pass).value);
      }
      hide NextRaw, Prune;
    }
    hide Shape, Pairing, Warranted, Safe;
  }

  /** A grant that passes the pair hold stands on disk. */
  lemma GrantChecked(s: State)
    requires Shape(s) && s.proc.Some? && Observed(s) && GrantSeen(s, s.proc.value)
    ensures GrantSeen(s, CheckStep(s.cfg, s.proc.value))
  {
    var p := s.proc.value;
    if p.pass.Checking? && p.pass.r.granted && p.pass.passed == 4 && !PairIncomplete(p) {
      ShapeParts(s);
      LinkedTrails(p.box, s.disk.trail, s.cfg.me, s.used);
    }
    hide Shape, Linked, Trail, Stamps, PassPlace, NewerDenialHeld, NewerDenialInTrail, DenyProofHeld, Arming;
  }

  lemma GrantSeenStep(s: State, step: Step)
    requires Shape(s) && s.proc.Some? && !step.Crash? && Observed(s) && GrantSeen(s, s.proc.value)
    ensures var t := NextRaw(s, step); t.proc.Some? && GrantSeen(t, t.proc.value)
  {
    StaysUp(s, step);
    SetsStay(s, step);
    if step.Check? { GrantChecked(s); hide CheckStep; }
    else { PassKeepsPlace(s, step); hide NextRaw; }
    hide Shape, Observed;
  }

  // ---------------------------------------------------------------- what the observers know

  lemma ObservedAfter(s: State)
    requires RecordLive(s.disk.record) == Granted && RecordAt(s.disk.record).Some? ==> RecordAt(s.disk.record).value in s.grants
    ensures Observed(Observe(s))
  {
    var rs := Listed(s.disk.trail);
    forall e | e in rs ensures if e.granted then e.at in Observe(s).grants else e.at in Observe(s).denials {
      var i :| 0 <= i < |rs| && rs[i] == e;
      assert rs[i].granted == e.granted && rs[i].at == e.at;
    }
  }

  /** A grant's record is written only once its receipt has been on disk. */
  lemma GrantRecorded(s: State, step: Step)
    requires Shape(s) && s.proc.Some? && !step.Crash?
    requires Pairing(s.disk, s.proc.value) && Observed(s) && Testimony(s, s.proc.value)
    ensures var record := NextRaw(s, step).disk.record;
            RecordLive(record) == Granted && RecordAt(record).Some? ==> RecordAt(record).value in s.grants
  {
    if step.TakeOwedRecord? { GrantRetried(s, step.ok); }
    else if step.WriteRecord? { hide Shape, Pairing, AllDominated, DenySafe, GrantSeen; }
    else if !step.Start? { RecordStays(s, step); hide NextRaw; }
  }

  lemma GrantRetried(s: State, ok: bool)
    requires Shape(s) && s.proc.Some? && Pairing(s.disk, s.proc.value) && Observed(s)
    ensures var record := NextRaw(s, TakeOwedRecord(ok)).disk.record;
            RecordLive(record) == Granted && RecordAt(record).Some? ==> RecordAt(record).value in s.grants
  {
    var p := s.proc.value;
    TakeWrites(s, ok);
    if p.recordOwed.Some? && p.recordOwed.value.decision == Grant && p.slow == Idle && !p.box.dirty
       && EndsIn(p.box.receipts, p.recordOwed.value) {
      ShapeParts(s);
      LinkedTrails(p.box, s.disk.trail, s.cfg.me, s.used);
      assert p.box.receipts[|p.box.receipts| - 1] in Listed(s.disk.trail);
      assert p.box.receipts[|p.box.receipts| - 1].granted;
    }
    hide Shape, NextRaw, Linked, Trail, SlotNewest, HeadTicket, PassFree, Place, Stamps, PassPlace, SlotUncovered;
  }

  lemma TakeWrites(s: State, ok: bool)
    requires s.proc.Some?
    ensures var p, record := s.proc.value, NextRaw(s, TakeOwedRecord(ok)).disk.record;
            || record == s.disk.record
            || (p.slow == Idle && p.recordOwed.Some? && RecordLive(record) == LiveOf(p.recordOwed.value.decision)
                && RecordAt(record) == Some(p.recordOwed.value.at)
                && (p.recordOwed.value.decision == Grant ==>
                      !p.box.dirty && (p.mintOwed.None? || p.mintOwed.value.at != p.recordOwed.value.at)))
  {
  }

  /** A grant whose append was durable has its receipt observed on disk. */
  lemma AppendedObserved(s: State, step: Step)
    requires Shape(s) && s.proc.Some? && !step.Crash?
    requires Pairing(s.disk, s.proc.value) && Testimony(s, s.proc.value)
    ensures var t := Next(s, step);
            t.proc.Some? && (t.proc.value.slow.GrantAppended? && t.proc.value.slow.stored ==> t.proc.value.slow.r.at in t.grants)
  {
    StaysUp(s, step);
    SetsStay(s, step);
    var p, q, t := s.proc.value, NextRaw(s, step).proc.value, Next(s, step);
    if q.slow.GrantAppended? && q.slow.stored {
      if p.slow.GrantAppended? { AppendedSame(s, step); }
      else {
        AppendedNew(s, step);
        Effects(s, step);
        PairingStep(s, step);
        hide Shape, NextRaw, Pairing, Testimony, Observe;
        LastObserved(NextRaw(s, step), q.slow.r);
      }
    }
  }

  lemma LastObserved(s: State, r: Receipt)
    requires s.proc.Some? && s.proc.value.slow.GrantAppended? && s.proc.value.slow.r == r
    requires Pairing(s.disk, s.proc.value) && Listed(s.disk.trail) == s.proc.value.box.receipts
    ensures r.at in Observe(s).grants
  {
    hide SlotUncovered, SlotNewest, MintSlot, SlotWitness, HeadTicket, PassFree, Covers;
    var rs := Listed(s.disk.trail);
    assert rs[|rs| - 1] == r && r.granted;
  }

  lemma AppendedSame(s: State, step: Step)
    requires s.proc.Some? && s.proc.value.slow.GrantAppended? && !step.Crash?
    ensures var t := NextRaw(s, step);
            t.proc.Some? && (t.proc.value.slow.GrantAppended? ==> t.proc.value.slow == s.proc.value.slow)
  {
    hide Held, Append, Prune, Save, Boot;
  }

  lemma AppendedNew(s: State, step: Step)
    requires s.proc.Some? && !s.proc.value.slow.GrantAppended? && !step.Crash?
    requires NextRaw(s, step).proc.Some? && NextRaw(s, step).proc.value.slow.GrantAppended?
    ensures s.proc.value.slow.GrantMinted?
  {
    hide Held, Append, Prune, Save, Boot;
  }

  // ---------------------------------------------------------------- every step, every run

  /** Every denial on disk is observed already, or no newer than the end of `rs`. */
  ghost predicate Told(s: State, rs: seq<Receipt>) {
    forall e :: e in Listed(s.disk.trail) && !e.granted ==> (rs != [] && rs[|rs| - 1].at >= e.at) || e.at in s.denials
  }

  /** Newly observed denials stand in the record or in a list whose end is at least as new. */
  lemma ObserveDominated(s: State, rs: seq<Receipt>)
    requires AllDominated(s, rs) && Told(s, rs)
    ensures AllDominated(Observe(s), rs)
  {
    var t := Observe(s);
    forall x | x in t.denials ensures Outdated(t, x) || Dominated(t.disk.record, rs, x) {
      if x in s.denials {
        if Outdated(s, x) { var g :| g in s.grants && g >= x; assert g in t.grants; }
      } else if !Covers(s.disk.record, x) {
        var i :| 0 <= i < |Listed(s.disk.trail)| && Listed(s.disk.trail)[i].at == x && !Listed(s.disk.trail)[i].granted;
        assert Listed(s.disk.trail)[i] in Listed(s.disk.trail);
      }
    }
  }

  lemma RunningDominated(s: State, step: Step)
    requires Shape(s) && s.proc.Some? && !step.Crash?
    requires Pairing(s.disk, s.proc.value) && Testimony(s, s.proc.value) && Observed(s)
    requires AllDominated(s, Listed(s.disk.trail))
    ensures var t := Next(s, step);
            t.proc.Some? && AllDominated(t, t.proc.value.box.receipts) && AllDominated(t, Listed(t.disk.trail))
  {
    DominatedStep(s, step);
    Effects(s, step);
    ShapeRaw(s, step);
    var t := NextRaw(s, step);
    ListedTold(s, t);
    hide Shape, NextRaw, Pairing, Testimony, Observed, AllDominated, Effect, Told;
    ObserveDominated(t, Listed(t.disk.trail));
    ObserveDominated(t, t.proc.value.box.receipts);
  }

  /** What a step leaves on disk was observed before, or is the mirror. */
  lemma ListedTold(s: State, t: State)
    requires Observed(s) && Shape(t) && t.proc.Some? && t.denials == s.denials && t.grants == s.grants
    requires Listed(t.disk.trail) == Listed(s.disk.trail) || Listed(t.disk.trail) == t.proc.value.box.receipts
    ensures Told(t, Listed(t.disk.trail)) && Told(t, t.proc.value.box.receipts)
  {
    var rs := Listed(t.disk.trail);
    TrailFacts(t);
    hide Shape, Stamps, PassPlace;
    forall e | e in rs ensures e.at <= rs[|rs| - 1].at { TrailTells(rs, t.cfg.me, e, e); }
  }

  lemma TestimonyStep(s: State, step: Step, mints: bool)
    requires Shape(s) && s.proc.Some? && !step.Crash? && Warranted(s, s.proc.value, mints)
    requires Pairing(s.disk, s.proc.value) && Testimony(s, s.proc.value) && Observed(s)
    requires AllDominated(s, Listed(s.disk.trail))
    ensures var t := Next(s, step);
            t.proc.Some? && Testimony(t, t.proc.value) && Observed(t) && AllDominated(t, Listed(t.disk.trail))
  {
    RunningDominated(s, step);
    DenySafeStep(s, step, mints);
    GrantSeenStep(s, step);
    AppendedObserved(s, step);
    GrantRecorded(s, step);
    SetsStay(s, step);
    ObservedAfter(NextRaw(s, step));
    hide Shape, NextRaw, Pairing, AllDominated, Warranted, DenySafe, Observed;
    SeenAfter(NextRaw(s, step));
  }

  lemma SeenAfter(s: State)
    requires s.proc.Some? && GrantSeen(s, s.proc.value)
    ensures GrantSeen(Observe(s), s.proc.value)
  {
  }

  lemma TestimonyStart(s: State, healOk: bool, markOk: bool)
    requires Shape(s) && s.proc.None? && Observed(s) && AllDominated(s, Listed(s.disk.trail)) && !Absorbing(s.disk.record)
    ensures var t := Next(s, Start(healOk, markOk));
            t.proc.Some? && Testimony(t, t.proc.value) && Observed(t) && AllDominated(t, Listed(t.disk.trail))
  {
    BootPlain(s, healOk, markOk);
    LoadBoxLists(s.disk.trail, s.cfg.me);
    ShapeStart(s, healOk, markOk);
    var b := NextRaw(s, Start(healOk, markOk));
    var rs := Listed(s.disk.trail);
    assert b.denials == s.denials && b.grants == s.grants && Listed(b.disk.trail) == rs && b.proc.value.box.receipts == rs;
    StartRecord(s, b);
    ListedTold(s, b);
    ObservedAfter(b);
    hide Boot, Conclude, Resolve, Shape, NextRaw, Observed, Dominated, Observe, LoadBox, AllDominated, Told;
    ObserveDominated(b, rs);
  }

  /** A start's healed record keeps everything dominated, and a healed grant's receipt was observed. */
  lemma StartRecord(s: State, b: State)
    requires Shape(s) && Observed(s) && AllDominated(s, Listed(s.disk.trail))
    requires b.denials == s.denials && b.grants == s.grants && b.disk.trail == s.disk.trail
    requires var rs := Listed(s.disk.trail);
             || b.disk.record == s.disk.record
             || (rs != [] && !Covers(s.disk.record, rs[|rs| - 1].at) &&
                 b.disk.record == SaveRecord(DecisionOf(rs[|rs| - 1]), s.cfg.digest, Some(rs[|rs| - 1].at), true))
    ensures AllDominated(b, Listed(b.disk.trail))
    ensures RecordLive(b.disk.record) == Granted && RecordAt(b.disk.record).Some? ==> RecordAt(b.disk.record).value in s.grants
  {
    hide Shape;
    var rs := Listed(s.disk.trail);
    assert rs != [] ==> rs[|rs| - 1] in rs;
    forall x | x in b.denials ensures Outdated(b, x) || Dominated(b.disk.record, rs, x) {
      if Outdated(s, x) { var g :| g in s.grants && g >= x; assert g in b.grants; }
    }
  }

  /** A run's invariant under one of the two warrants. */
  ghost predicate Vouched(s: State, mints: bool) {
    Testified(s) && (s.proc.Some? && !Absorbing(s.disk.record) ==> Warranted(s, s.proc.value, mints))
  }

  lemma VouchedStep(s: State, step: Step, mints: bool)
    requires Vouched(s, mints) && Spared(s, step, mints)
    ensures Vouched(Next(s, step), mints) && Next(s, step).cfg == s.cfg
  {
    hide Shape, Decided, Pairing, RecordTells, Spared, NextRaw, Absorbing, HoldsMinor, Observed, AllDominated, Testimony, Warranted;
    CoherentStep(s, step);
    CfgStays(s, step);
    DigestNeeded(s);
    DecidedStep(s, step);
    AbsorbingIsMinor(s);
    AbsorbingIsMinor(Next(s, step));
    if !Absorbing(s.disk.record) {
      if s.proc.Some? && !step.Crash? {
        TestimonyStep(s, step, mints);
        WarrantedStep(s, step, mints);
        WarrantedObserve(NextRaw(s, step), mints);
      } else if s.proc.None? && step.Start? {
        TestimonyStart(s, step.healOk, step.markOk);
        CleanUnlessMinor(s);
        WarrantedStart(s, step.healOk, step.markOk, mints);
        WarrantedObserve(NextRaw(s, step), mints);
      } else { DiskOnly(s, step); }
    }
  }

  lemma CleanUnlessMinor(s: State)
    requires !Absorbing(s.disk.record)
    ensures CleanStart(s)
  {
  }

  lemma WarrantedObserve(s: State, mints: bool)
    requires s.proc.Some? && Warranted(s, s.proc.value, mints)
    ensures Warranted(Observe(s), s.proc.value, mints)
  {
    hide GrantsMinted, HasKey;
  }

  /** A crash, and any step while no process runs, leaves what the disk testifies. */
  lemma DiskOnly(s: State, step: Step)
    requires Shape(s) && Observed(s) && AllDominated(s, Listed(s.disk.trail))
    requires if s.proc.Some? then step.Crash? else !step.Start?
    ensures var t := Next(s, step);
            t.proc.None? && Observed(t) && AllDominated(t, Listed(t.disk.trail))
  {
    var t := NextRaw(s, step);
    assert t == s.(proc := None);
    assert Told(t, Listed(t.disk.trail));
    ObserveDominated(t, Listed(t.disk.trail));
    ObservedAfter(t);
  }

  /** Every grant of the run gets its key. */
  ghost predicate GrantsMint(s: State, steps: seq<Step>) {
    SparedRun(s, steps, true)
  }

  /** No pass of the run judges a denial between its append and its mark. */
  ghost predicate DenialsUnraced(s: State, steps: seq<Step>) {
    SparedRun(s, steps, false)
  }

  ghost predicate SparedRun(s: State, steps: seq<Step>, mints: bool) {
    steps == [] ||
    (SparedRun(s, steps[..|steps| - 1], mints) && Spared(Run(s, steps[..|steps| - 1]), steps[|steps| - 1], mints))
  }

  lemma {:induction false} VouchedRun(s: State, steps: seq<Step>, mints: bool)
    requires Vouched(s, mints) && SparedRun(s, steps, mints)
    ensures Vouched(Run(s, steps), mints) && Run(s, steps).cfg == s.cfg
  {
    hide Vouched, Next, Spared;
    if steps != [] {
      VouchedRun(s, steps[..|steps| - 1], mints);
      VouchedStep(Run(s, steps[..|steps| - 1]), steps[|steps| - 1], mints);
    }
  }

  /** Files of an earlier life of the floor, with what stands on them observed. */
  ghost predicate AtRest(s: State) {
    && Shape(s) && s.proc.None?
    && Observed(s) && AllDominated(s, Listed(s.disk.trail))
  }

  /**
   Crash-closed denial. Start from any files the floor wrote. Through any faults, dispatches, prunes,
   evictions, crashes at any step and restarts, unless a grant's mint fails and a pass judges a denial
   between its append and its mark, both in the same run: whenever some denial has stood on disk, as
   a record or a receipt, and no grant newer than it has a receipt that stood on disk, a restart
   resolves to a denial.
   */
  lemma CrashClosedDenial(s: State, steps: seq<Step>, d: int)
    requires AtRest(s) && (GrantsMint(s, steps) || DenialsUnraced(s, steps))
    requires var e := Run(s, steps); d in e.denials && forall g :: g in e.grants ==> g < d
    ensures Resolve(s.cfg, Run(s, steps).disk) == Denied || Resolve(s.cfg, Run(s, steps).disk) == DeniedForcedMinor
  {
    var e := Run(s, steps);
    var mints: bool :| SparedRun(s, steps, mints);
    hide Run, Next, SparedRun;
    assert Vouched(s, mints) by { CoherentRest(s); }
    VouchedRun(s, steps, mints);
    if Absorbing(e.disk.record) { AbsorbingResolves(e); } else { TestimonyResolves(e, d); }
  }

  lemma AbsorbingResolves(s: State)
    requires Shape(s) && Absorbing(s.disk.record)
    ensures Resolve(s.cfg, s.disk) == DeniedForcedMinor
  {
    BootPlain(s, true, true);
    hide Boot, Conclude, Resolve, ShapeOf, RestShape;
  }
}
