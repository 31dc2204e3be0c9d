/**
 The plain floor: the same protocol over an outbox that is a list with a cap, a debt and a
 settled memory, without reloading, merging, own keys or shedding. The real one refines it
 for as long as its settled memory remembers what the file still lists.
 */
module FloorPlain {
  import opened Basics
  import opened DecisionRecord
  import opened ConsentReceipts
  import opened ConsentOutbox
  import opened ConsentOutboxLaws
  import opened ConsentMirror
  import opened ConsentFloor
  import opened FloorShape
  import opened FloorPairing

  /** Only the list, what left it, the marks and the debt. */
  function PlainBox(rs: seq<Receipt>, settled: seq<string>, owed: set<string>, dirty: bool): Outbox {
    Empty(true).(receipts := rs, settled := settled, owed := owed, dirty := dirty)
  }

  function Simplify(b: Outbox): Outbox {
    PlainBox(b.receipts, b.settled, b.owed, b.dirty).(evicted := b.evicted)
  }

  function PlainOf(s: State): State {
    if s.proc.None? then s
    else
      s.(proc := Some(s.proc.value.(box := Simplify(s.proc.value.box))))
  }

  /** The list without its `n` oldest, which are settled and lose their marks. */
  function Cut(box: Outbox, n: nat): Outbox
    requires n <= |box.receipts|
  {
    var keys := KeysOf(box.receipts[..n]);
    box.(receipts := box.receipts[n..], settled := SettleAll(box.settled, keys),
         owed := box.owed - (set k | k in keys), evicted := box.evicted + n)
  }

  /** A list is cut to the cap and written if it fits; otherwise the write is owed. */
  function PlainSaved(box: Outbox, file: TrailFile, ok: bool): (Outbox, TrailFile) {
    var n := Overflow(box.receipts);
    if ok && FileBytes(box.receipts[n..]) <= READ_LIMIT
    then (Cut(box, n).(dirty := false), ParsedTrail(box.receipts[n..]))
    else (box.(dirty := true), file)
  }

  function PlainSave(s: State, p: Proc, box: Outbox, ok: bool): State {
    var (after, file) := PlainSaved(box, s.disk.trail, ok);
    s.(disk := s.disk.(trail := file), proc := Some(p.(box := after)))
  }

  function PlainNext(s: State, step: Step): State {
    if s.proc.None? then PlainOf(NextRaw(s, step))
    else
      var p := s.proc.value;
      match step
      case AppendReceipt(ok) =>
        if MintedIn(p.slow).None? then s
        else
          var r := MintedIn(p.slow).value;
          var box := p.box.(receipts := p.box.receipts + [r]);
          var stored := !PlainSaved(box, s.disk.trail, ok).0.dirty;
          var slow := match p.slow
            case GrantMinted(_) => GrantAppended(r, stored)
            case DenyMinted(_, written) => DenyAppended(r, written)
            case _ => RetryAppended(r);
          PlainSave(s, p.(slow := slow), box, ok)
      case PruneReceipt(ok) =>
        if !p.pass.Settling? then s
        else
          var key := p.pass.r.key;
          var q := p.(pass := Resting, answered := p.answered + {key});
          if !HasKey(p.box.receipts, key) then s.(proc := Some(q))
          else PlainSave(s, q, p.box.(receipts := Without(p.box.receipts, key), settled := Settle(p.box.settled, key),
                                      owed := p.box.owed - {key}), ok)
      case PersistAgain(ok) =>
        if !p.box.dirty then s else PlainSave(s, p, p.box, ok)
      case _ => PlainOf(NextRaw(s, step))
  }

  function PlainRun(s: State, steps: seq<Step>): State {
    if steps == [] then s else Observe(PlainNext(PlainRun(s, steps[..|steps| - 1]), steps[|steps| - 1]))
  }

  // ---------------------------------------------------------------- what is remembered

  /** What the file lists the mirror has, or the settled memory remembers. */
  ghost predicate Recalls(box: Outbox, file: TrailFile) {
    forall e :: e in Listed(file) ==> e in box.receipts || e.key in box.settled
  }

  /** No prune makes the settled memory forget a key the file still lists. */
  ghost predicate Unforgetting(s: State, step: Step) {
    s.proc.Some? && step.PruneReceipt? && s.proc.value.pass.Settling? && HasKey(s.proc.value.box.receipts, s.proc.value.pass.r.key) ==>
      Recalls(Unlisted(s.proc.value.box, s.proc.value.pass.r.key), s.disk.trail)
  }

  ghost predicate Remembering(s: State, steps: seq<Step>) {
    steps == [] ||
    (Remembering(s, steps[..|steps| - 1]) && Unforgetting(Run(s, steps[..|steps| - 1]), steps[|steps| - 1]))
  }

  /** A trail without its newest receipt. */
  lemma TrailFront(rs: seq<Receipt>, me: Identity)
    requires Trail(rs, me) && rs != []
    ensures var f, x := rs[..|rs| - 1], rs[|rs| - 1];
            && Trail(f, me) && rs == f + [x] && x in rs
            && (forall e :: e in f <==> e in rs && e != x)
            && (forall e :: e in rs ==> e.at <= x.at && (e.at == x.at ==> e == x))
  {
    var f, x := rs[..|rs| - 1], rs[|rs| - 1];
    forall e | e in rs ensures e in f || e == x { var i :| 0 <= i < |rs| && rs[i] == e; if i < |f| { assert f[i] == e; } }
    forall e | e in f ensures e in rs && e.at < x.at { var i :| 0 <= i < |f| && f[i] == e; assert rs[i] == e; }
  }

  /** Trails of the same receipts are the same. */
  lemma {:induction false} SameTrails(a: seq<Receipt>, b: seq<Receipt>, me: Identity)
    requires Trail(a, me) && Trail(b, me) && forall e :: e in a <==> e in b
    ensures a == b
  {
    hide Trail;
    if b != [] { assert b[|b| - 1] in a; }
    if a != [] {
      assert a[|a| - 1] in b;
      TrailFront(a, me);
      TrailFront(b, me);
      assert a[|a| - 1] == b[|b| - 1];
      SameTrails(a[..|a| - 1], b[..|b| - 1], me);
    }
  }

  /** With everything remembered, merging changes nothing. */
  lemma MergedIs(box: Outbox, file: TrailFile, me: Identity, used: set<string>, decisive: bool)
    requires Linked(box, file, me, used) && Recalls(box, file)
    ensures Merged(box, file, decisive) == box.receipts
  {
    MergedHas(box, file, me, used, decisive);
    MergedTrail(box, file, me, used, decisive);
    LinkedTrails(box, file, me, used);
    hide Linked, Merged, MergeOwn, MergeDisk, Trail, Agree, DistinctKeys;
    SameTrails(Merged(box, file, decisive), box.receipts, me);
  }

  /** A save that does what the plain one does, and leaves everything remembered. */
  ghost predicate PlainOutcome(base: Outbox, file: TrailFile, s: Saved, ok: bool) {
    && (Simplify(s.box), s.file) == PlainSaved(Simplify(base), file, ok)
    && (FailedDurably(s.error) <==> s.box.dirty) && s.error != EvidenceHeld
    && Recalls(s.box, s.file)
  }

  /** The cut of an unmerged list is the plain one. */
  lemma CutIsPlain(box: Outbox, n: nat)
    requires n <= |box.receipts|
    ensures Simplify(Evict(box, box.receipts, n).(dirty := false)) == Cut(Simplify(box), n).(dirty := false)
    ensures Evict(box, box.receipts, n).receipts == box.receipts[n..]
  {
    hide KeysOf, SettleAll;
  }

  /** Freshening changes nothing that the plain floor has. */
  lemma FreshIsPlain(box: Outbox, decisive: bool)
    ensures var b := Freshened(box, decisive);
            && Simplify(b) == Simplify(box) && b.receipts == box.receipts && b.settled == box.settled && b.durable == box.durable
  {
  }

  lemma MergedIsPlain(b: Outbox, file: TrailFile, ok: bool)
    requires b.durable && Recalls(b, file)
    requires var out := b.receipts[Overflow(b.receipts)..];
             && Written(out) == ParsedTrail(out)
             && Shed(out, b.settled) == if FileBytes(out) <= READ_LIMIT then Some(0) else None
    ensures PlainOutcome(b, file, SaveMerged(b, file, b.receipts, ok), ok)
  {
    var n := Overflow(b.receipts);
    CutIsPlain(b, n);
    hide Written, Shed, FileBytes, Cut, Evict, Overflow;
    assert n + 0 == n;
  }

  lemma OutcomeBase(a: Outbox, b: Outbox, file: TrailFile, s: Saved, ok: bool)
    requires PlainOutcome(a, file, s, ok) && Simplify(a) == Simplify(b)
    ensures PlainOutcome(b, file, s, ok)
  {
    hide PlainSaved, Simplify, Recalls;
  }

  /** With everything remembered, a save is the plain one. */
  lemma SaveIsPlain(box: Outbox, file: TrailFile, me: Identity, used: set<string>, decisive: bool, ok: bool)
    requires Linked(box, file, me, used) && Recalls(box, file)
    ensures PlainOutcome(box, file, Save(box, file, decisive, ok), ok)
  {
    MergedIs(box, file, me, used, decisive);
    NotHeld(box, file, decisive, ok);
    LinkedDisjoint(box, file, me, used);
    LinkedTrails(box, file, me, used);
    FreshIsPlain(box, decisive);
    var n := Overflow(box.receipts);
    CutWritten(box.receipts, me, n);
    Unsettled(box, file, me, used, n);
    NeverSheds(box.receipts[n..], box.settled);
    hide Linked, Save, SaveMerged, Merged, Trail, Shed, FileBytes, Written, HasKey, PlainOutcome, Simplify, Freshened, Agree, Overflow;
    MergedIsPlain(Freshened(box, decisive), file, ok);
    OutcomeBase(Freshened(box, decisive), box, file, Save(box, file, decisive, ok), ok);
  }

  lemma Unsettled(box: Outbox, file: TrailFile, me: Identity, used: set<string>, n: nat)
    requires Linked(box, file, me, used) && n <= |box.receipts|
    ensures forall k :: HasKey(box.receipts[n..], k) ==> k !in box.settled
  {
    var out := box.receipts[n..];
    forall k | HasKey(out, k) ensures k !in box.settled {
      HasKeyIn(out, k);
      var e :| e in out && e.key == k;
      assert e in box.receipts;
    }
  }

  /** The debt a save starts with does not matter to it. */
  lemma DebtIsPlain(box: Outbox, file: TrailFile, me: Identity, used: set<string>, decisive: bool, ok: bool)
    requires Linked(box.(dirty := true), file, me, used) && Recalls(box, file) && box.durable
    ensures PlainOutcome(box, file, Save(box, file, decisive, ok), ok)
  {
    hide Linked, Save, PlainOutcome, Simplify;
    SaveIsPlain(box.(dirty := true), file, me, used, decisive, ok);
    SaveIgnoresDebt(box, file, decisive, ok);
    DebtOutcome(box, file, Save(box, file, decisive, ok), ok);
  }

  lemma DebtOutcome(box: Outbox, file: TrailFile, s: Saved, ok: bool)
    requires PlainOutcome(box.(dirty := true), file, s, ok)
    ensures PlainOutcome(box, file, s, ok)
  {
    hide FileBytes, KeysOf, SettleAll, Recalls, Overflow;
  }

  lemma PlainAppend(s: State, ok: bool)
    requires Shape(s) && s.proc.Some? && Recalls(s.proc.value.box, s.disk.trail)
    ensures var t := NextRaw(s, AppendReceipt(ok));
            && PlainOf(t) == PlainNext(PlainOf(s), AppendReceipt(ok))
            && t.proc.Some? && Recalls(t.proc.value.box, t.disk.trail)
  {
    var p := s.proc.value;
    hide Shape, Append, Recalls, PlainOutcome, PlainSaved;
    if MintedIn(p.slow).Some? {
      AppendIsPlain(s, ok);
      AppendedPlain(s, Append(p.box, s.disk.trail, MintedIn(p.slow).value, ok), ok);
    }
  }

  /** The step around the save. */
  lemma AppendedPlain(s: State, saved: Saved, ok: bool)
    requires s.proc.Some? && MintedIn(s.proc.value.slow).Some?
    requires saved == Append(s.proc.value.box, s.disk.trail, MintedIn(s.proc.value.slow).value, ok)
    requires PlainOutcome(Longer(s.proc.value), s.disk.trail, saved, ok)
    ensures var t := NextRaw(s, AppendReceipt(ok));
            && PlainOf(t) == PlainNext(PlainOf(s), AppendReceipt(ok))
            && t.proc.Some? && Recalls(t.proc.value.box, t.disk.trail)
  {
    var p := s.proc.value;
    assert Simplify(Longer(p)) == Simplify(p.box).(receipts := p.box.receipts + [MintedIn(p.slow).value]);
    SimpleDebt(saved.box);
    hide Append, PlainSaved, Recalls, Simplify, Longer;
    match p.slow
    case GrantMinted(_) =>
    case DenyMinted(_, _) =>
    case RetryMinted(_) =>
  }

  lemma SimpleDebt(b: Outbox)
    ensures Simplify(b).dirty == b.dirty && Simplify(b).receipts == b.receipts
    ensures Simplify(Simplify(b)) == Simplify(b)
  {
  }

  lemma AppendIsPlain(s: State, ok: bool)
    requires Shape(s) && s.proc.Some? && Recalls(s.proc.value.box, s.disk.trail) && MintedIn(s.proc.value.slow).Some?
    ensures var p := s.proc.value;
            PlainOutcome(Longer(p), s.disk.trail, Append(p.box, s.disk.trail, MintedIn(p.slow).value, ok), ok)
  {
    var p := s.proc.value;
    ShapeParts(s);
    LongerIsLinked(s);
    assert p.box.durable by { LinkedTrails(p.box, s.disk.trail, s.cfg.me, s.used); }
    hide Shape, Linked, Trail, Stamps, PassPlace, Save, PlainOutcome, HasKey;
    DebtIsPlain(Longer(p), s.disk.trail, s.cfg.me, s.used, true, ok);
  }

  lemma LongerIsLinked(s: State)
    requires Shape(s) && s.proc.Some? && MintedIn(s.proc.value.slow).Some?
    ensures Linked(Longer(s.proc.value).(dirty := true), s.disk.trail, s.cfg.me, s.used)
  {
    var p := s.proc.value;
    AppendSaves(s, true);
    ShapeParts(s);
    hide Shape, Linked, Trail, Stamps, PassPlace, SaveOutcome, Append, HasKey;
    LongerLinked(p.box, s.disk.trail, s.cfg.me, s.used, MintedIn(p.slow).value);
  }

  lemma PlainPrune(s: State, ok: bool)
    requires Shape(s) && s.proc.Some? && Recalls(s.proc.value.box, s.disk.trail) && Unforgetting(s, PruneReceipt(ok))
    ensures var t := NextRaw(s, PruneReceipt(ok));
            && PlainOf(t) == PlainNext(PlainOf(s), PruneReceipt(ok))
            && t.proc.Some? && Recalls(t.proc.value.box, t.disk.trail)
  {
    var p := s.proc.value;
    hide Shape, Prune, Recalls, PlainOutcome, PlainSaved, HasKey, Without, Settle;
    if p.pass.Settling? && HasKey(p.box.receipts, p.pass.r.key) {
      PruneIsPlain(s, p.pass.r.key, ok);
      PrunedPlain(s, Prune(p.box, s.disk.trail, p.pass.r.key, ok), ok);
    } else { UnprunedPlain(s, ok); }
  }

  lemma PrunedPlain(s: State, saved: Saved, ok: bool)
    requires s.proc.Some? && s.proc.value.pass.Settling? && HasKey(s.proc.value.box.receipts, s.proc.value.pass.r.key)
    requires saved == Prune(s.proc.value.box, s.disk.trail, s.proc.value.pass.r.key, ok)
    requires PlainOutcome(Unlisted(s.proc.value.box, s.proc.value.pass.r.key), s.disk.trail, saved, ok)
    ensures var t := NextRaw(s, PruneReceipt(ok));
            && PlainOf(t) == PlainNext(PlainOf(s), PruneReceipt(ok))
            && t.proc.Some? && Recalls(t.proc.value.box, t.disk.trail)
  {
    hide Prune, PlainSaved, Recalls, HasKey, Without, Settle;
  }

  lemma UnprunedPlain(s: State, ok: bool)
    requires s.proc.Some? && Recalls(s.proc.value.box, s.disk.trail)
    requires !(s.proc.value.pass.Settling? && HasKey(s.proc.value.box.receipts, s.proc.value.pass.r.key))
    ensures var t := NextRaw(s, PruneReceipt(ok));
            && PlainOf(t) == PlainNext(PlainOf(s), PruneReceipt(ok))
            && t.proc.Some? && Recalls(t.proc.value.box, t.disk.trail)
  {
    hide PlainSaved, Recalls, HasKey, Save;
  }

  lemma PruneIsPlain(s: State, key: string, ok: bool)
    requires Shape(s) && s.proc.Some? && HasKey(s.proc.value.box.receipts, key)
    requires Recalls(Unlisted(s.proc.value.box, key), s.disk.trail)
    ensures var p := s.proc.value;
            PlainOutcome(Unlisted(p.box, key), s.disk.trail, Prune(p.box, s.disk.trail, key, ok), ok)
  {
    var p := s.proc.value;
    ShapeParts(s);
    UnlistedLinked(p.box, s.disk.trail, s.cfg.me, s.used, key);
    assert p.box.durable by { LinkedTrails(p.box, s.disk.trail, s.cfg.me, s.used); }
    hide Shape, Linked, Trail, Stamps, PassPlace, Save, PlainOutcome, HasKey, Without, Settle, Recalls;
    DebtIsPlain(Unlisted(p.box, key), s.disk.trail, s.cfg.me, s.used, false, ok);
  }

  lemma PlainPersist(s: State, ok: bool)
    requires Shape(s) && s.proc.Some? && Recalls(s.proc.value.box, s.disk.trail)
    ensures var t := NextRaw(s, PersistAgain(ok));
            && PlainOf(t) == PlainNext(PlainOf(s), PersistAgain(ok))
            && t.proc.Some? && Recalls(t.proc.value.box, t.disk.trail)
  {
    var p := s.proc.value;
    ShapeParts(s);
    hide Shape, Linked, Save, Trail, Stamps, PassPlace, PlainSaved, Recalls, PlainOutcome;
    if p.box.dirty { SaveIsPlain(p.box, s.disk.trail, s.cfg.me, s.used, false, ok); }
    RetriedPlain(s, RetryPersist(p.box, s.disk.trail, ok), ok);
  }

  lemma RetriedPlain(s: State, saved: Saved, ok: bool)
    requires s.proc.Some? && saved == RetryPersist(s.proc.value.box, s.disk.trail, ok)
    requires if s.proc.value.box.dirty then PlainOutcome(s.proc.value.box, s.disk.trail, saved, ok)
             else Recalls(s.proc.value.box, s.disk.trail)
    ensures var t := NextRaw(s, PersistAgain(ok));
            && PlainOf(t) == PlainNext(PlainOf(s), PersistAgain(ok))
            && t.proc.Some? && Recalls(t.proc.value.box, t.disk.trail)
  {
    SimpleDebt(s.proc.value.box);
    hide Save, PlainSaved, Recalls;
  }

  lemma PlainPick(s: State)
    requires Shape(s) && s.proc.Some?
    ensures PlainOf(NextRaw(s, Pick)) == PlainNext(PlainOf(s), Pick)
  {
    LinkedTrails(s.proc.value.box, s.disk.trail, s.cfg.me, s.used);
    hide Linked, Trail, Shape;
  }

  lemma PlainCheck(s: State)
    requires s.proc.Some?
    ensures PlainOf(NextRaw(s, Check)) == PlainNext(PlainOf(s), Check)
  {
    var p, q := s.proc.value, PlainOf(s).proc.value;
    forall r, n ensures Held(p, s.cfg.me, r, n) == Held(q, s.cfg.me, r, n) { HeldPlain(p, q, s.cfg.me, r, n); }
    hide Held;
  }

  /** The holds look at the list, the marks and the debt only. */
  lemma HeldPlain(p: Proc, q: Proc, me: Identity, r: Receipt, n: nat)
    requires q == p.(box := q.box)
    requires q.box.receipts == p.box.receipts && q.box.owed == p.box.owed && q.box.dirty == p.box.dirty
    ensures Held(p, me, r, n) == Held(q, me, r, n)
  {
    forall e ensures HeldBehind(p, me, r, e) == HeldBehind(q, me, r, e) {}
    assert NewerDenialInTrail(p, me, r) == NewerDenialInTrail(q, me, r);
    assert NewerDenialHeld(p, me, r) == NewerDenialHeld(q, me, r) by {
      if NewerDenialHeld(p, me, r) {
        var i, j :| 0 <= i < j < |p.box.receipts| && p.box.receipts[i].key == r.key && HeldBehind(p, me, r, p.box.receipts[j]);
        assert HeldBehind(q, me, r, q.box.receipts[j]);
      }
      if NewerDenialHeld(q, me, r) {
        var i, j :| 0 <= i < j < |q.box.receipts| && q.box.receipts[i].key == r.key && HeldBehind(q, me, r, q.box.receipts[j]);
        assert HeldBehind(p, me, r, p.box.receipts[j]);
      }
    }
  }

  lemma PlainRecord(s: State, ok: bool)
    requires s.proc.Some?
    ensures PlainOf(NextRaw(s, WriteRecord(ok))) == PlainNext(PlainOf(s), WriteRecord(ok))
  {
  }

  lemma SlotStepPlain(p: Proc)
    ensures SlotStep(p.(box := Simplify(p.box))) == SlotStep(p).(box := Simplify(SlotStep(p).box))
  {
    match p.slow
    case GrantUnminted(at) =>
    case GrantAppended(r, stored) =>
    case GrantRecorded(r, written) => if written {}
    case DenyRecorded(d, at, written) => if written {}
    case RetryRecorded(o, written) => if written {}
    case _ =>
  }

  lemma MarkStepPlain(p: Proc)
    ensures MarkStep(p.(box := Simplify(p.box))) == MarkStep(p).(box := Simplify(MarkStep(p).box))
  {
    match p.slow
    case GrantSettled(r) => if r.key == "" {}
    case DenyAppended(r, written) => if written {} else if r.key == "" {}
    case RetryAppended(r) => if r.key == "" {}
    case _ =>
  }

  lemma PlainSlot(s: State)
    requires s.proc.Some?
    ensures PlainOf(NextRaw(s, SettleSlot)) == PlainNext(PlainOf(s), SettleSlot)
  {
    SlotStepPlain(s.proc.value);
    SlotStepPlain(s.proc.value.(box := Simplify(s.proc.value.box)));
    hide SlotStep, PlainBox;
  }

  lemma PlainMark(s: State)
    requires s.proc.Some?
    ensures PlainOf(NextRaw(s, MarkOwed)) == PlainNext(PlainOf(s), MarkOwed)
  {
    MarkStepPlain(s.proc.value);
    MarkStepPlain(s.proc.value.(box := Simplify(s.proc.value.box)));
    hide MarkStep, PlainBox;
  }

  lemma PlainDecide(s: State, step: Step)
    requires s.proc.Some? && Decides(step)
    ensures PlainOf(NextRaw(s, step)) == PlainNext(PlainOf(s), step)
  {
    if step.Mint? { PlainMint(s, step.key, step.bytes); }
    else if step.Begin? {}
  }

  lemma PlainMint(s: State, key: Option<string>, bytes: nat)
    requires s.proc.Some?
    ensures PlainOf(NextRaw(s, Mint(key, bytes))) == PlainNext(PlainOf(s), Mint(key, bytes))
  {
    hide Simplify, FastHalf, BeginTurn;
    SimpleDebt(s.proc.value.box);
  }

  lemma PlainOther(s: State, step: Step)
    requires s.proc.Some?
    requires !Settles(step) && !Decides(step) && !step.AppendReceipt? && !step.PruneReceipt? && !step.PersistAgain?
    requires !step.Pick? && !step.Check?
    ensures PlainOf(NextRaw(s, step)) == PlainNext(PlainOf(s), step)
  {
    hide Boot, Held, Append, Prune, Save;
  }

  /** One step of the real floor is one step of the plain one. */
  lemma PlainStep(s: State, step: Step)
    requires Shape(s) && (s.proc.Some? ==> Recalls(s.proc.value.box, s.disk.trail)) && Unforgetting(s, step)
    ensures PlainOf(Next(s, step)) == Observe(PlainNext(PlainOf(s), step))
    ensures Next(s, step).proc.Some? ==> Recalls(Next(s, step).proc.value.box, Next(s, step).disk.trail)
  {
    hide Shape, NextRaw, PlainNext, Unforgetting, Recalls;
    if s.proc.None? { PlainDown(s, step); RecallsStart(s, step); }
    else if step.AppendReceipt? { PlainAppend(s, step.ok); }
    else if step.PruneReceipt? { PlainPrune(s, step.ok); }
    else if step.PersistAgain? { PlainPersist(s, step.ok); }
    else if step.Pick? { PlainPick(s); }
    else if step.Check? { PlainCheck(s); }
    else if step.WriteRecord? { PlainRecord(s, step.ok); }
    else if step.SettleSlot? { PlainSlot(s); }
    else if step.MarkOwed? { PlainMark(s); }
    else if Decides(step) { PlainDecide(s, step); }
    else { PlainOther(s, step); }
    if s.proc.Some? && !Saves(step) { RecallsOther(s, step); }
    PlainObserve(NextRaw(s, step));
  }

  lemma RecallsStart(s: State, step: Step)
    requires s.proc.None?
    ensures NextRaw(s, step).proc.Some? ==> Recalls(NextRaw(s, step).proc.value.box, NextRaw(s, step).disk.trail)
  {
    hide Conclude, Resolve;
  }

  lemma RecallsOther(s: State, step: Step)
    requires s.proc.Some? && !Saves(step) && Recalls(s.proc.value.box, s.disk.trail)
    ensures NextRaw(s, step).proc.Some? ==> Recalls(NextRaw(s, step).proc.value.box, NextRaw(s, step).disk.trail)
  {
    if NextRaw(s, step).proc.Some? { OtherTouches(s, step); SettledStays(s, step); }
    hide NextRaw;
  }

  lemma SettledStays(s: State, step: Step)
    requires s.proc.Some? && !Saves(step) && NextRaw(s, step).proc.Some?
    ensures NextRaw(s, step).proc.value.box.settled == s.proc.value.box.settled
  {
    hide Held, Append, Prune, Save, Boot, NextUp, BeginTurn, FastHalf, SlotStep, MarkStep;
    SlotSettled(s.proc.value);
  }

  lemma SlotSettled(p: Proc)
    ensures SlotStep(p).box.settled == p.box.settled && MarkStep(p).box.settled == p.box.settled
    ensures forall clock, purgeOk :: BeginTurn(p, clock, purgeOk).box == p.box
    ensures forall d :: FastHalf(p, d).box == p.box
  {
  }

  lemma PlainDown(s: State, step: Step)
    requires s.proc.None?
    ensures PlainOf(NextRaw(s, step)) == PlainNext(PlainOf(s), step)
  {
  }

  lemma PlainObserve(s: State)
    ensures PlainOf(Observe(s)) == Observe(PlainOf(s))
  {
  }

  /**
   On every run in which no prune makes the settled memory forget a key the file still lists, the
   reloading and merging outbox behaves as a plain capped list: same files, same evictions, same
   slots, same passes, same server log.
   */
  lemma {:induction false} PlainRefined(s: State, steps: seq<Step>)
    requires Shape(s) && s.proc.None? && Remembering(s, steps)
    ensures PlainOf(Run(s, steps)) == PlainRun(s, steps) && Shape(Run(s, steps))
    ensures var e := Run(s, steps); e.proc.Some? ==> Recalls(e.proc.value.box, e.disk.trail)
  {
    hide Shape, Next, Unforgetting, PlainNext, Observe, Recalls;
    if steps != [] {
      PlainRefined(s, steps[..|steps| - 1]);
      PlainStep(Run(s, steps[..|steps| - 1]), steps[|steps| - 1]);
      ShapeStep(Run(s, steps[..|steps| - 1]), steps[|steps| - 1]);
    }
  }
}
