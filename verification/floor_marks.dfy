/**
 The per-receipt owed marks: what they say of each receipt at every point of every run,
 through evictions and through receipts that a forgotten settlement brings back.
 */
module FloorMarks {
  import opened Basics
  import opened DecisionRecord
  import opened ConsentReceipts
  import opened ConsentOutbox
  import opened ConsentMirror
  import opened ConsentFloor
  import opened FloorShape
  import opened FloorPairing
  import opened FloorDecisions
  import opened FloorClose

  predicate Window(slow: Slow, r: Receipt) {
    WindowOf(slow) == Some(r)
  }

  /** The record covers the receipt, or it is marked, or its mark is about to be decided, or it has been answered before. */
  predicate Marked(record: RecordFile, p: Proc, e: Receipt) {
    Covers(record, e.at) || e.key in p.box.owed || Window(p.slow, e) || e.key in p.answered
  }

  /** Every receipt of the mirror is marked as it should be; what the file lists beyond the mirror has been answered. */
  ghost predicate Marks(disk: Disk, p: Proc) {
    && (forall e :: e in p.box.receipts ==> Marked(disk.record, p, e))
    && (forall e :: e in Listed(disk.trail) ==> e in p.box.receipts || e.key in p.answered)
  }

  /** Marks stand for receipts of the mirror that have not been answered; keys still to be marked are not marked yet. */
  ghost predicate Unmarked(s: State, p: Proc) {
    && (forall k :: k in p.box.owed ==> HasKey(p.box.receipts, k) && k !in p.answered)
    && (forall k :: k in p.box.owed || k in p.answered ==> k in s.used)
    && (MintedIn(p.slow).Some? ==>
          MintedIn(p.slow).value.key in s.used && MintedIn(p.slow).value.key !in p.box.owed && MintedIn(p.slow).value.key !in p.answered)
    && (WindowOf(p.slow).Some? ==>
          var k := WindowOf(p.slow).value.key;
          k in s.used && k !in p.box.owed && (k !in p.answered || (p.recordOwed.None? && !Appending(p.slow))))
  }

  // ---------------------------------------------------------------- the record only moves forward

  lemma RecordForward(s: State, step: Step, x: int)
    requires s.proc.Some? && Pairing(s.disk, s.proc.value) && !step.Crash? && Covers(s.disk.record, x)
    ensures Covers(NextRaw(s, step).disk.record, x)
  {
    if !step.Start? && !step.WriteRecord? && !step.TakeOwedRecord? { RecordStays(s, step); hide NextRaw; }
    else { hide SlotNewest, MintSlot, SlotWitness, HeadTicket, PassFree; }
  }

  // ---------------------------------------------------------------- the marks after a step

  /** The marks a save starts from. */
  function OwedBase(p: Proc, step: Step): set<string> {
    if step.PruneReceipt? && p.pass.Settling? && HasKey(p.box.receipts, p.pass.r.key) then p.box.owed - {p.pass.r.key}
    else p.box.owed
  }

  /** Marks go only with receipts an eviction takes. */
  ghost predicate OwedFollows(p: Proc, step: Step, q: Proc) {
    && (forall k :: k in q.box.owed ==> k in OwedBase(p, step))
    && (forall e :: e in q.box.receipts && e.key in OwedBase(p, step) ==> e.key in q.box.owed)
    && (forall e :: e in MirrorBase(p, step) && e !in q.box.receipts ==> e.key !in q.box.owed)
  }

  lemma OutcomeOwed(s: State, base: Outbox, saved: Saved, p: Proc, step: Step, q: Proc)
    requires SaveOutcome(base, s.disk.trail, saved, s.cfg.me, s.used) && q.box == saved.box
    requires base.receipts == MirrorBase(p, step) && base.owed == OwedBase(p, step)
    ensures OwedFollows(p, step, q)
  {
    hide Linked, Sifted, MirrorBase, OwedBase;
  }

  lemma OwedSaved(s: State, step: Step)
    requires Shape(s) && s.proc.Some? && Saves(step)
    ensures NextRaw(s, step).proc.Some? && OwedFollows(s.proc.value, step, NextRaw(s, step).proc.value)
  {
    hide Shape, NextRaw;
    if step.AppendReceipt? { OwedAppended(s, step.ok); }
    else if step.PruneReceipt? { OwedPruned(s, step.ok); }
    else { OwedRetried(s, step.ok); }
    hide OwedFollows;
  }

  lemma OwedSame(p: Proc, step: Step, q: Proc)
    requires q.box == p.box && OwedBase(p, step) == p.box.owed && MirrorBase(p, step) == p.box.receipts
    ensures OwedFollows(p, step, q)
  {
    hide HasKey;
  }

  lemma OwedAppended(s: State, ok: bool)
    requires Shape(s) && s.proc.Some?
    ensures var step := AppendReceipt(ok);
            NextRaw(s, step).proc.Some? && OwedFollows(s.proc.value, step, NextRaw(s, step).proc.value)
  {
    var p := s.proc.value;
    var q := AppendBox(s, ok);
    hide Shape, NextRaw, Append, SaveOutcome, OwedFollows;
    if MintedIn(p.slow).Some? {
      AppendOutcome(s, ok);
      LongerBase(p, AppendReceipt(ok));
      hide Longer, OwedBase, MirrorBase, MintedIn;
      OutcomeOwed(s, Longer(p), Append(p.box, s.disk.trail, MintedIn(p.slow).value, ok), p, AppendReceipt(ok), q);
    } else {
      OwedSame(p, AppendReceipt(ok), q);
    }
  }

  lemma LongerBase(p: Proc, step: Step)
    requires step.AppendReceipt? && MintedIn(p.slow).Some?
    ensures Longer(p).owed == OwedBase(p, step) && Longer(p).receipts == MirrorBase(p, step)
  {
  }

  lemma AppendBox(s: State, ok: bool) returns (q: Proc)
    requires s.proc.Some?
    ensures var p, s' := s.proc.value, NextRaw(s, AppendReceipt(ok));
            && s'.proc == Some(q)
            && q.box == (if MintedIn(p.slow).Some? then Append(p.box, s.disk.trail, MintedIn(p.slow).value, ok).box else p.box)
  {
    AppendTouches(s, ok);
    q := NextRaw(s, AppendReceipt(ok)).proc.value;
    hide NextRaw, Append, Appended;
  }

  lemma AppendOutcome(s: State, ok: bool)
    requires Shape(s) && s.proc.Some? && MintedIn(s.proc.value.slow).Some?
    ensures var p := s.proc.value;
            SaveOutcome(Longer(p), s.disk.trail, Append(p.box, s.disk.trail, MintedIn(p.slow).value, ok), s.cfg.me, s.used)
  {
    AppendSaves(s, ok);
    hide Shape, Append, SaveOutcome, Trail, Ahead, Longer;
  }

  lemma OwedPruned(s: State, ok: bool)
    requires Shape(s) && s.proc.Some?
    ensures var step := PruneReceipt(ok);
            NextRaw(s, step).proc.Some? && OwedFollows(s.proc.value, step, NextRaw(s, step).proc.value)
  {
    var p := s.proc.value;
    PruneTouches(s, ok);
    ShapeParts(s);
    if p.pass.Settling? && HasKey(p.box.receipts, p.pass.r.key) {
      var base := Unlisted(p.box, p.pass.r.key);
      UnlistedLists(p.box, p.pass.r.key);
      assert base.owed == OwedBase(p, PruneReceipt(ok)) && base.receipts == MirrorBase(p, PruneReceipt(ok));
      hide Shape, NextRaw, Prune, Unlisted, Linked, HasKey, SaveOutcome, Stamps, PassPlace, Trail, OwedFollows, OwedBase, MirrorBase, Without;
      PruneLinked(p.box, s.disk.trail, s.cfg.me, s.used, p.pass.r.key, ok);
      OutcomeOwed(s, base, Prune(p.box, s.disk.trail, p.pass.r.key, ok), p, PruneReceipt(ok), NextRaw(s, PruneReceipt(ok)).proc.value);
    } else {
      OwedSame(p, PruneReceipt(ok), NextRaw(s, PruneReceipt(ok)).proc.value);
      hide Shape, NextRaw, OwedFollows;
    }
  }

  lemma OwedRetried(s: State, ok: bool)
    requires Shape(s) && s.proc.Some?
    ensures var step := PersistAgain(ok);
            NextRaw(s, step).proc.Some? && OwedFollows(s.proc.value, step, NextRaw(s, step).proc.value)
  {
    var p := s.proc.value;
    PersistTouches(s, ok);
    ShapeParts(s);
    hide Shape, NextRaw, RetryPersist, Linked, SaveOutcome, Stamps, PassPlace, Trail, OwedFollows;
    RetryLinked(p.box, s.disk.trail, s.cfg.me, s.used, ok);
    OutcomeOwed(s, p.box, RetryPersist(p.box, s.disk.trail, ok), p, PersistAgain(ok), NextRaw(s, PersistAgain(ok)).proc.value);
  }

  // ---------------------------------------------------------------- saves

  lemma MarksSaved(s: State, s': State, step: Step, p: Proc, q: Proc)
    requires s.proc == Some(p) && s'.proc == Some(q) && s'.disk.record == s.disk.record && Saves(step)
    requires Marks(s.disk, p) && PassPlace(s, p) && Effect(s, step, s') && OwedFollows(p, step, q)
    requires q.answered == (if step.PruneReceipt? && p.pass.Settling? then p.answered + {p.pass.r.key} else p.answered)
    requires forall e :: e in MirrorBase(p, step) <==> (e in p.box.receipts && !Leaves(p, step, e)) || Joins(p, step, e)
    requires Joined(p, step).Some? ==> Window(q.slow, Joined(p, step).value)
    requires Joined(p, step).None? ==> q.slow == p.slow
    requires Joined(p, step).Some? ==> WindowOf(p.slow).None?
    ensures Marks(s'.disk, q)
  {
    forall e | e in q.box.receipts ensures Marked(s'.disk.record, q, e) {
      if e in p.box.receipts {
        assert Marked(s.disk.record, p, e);
        if e.key in p.box.owed { MarkStays(s, p, step, e); }
      }
    }
    hide Marked;
    forall e | e in Listed(s'.disk.trail) && e !in q.box.receipts ensures e.key in q.answered {
      assert e in Listed(s.disk.trail) && q.box.receipts == MirrorBase(p, step);
    }
  }

  /** The receipt a step appends. */
  function Joined(p: Proc, step: Step): Option<Receipt> {
    if step.AppendReceipt? then MintedIn(p.slow) else None
  }

  predicate Joins(p: Proc, step: Step, e: Receipt) {
    Joined(p, step) == Some(e)
  }

  /** The receipt a step takes out of the mirror because it has been answered. */
  predicate Leaves(p: Proc, step: Step, e: Receipt) {
    step.PruneReceipt? && p.pass.Settling? && e == p.pass.r
  }

  lemma MarkStays(s: State, p: Proc, step: Step, e: Receipt)
    requires s.proc == Some(p) && PassPlace(s, p) && e in p.box.receipts && e.key in p.box.owed
    ensures Leaves(p, step, e) || e.key in OwedBase(p, step)
  {
    if step.PruneReceipt? && p.pass.Settling? && e.key == p.pass.r.key { assert Known(p.box.receipts, p.pass.r); }
  }

  lemma BaseMembers(s: State, step: Step)
    requires Shape(s) && s.proc.Some? && Saves(step)
    ensures var p := s.proc.value;
            forall e :: e in MirrorBase(p, step) <==> (e in p.box.receipts && !Leaves(p, step, e)) || Joins(p, step, e)
  {
    TrailFacts(s);
    if !step.AppendReceipt? { BaseWithout(s, step); }
    hide Shape, Trail, HasKey, Without, Stamps, PassPlace;
  }

  lemma UnmarkedSaved(s: State, s': State, step: Step, p: Proc, q: Proc)
    requires s.proc == Some(p) && s'.proc == Some(q) && s'.used == s.used && Saves(step)
    requires Unmarked(s, p) && PassPlace(s, p) && Effect(s, step, s') && OwedFollows(p, step, q)
    requires Place(s.disk.record, p) && Prunable(p, step)
    requires q.recordOwed == p.recordOwed
    requires q.answered == (if step.PruneReceipt? && p.pass.Settling? then p.answered + {p.pass.r.key} else p.answered)
    requires forall e :: e in MirrorBase(p, step) <==> (e in p.box.receipts && !Leaves(p, step, e)) || Joins(p, step, e)
    requires Joined(p, step).Some? ==> Window(q.slow, Joined(p, step).value) && MintedIn(q.slow).None?
    requires Joined(p, step).None? ==> q.slow == p.slow
    ensures Unmarked(s', q)
  {
    if WindowOf(p.slow).Some? && step.PruneReceipt? && p.pass.Settling? { WindowPruned(s, p, step); }
    OwedFewer(p, step, q);
    PassKeyed(s, p);
    hide Effect, OwedFollows, PassPlace, HasKey, Place, MirrorBase, Prunable, Leaves;
    forall k | k in q.box.owed ensures HasKey(q.box.receipts, k) && k !in q.answered { OwedKept(s, s', step, p, q, k); }
  }

  lemma PassKeyed(s: State, p: Proc)
    requires PassPlace(s, p)
    ensures p.pass.Settling? ==>
              p.pass.r.key in s.used && (MintedIn(p.slow).Some? ==> MintedIn(p.slow).value.key != p.pass.r.key)
  {
    hide Known, Gone;
  }

  lemma OwedFewer(p: Proc, step: Step, q: Proc)
    requires OwedFollows(p, step, q)
    ensures forall k :: k in q.box.owed ==> k in p.box.owed
  {
    hide HasKey;
  }

  lemma OwedKept(s: State, s': State, step: Step, p: Proc, q: Proc, k: string)
    requires s.proc == Some(p) && s'.proc == Some(q) && Saves(step)
    requires Unmarked(s, p) && PassPlace(s, p) && OwedFollows(p, step, q) && k in q.box.owed
    requires q.answered == (if step.PruneReceipt? && p.pass.Settling? then p.answered + {p.pass.r.key} else p.answered)
    requires forall e :: e in MirrorBase(p, step) <==> (e in p.box.receipts && !Leaves(p, step, e)) || Joins(p, step, e)
    ensures HasKey(q.box.receipts, k) && k !in q.answered
  {
    HasKeyIn(p.box.receipts, k);
    var e :| e in p.box.receipts && e.key == k;
    HasKeyIn(q.box.receipts, k);
    if step.PruneReceipt? && p.pass.Settling? { HasKeyIn(p.box.receipts, p.pass.r.key); }
    hide HasKey;
    assert e in MirrorBase(p, step);
  }

  /** A window's receipt is pruned only over an empty slot. */
  lemma WindowPruned(s: State, p: Proc, step: Step)
    requires Unmarked(s, p) && PassPlace(s, p) && Place(s.disk.record, p) && Prunable(p, step)
    requires step.PruneReceipt? && p.pass.Settling? && WindowOf(p.slow).Some?
    ensures var w := WindowOf(p.slow).value;
            w.key == p.pass.r.key ==> w.key in p.answered || (p.recordOwed.None? && !Appending(p.slow))
  {
    var w := WindowOf(p.slow).value;
    if w.key == p.pass.r.key && LastOf(p.box.receipts) == Some(w) {
      assert w in p.box.receipts;
      assert w == p.pass.r by { assert Known(p.box.receipts, p.pass.r); }
      WindowStamp(p.slow);
    }
    hide Known, Gone, HasKey, Covers;
  }

  // ---------------------------------------------------------------- the slot and the mark

  predicate RecordLanded(slow: Slow) {
    match slow
    case GrantRecorded(_, written) => written
    case DenyRecorded(_, _, written) => written
    case RetryRecorded(_, written) => written
    case _ => false
  }

  /** A record that has landed covers the whole trail. */
  lemma WrittenCovers(s: State)
    requires Shape(s) && s.proc.Some? && Pairing(s.disk, s.proc.value) && RecordLanded(s.proc.value.slow)
    ensures forall e :: e in s.proc.value.box.receipts ==> Covers(s.disk.record, e.at)
  {
    TrailFacts(s);
    var p := s.proc.value;
    hide Shape, MintSlot, SlotWitness, HeadTicket, PassFree, SlotUncovered, Trail, PassPlace;
    forall e | e in p.box.receipts ensures Covers(s.disk.record, e.at) { assert Dated(s.disk.record, p, e); }
  }

  lemma SlotMarks(s: State)
    requires Shape(s) && s.proc.Some? && Pairing(s.disk, s.proc.value)
    requires Marks(s.disk, s.proc.value) && Unmarked(s, s.proc.value)
    ensures Marks(s.disk, SlotStep(s.proc.value)) && Unmarked(s, SlotStep(s.proc.value))
  {
    var p, q := s.proc.value, SlotStep(s.proc.value);
    if RecordLanded(p.slow) { WrittenCovers(s); }
    SlotMoves(p);
    hide Shape, Pairing, SlotStep, Covers, WindowOf, MintedIn;
    forall e | e in q.box.receipts ensures Marked(s.disk.record, q, e) { assert Marked(s.disk.record, p, e); }
  }

  /** Settling the slot leaves the window only over a landed record, and empties the marks only then. */
  lemma SlotMoves(p: Proc)
    ensures var q := SlotStep(p);
            && q.box.receipts == p.box.receipts && q.answered == p.answered && MintedIn(q.slow) == MintedIn(p.slow)
            && (q.box.owed == p.box.owed || (RecordLanded(p.slow) && q.box.owed == {}))
            && (WindowOf(q.slow) == WindowOf(p.slow) || (RecordLanded(p.slow) && WindowOf(q.slow).None?))
            && (WindowOf(p.slow).Some? && !Appending(p.slow) ==> q == p)
  {
    match p.slow
    case GrantUnminted(at) =>
    case GrantAppended(r, stored) =>
    case GrantRecorded(r, written) =>
    case DenyRecorded(d, at, written) =>
    case RetryRecorded(o, written) =>
    case _ =>
  }

  lemma MarkMarks(s: State)
    requires Shape(s) && s.proc.Some? && Pairing(s.disk, s.proc.value)
    requires Marks(s.disk, s.proc.value) && Unmarked(s, s.proc.value)
    ensures Marks(s.disk, MarkStep(s.proc.value)) && Unmarked(s, MarkStep(s.proc.value))
  {
    TrailFacts(s);
    var p, q := s.proc.value, MarkStep(s.proc.value);
    MarkMoves(s.disk, p);
    hide Shape, Pairing, MarkStep, Covers, WindowOf, MintedIn, Trail, Stamps, PassPlace;
    if q != p { MarkLeaves(s, p, q, WindowOf(p.slow).value); }
  }

  lemma MarkLeaves(s: State, p: Proc, q: Proc, w: Receipt)
    requires Marks(s.disk, p) && Unmarked(s, p) && Trail(p.box.receipts, s.cfg.me) && WindowOf(p.slow) == Some(w)
    requires q.box.receipts == p.box.receipts && q.answered == p.answered && MintedIn(q.slow) == MintedIn(p.slow)
    requires WindowOf(q.slow).None? && MintedIn(p.slow).None?
    requires || (q.box.owed == p.box.owed && (Covers(s.disk.record, w.at) || w.key == ""))
             || (q.box.owed == p.box.owed + {w.key} && w in p.box.receipts && p.recordOwed.Some?)
    ensures Marks(s.disk, q) && Unmarked(s, q)
  {
    if w in p.box.receipts { TrailTells(p.box.receipts, s.cfg.me, w, w); HasKeyIn(p.box.receipts, w.key); }
    hide HasKey, Trail, Covers, WindowOf, MintedIn;
    forall e | e in q.box.receipts ensures Marked(s.disk.record, q, e) { assert Marked(s.disk.record, p, e); }
  }

  /** The mark step leaves the window with the receipt covered or marked. */
  lemma MarkMoves(disk: Disk, p: Proc)
    requires Pairing(disk, p)
    ensures MarkMoved(disk.record, p, MarkStep(p))
  {
    assert Place(disk.record, p);
    hide Pairing;
    match p.slow
    case GrantSettled(r) => MarkedAs(p, r.key);
    case DenyAppended(r, written) => MarkedAs(p, r.key); DenialMoves(disk.record, p, MarkStep(p));
    case RetryAppended(r) => MarkedAs(p, r.key); RetryMoves(disk.record, p, MarkStep(p));
    case _ => hide Place;
    hide MarkKey, Covers, Ahead;
  }

  predicate MarkMoved(record: RecordFile, p: Proc, q: Proc) {
    && q.box.receipts == p.box.receipts && q.answered == p.answered && MintedIn(q.slow) == MintedIn(p.slow)
    && (q == p || (WindowOf(p.slow).Some? && WindowOf(q.slow).None? && MintedIn(p.slow).None?))
    && (q != p ==>
          var w := WindowOf(p.slow).value;
          || (q.box.owed == p.box.owed && (Covers(record, w.at) || w.key == ""))
          || (q.box.owed == p.box.owed + {w.key} && w in p.box.receipts && p.recordOwed.Some?))
  }

  lemma DenialMoves(record: RecordFile, p: Proc, q: Proc)
    requires Place(record, p) && p.slow.DenyAppended?
    requires q == (if p.slow.written || p.slow.r.key == "" then p else p.(box := p.box.(owed := p.box.owed + {p.slow.r.key}))).(slow := Served)
    ensures MarkMoved(record, p, q)
  {
    hide Covers, Ahead;
  }

  lemma RetryMoves(record: RecordFile, p: Proc, q: Proc)
    requires Place(record, p) && p.slow.RetryAppended?
    requires q == (if p.recordOwed.None? || p.recordOwed.value.at != p.slow.r.at || p.slow.r.key == "" then p
                   else p.(box := p.box.(owed := p.box.owed + {p.slow.r.key}))).(slow := Idle)
    ensures MarkMoved(record, p, q)
  {
    hide Covers, Ahead;
  }

  lemma MarkedAs(p: Proc, key: string)
    ensures MarkKey(p, key) == (if key == "" then p else p.(box := p.box.(owed := p.box.owed + {key})))
  {
  }

  // ---------------------------------------------------------------- the other steps

  /** What the other steps leave alone. */
  lemma MarksQuiet(s: State, step: Step)
    requires s.proc.Some? && !step.Crash? && !Saves(step) && !step.SettleSlot? && !step.MarkOwed? && !step.Mint? && !step.TakeOwedMint?
    ensures var p, t := s.proc.value, NextRaw(s, step);
            && t.proc.Some? && t.used == s.used && t.disk.trail == s.disk.trail
            && var q := t.proc.value;
               && q.box == p.box && q.answered == p.answered && q.recordOwed == p.recordOwed
               && MintedIn(q.slow) == MintedIn(p.slow) && WindowOf(q.slow) == WindowOf(p.slow)
               && (WindowOf(p.slow).Some? ==> Appending(q.slow) == Appending(p.slow))
  {
    hide Held, Append, Prune, Save, Boot, NextUp;
  }

  lemma MarksMint(s: State, step: Step)
    requires Shape(s) && s.proc.Some? && (step.Mint? || step.TakeOwedMint?)
    requires Marks(s.disk, s.proc.value) && Unmarked(s, s.proc.value)
    ensures var t := NextRaw(s, step); t.proc.Some? && Marks(t.disk, t.proc.value) && Unmarked(t, t.proc.value)
  {
    MintQuiet(s, step);
    var p, t := s.proc.value, NextRaw(s, step);
    hide Shape, NextRaw, Covers, MintedIn, HasKey, WindowOf;
    forall e | e in p.box.receipts ensures Marked(t.disk.record, t.proc.value, e) { assert Marked(s.disk.record, p, e); }
  }

  lemma MintQuiet(s: State, step: Step)
    requires s.proc.Some? && (step.Mint? || step.TakeOwedMint?)
    ensures var p, t := s.proc.value, NextRaw(s, step);
            && t.proc.Some? && t.disk == s.disk && s.used <= t.used
            && var q := t.proc.value;
               && q.box == p.box && q.answered == p.answered
               && (t == s || (WindowOf(p.slow).None? && WindowOf(q.slow).None? && MintedIn(p.slow).None?))
               && (t != s && MintedIn(q.slow).Some? ==> MintedIn(q.slow).value.key !in s.used && MintedIn(q.slow).value.key in t.used)
  {
  }

  lemma MarksOther(s: State, step: Step)
    requires Shape(s) && s.proc.Some? && Pairing(s.disk, s.proc.value)
    requires Marks(s.disk, s.proc.value) && Unmarked(s, s.proc.value)
    requires !step.Crash? && !Saves(step) && !step.SettleSlot? && !step.MarkOwed? && !step.Mint? && !step.TakeOwedMint?
    ensures var t := NextRaw(s, step); t.proc.Some? && Marks(t.disk, t.proc.value) && Unmarked(t, t.proc.value)
  {
    MarksQuiet(s, step);
    var p, t := s.proc.value, NextRaw(s, step);
    hide Shape, NextRaw, Covers, MintedIn, HasKey, WindowOf, Pairing;
    forall e | e in p.box.receipts ensures Marked(t.disk.record, t.proc.value, e) {
      assert Marked(s.disk.record, p, e);
      if Covers(s.disk.record, e.at) { RecordForward(s, step, e.at); }
    }
  }

  lemma MarksSave(s: State, step: Step)
    requires Shape(s) && s.proc.Some? && Pairing(s.disk, s.proc.value) && Saves(step)
    requires Marks(s.disk, s.proc.value) && Unmarked(s, s.proc.value)
    ensures var t := NextRaw(s, step); t.proc.Some? && Marks(t.disk, t.proc.value) && Unmarked(t, t.proc.value)
  {
    StaysUp(s, step);
    TrailFacts(s);
    Effects(s, step);
    OwedSaved(s, step);
    BaseMembers(s, step);
    SaveMoves(s, step);
    PlaceOf(s);
    FreeOf(s.disk, s.proc.value);
    PrunedFree(s.proc.value, step);
    var p, t := s.proc.value, NextRaw(s, step);
    hide Shape, NextRaw, Pairing, Trail, Stamps, PassPlace, Effect, OwedFollows, Marks, Unmarked, Place, MirrorBase;
    MarksSaved(s, t, step, p, t.proc.value);
    UnmarkedSaved(s, t, step, p, t.proc.value);
  }

  lemma PlaceOf(s: State)
    requires s.proc.Some? && Pairing(s.disk, s.proc.value)
    ensures Place(s.disk.record, s.proc.value)
  {
  }

  lemma SaveMoves(s: State, step: Step)
    requires s.proc.Some? && Saves(step)
    ensures var p, t := s.proc.value, NextRaw(s, step);
            && t.proc.Some? && t.used == s.used && t.disk.record == s.disk.record
            && var q := t.proc.value;
               && q.recordOwed == p.recordOwed
               && q.answered == (if step.PruneReceipt? && p.pass.Settling? then p.answered + {p.pass.r.key} else p.answered)
               && (Joined(p, step).Some? ==> Window(q.slow, Joined(p, step).value) && MintedIn(q.slow).None? && WindowOf(p.slow).None?)
               && (Joined(p, step).None? ==> q.slow == p.slow)
  {
    if step.AppendReceipt? { AppendTouches(s, step.ok); AppendedWindow(s.proc.value.slow, NextRaw(s, step).proc.value.slow); }
    else if step.PruneReceipt? { PruneTouches(s, step.ok); }
    else { PersistTouches(s, step.ok); }
    hide NextRaw, Append, Prune, RetryPersist, Appended, WindowOf, MintedIn;
  }

  lemma AppendedWindow(slow: Slow, after: Slow)
    ensures MintedIn(slow).Some? && Appended(slow, after) ==> WindowOf(after) == MintedIn(slow) && MintedIn(after).None?
    ensures MintedIn(slow).Some? ==> WindowOf(slow).None?
  {
  }

  /** Every step of a running process keeps the marks as they should be. */
  lemma MarksStep(s: State, step: Step)
    requires Shape(s) && s.proc.Some? && Pairing(s.disk, s.proc.value)
    requires Marks(s.disk, s.proc.value) && Unmarked(s, s.proc.value) && !step.Crash?
    ensures var t := NextRaw(s, step); t.proc.Some? && Marks(t.disk, t.proc.value) && Unmarked(t, t.proc.value)
  {
    hide Shape, Pairing, Marks, Unmarked, SlotStep, MarkStep;
    if Saves(step) { MarksSave(s, step); }
    else if step.SettleSlot? { SlotMarks(s); UnmarkedIn(s, SlotStep(s.proc.value)); }
    else if step.MarkOwed? { MarkMarks(s); UnmarkedIn(s, MarkStep(s.proc.value)); }
    else if step.Mint? || step.TakeOwedMint? { MarksMint(s, step); }
    else { MarksOther(s, step); }
  }

  lemma UnmarkedIn(s: State, q: Proc)
    requires Unmarked(s, q)
    ensures Unmarked(s.(proc := Some(q)), q)
  {
  }

  // ---------------------------------------------------------------- the pass through a step

  /** Receipts leave and join the lists as the effect says; a receipt once gone from both stays gone. */
  lemma ListsFrom(s: State, step: Step)
    requires Shape(s) && s.proc.Some? && !step.Crash?
    ensures var p, t := s.proc.value, NextRaw(s, step);
            && t.proc.Some?
            && (forall e :: e in t.proc.value.box.receipts || e in Listed(t.disk.trail) ==>
                  e in p.box.receipts || e in Listed(s.disk.trail) || Joins(p, step, e))
            && (forall e :: e in t.proc.value.box.receipts && Leaves(p, step, e) ==> e in Listed(s.disk.trail))
  {
    StaysUp(s, step);
    Effects(s, step);
    if Saves(step) { BaseMembers(s, step); } else { OtherTouches(s, step); }
    hide Shape, NextRaw, Trail, MirrorBase;
  }

  lemma AnsweredMoves(s: State, step: Step)
    requires s.proc.Some? && !step.Crash?
    ensures var p, t := s.proc.value, NextRaw(s, step);
            && t.proc.Some?
            && t.proc.value.answered == (if step.PruneReceipt? && p.pass.Settling? then p.answered + {p.pass.r.key} else p.answered)
  {
    var p := s.proc.value;
    if Saves(step) { SaveMoves(s, step); hide NextRaw; }
    else if step.SettleSlot? { SlotMoves(p); hide SlotStep; }
    else if step.MarkOwed? { MarkAnswered(p); hide MarkStep; }
    else if step.Mint? || step.TakeOwedMint? { MintQuiet(s, step); hide NextRaw; }
    else { MarksQuiet(s, step); hide NextRaw; }
  }

  lemma MarkAnswered(p: Proc)
    ensures MarkStep(p).answered == p.answered
  {
  }

  /** A pass keeps its receipt, moves no further but by a check, and never finds a receipt again that an eviction took. */
  lemma PassKeepsPlace(s: State, step: Step)
    requires Shape(s) && s.proc.Some? && !step.Crash? && !step.Check?
    ensures var p, t := s.proc.value, NextRaw(s, step);
            && t.proc.Some?
            && Shortens(p.pass, t.proc.value.pass)
            && (PassReceipt(t.proc.value.pass).Some? && Progress(t.proc.value.pass) > 0 && PassReceipt(p.pass).value !in p.box.receipts ==>
                  PassReceipt(t.proc.value.pass).value !in t.proc.value.box.receipts)
  {
    StaysUp(s, step);
    PassShorter(s, step);
    ListsFrom(s, step);
    ShapeParts(s);
    if MintedIn(s.proc.value.slow).Some? && step.AppendReceipt? && PassReceipt(s.proc.value.pass).Some? {
      assert MintedIn(s.proc.value.slow).value.key != PassReceipt(s.proc.value.pass).value.key;
    }
    hide Shape, NextRaw, Linked, Trail, Stamps, Known;
  }

  lemma PassShorter(s: State, step: Step)
    requires s.proc.Some? && !step.Crash? && !step.Check?
    ensures var p, t := s.proc.value, NextRaw(s, step); t.proc.Some? && Shortens(p.pass, t.proc.value.pass)
  {
    if step.Pick? || step.Send? || step.Answer? { PassOnly(s, step); hide NextRaw; }
    else if step.PruneReceipt? { PruneTouches(s, step.ok); hide NextRaw, Prune; }
    else { PassStays(s, step); hide NextRaw; }
  }

  // ---------------------------------------------------------------- starts

  /** A start whose heal write failed marks every receipt the record does not cover. */
  lemma BootMarks(s: State, healOk: bool, markOk: bool, i: nat)
    requires Shape(s) && i < |Listed(s.disk.trail)| && !Covers(s.disk.record, Listed(s.disk.trail)[i].at)
    ensures var p := Boot(s.cfg, s.disk, healOk, markOk).1;
            p.recordOwed.Some? ==> Listed(s.disk.trail)[i].key in p.box.owed
  {
    hide ShapeOf, Resolve, Latest, MaxAt, LoadBox;
    var l := Load(s.disk.record, s.cfg.digest);
    var r := Listed(s.disk.trail)[i];
    assert InScope(r, s.cfg.me);
    if l.ok { assert l.info.decidedAt == RecordAt(s.disk.record); }
  }

  lemma MarksStart(s: State, healOk: bool, markOk: bool)
    requires Shape(s) && CleanStart(s)
    ensures var (disk, p) := Boot(s.cfg, s.disk, healOk, markOk); Marks(disk, p)
  {
    BootPlain(s, healOk, markOk);
    LoadBoxLists(s.disk.trail, s.cfg.me);
    var rs := Listed(s.disk.trail);
    var (disk, p) := Boot(s.cfg, s.disk, healOk, markOk);
    hide Boot, Conclude, Resolve, LoadBox;
    forall e | e in rs ensures Marked(disk.record, p, e) {
      var i :| 0 <= i < |rs| && rs[i] == e;
      TrailTells(rs, s.cfg.me, rs[|rs| - 1], e);
      if !Covers(s.disk.record, e.at) { BootMarks(s, healOk, markOk, i); }
    }
  }

  lemma UnmarkedStart(s: State, healOk: bool, markOk: bool)
    requires Shape(s)
    ensures Unmarked(s, Boot(s.cfg, s.disk, healOk, markOk).1)
  {
    LoadBoxLists(s.disk.trail, s.cfg.me);
    var rs := Listed(s.disk.trail);
    forall i | 0 <= i < |rs| ensures HasKey(rs, rs[i].key) && rs[i].key in s.used {}
    hide Conclude, Resolve, Latest, MaxAt, LoadBox, ShapeOf;
  }

  // ---------------------------------------------------------------- what the first hold misses, exactly

  /**
   A receipt the record does not cover passes the first hold exactly while it is in its window, or
   when an eviction has taken its mark with it, or when it has been answered before.
   */
  lemma FirstHoldExactly(s: State, p: Proc, r: Receipt)
    requires Marks(s.disk, p) && Unmarked(s, p) && !Covers(s.disk.record, r.at)
    requires r in p.box.receipts || !HasKey(p.box.receipts, r.key)
    ensures !Held(p, s.cfg.me, r, 0) <==> Window(p.slow, r) || r !in p.box.receipts || r.key in p.answered
  {
    if r in p.box.receipts { assert Marked(s.disk.record, p, r); }
  }

  /** No pass evaluates its first hold on a receipt inside that receipt's window, unless the record already covers it. */
  predicate Unraced(s: State, step: Step, granted: bool) {
    s.proc.Some? && step.Check? && s.proc.value.pass.Checking? ==>
      var p := s.proc.value;
      p.pass.passed == 0 && p.pass.r.granted == granted ==>
        Covers(s.disk.record, p.pass.r.at) || !Window(p.slow, p.pass.r)
  }

  // ---------------------------------------------------------------- receipts that are not judged inside their window

  /**
   Of grants, or of denials: a receipt past its first hold is covered, or an eviction has taken it;
   so is one that has been answered before.
   */
  ghost predicate JudgedCovered(disk: Disk, p: Proc, granted: bool) {
    && (PassReceipt(p.pass).Some? && PassReceipt(p.pass).value.granted == granted && Progress(p.pass) > 0 ==>
          Covers(disk.record, PassReceipt(p.pass).value.at) || PassReceipt(p.pass).value !in p.box.receipts)
    && (forall e :: (e in p.box.receipts || e in Listed(disk.trail)) && e.granted == granted && e.key in p.answered ==>
          Covers(disk.record, e.at))
  }

  lemma CoveredCheck(s: State, granted: bool)
    requires Shape(s) && s.proc.Some? && Marks(s.disk, s.proc.value) && JudgedCovered(s.disk, s.proc.value, granted)
    requires Unraced(s, Check, granted)
    ensures JudgedCovered(s.disk, CheckStep(s.cfg, s.proc.value), granted)
  {
    var p, q := s.proc.value, CheckStep(s.cfg, s.proc.value);
    CheckAdvances(s.cfg, p);
    if p.pass.Checking? {
      HoldsAre(p, s.cfg.me, p.pass.r);
      if p.pass.passed == 0 && p.pass.r.granted == granted && p.pass.r in p.box.receipts { assert Marked(s.disk.record, p, p.pass.r); }
    }
    hide Shape, Marks, Held, CheckStep, HoldCount, Covers;
  }

  lemma CoveredStep(s: State, step: Step, granted: bool)
    requires Shape(s) && s.proc.Some? && Pairing(s.disk, s.proc.value) && !step.Crash? && !step.Check?
    requires Unmarked(s, s.proc.value) && JudgedCovered(s.disk, s.proc.value, granted)
    ensures var t := NextRaw(s, step); t.proc.Some? && JudgedCovered(t.disk, t.proc.value, granted)
  {
    CoveredAnswers(s, step, granted);
    PassKeepsPlace(s, step);
    var q := NextRaw(s, step).proc.value;
    if PassReceipt(q.pass).Some? && Progress(q.pass) > 0 && Covers(s.disk.record, PassReceipt(q.pass).value.at) {
      RecordForward(s, step, PassReceipt(q.pass).value.at);
    }
    hide Shape, NextRaw, Pairing, Covers, Unmarked, HasKey, WindowOf;
  }

  /** A receipt answered before or by this step is covered, wherever it is listed afterwards. */
  lemma CoveredAnswers(s: State, step: Step, granted: bool)
    requires Shape(s) && s.proc.Some? && Pairing(s.disk, s.proc.value) && !step.Crash? && !step.Check?
    requires Unmarked(s, s.proc.value) && JudgedCovered(s.disk, s.proc.value, granted)
    ensures var t := NextRaw(s, step);
            && t.proc.Some?
            && forall e :: e in t.proc.value.box.receipts || e in Listed(t.disk.trail) ==>
                 e.granted == granted && e.key in t.proc.value.answered ==> Covers(t.disk.record, e.at)
  {
    ListsFrom(s, step);
    AnsweredMoves(s, step);
    PassNames(s);
    JoinsUnanswered(s, step);
    var p, t := s.proc.value, NextRaw(s, step);
    var q := t.proc.value;
    hide Shape, NextRaw, Pairing, Covers, HasKey, WindowOf, Joins, Unmarked;
    forall e | (e in q.box.receipts || e in Listed(t.disk.trail)) && e.granted == granted && e.key in q.answered
      ensures Covers(t.disk.record, e.at)
    {
      RecordForward(s, step, e.at);
    }
  }

  lemma JoinsUnanswered(s: State, step: Step)
    requires s.proc.Some? && Unmarked(s, s.proc.value)
    ensures var p := s.proc.value;
            forall e :: Joins(p, step, e) ==> e.key !in p.answered && step.AppendReceipt? && MintedIn(p.slow) == Some(e)
  {
  }

  /** The key of a settling pass names its receipt, in both lists, and no receipt still to be appended. */
  lemma PassNames(s: State)
    requires Shape(s) && s.proc.Some?
    ensures var p := s.proc.value;
            p.pass.Settling? ==>
              && (forall e :: (e in p.box.receipts || e in Listed(s.disk.trail)) && e.key == p.pass.r.key ==> e == p.pass.r)
              && (p.pass.r !in p.box.receipts ==> p.pass.r !in Listed(s.disk.trail))
              && (MintedIn(p.slow).Some? ==> MintedIn(p.slow).value.key != p.pass.r.key)
  {
    ShapeParts(s);
    hide Shape, Linked, Trail, Stamps, HasKey;
  }

  lemma CoveredNext(s: State, step: Step, granted: bool)
    requires Shape(s) && s.proc.Some? && Pairing(s.disk, s.proc.value) && !step.Crash?
    requires Marks(s.disk, s.proc.value) && Unmarked(s, s.proc.value)
    requires JudgedCovered(s.disk, s.proc.value, granted) && Unraced(s, step, granted)
    ensures var t := NextRaw(s, step); t.proc.Some? && JudgedCovered(t.disk, t.proc.value, granted)
  {
    if step.Check? { CoveredCheck(s, granted); } else { CoveredStep(s, step, granted); }
    hide Shape, Pairing, Marks, Unmarked, JudgedCovered, CheckStep, Unraced;
  }
}
