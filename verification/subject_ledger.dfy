/**
 What a handle holds and where it comes from: which step cached an assignment, marked it recorded or
 owes a record of it, and which step since then would have taken it away. A denial takes everything.
 */
module SubjectLedger {
  import opened Basics
  import opened SubjectHandle
  import opened SubjectHandoff

  // ---------------------------------------------------------------- what a step adds and takes away

  /** An answer to a fetch still waiting for one. */
  predicate Awaited(h: Handle, n: nat) {
    n in h.fetches && !h.fetches[n].answered
  }

  /** The answer may install: unfenced, neither refused nor stale. */
  predicate Unfenced(h: Handle, n: nat, f: Fences)
    requires n in h.fetches
  {
    n > SettledAt(h, h.fetches[n].key) && !f.refused && !f.stale
  }

  /** The step caches this assignment of the experiment. */
  predicate Installs(h: Handle, step: Step, key: string, e: Entry) {
    step.Answered? && Awaited(h, step.n) && h.fetches[step.n].key == key && Unfenced(h, step.n, step.fences)
    && step.answer.Assigned? && e == Entry(step.n, step.answer.gated, step.answer.variant)
  }

  /** The step takes away every record, mark and application of the experiment. */
  predicate Drops(h: Handle, step: Step, key: string) {
    match step
    case Answered(n, a, _) =>
      Awaited(h, n) && (a.AllWithdrawn? || (a.SubjectRefused? && !h.rejected)
                        || (h.fetches[n].key == key && n > SettledAt(h, key) && a.Ineligible?))
    case End(n) => Unanswered(h, n) && h.fetches[n].key == key
    case Consent(granted) => Denies(h, step)
    case Sentinel => true
    case SealRefused(k) => k == key && h.out.handing.None?
    case Purge => true
    case _ => false
  }

  /** A denial that does not wait for a hand-off under way. */
  predicate Denies(h: Handle, step: Step) {
    step == Consent(false) && h.out.handing.None?
  }

  /** The step takes the cached assignment away, or replaces it. */
  predicate Forgets(h: Handle, step: Step, key: string) {
    match step
    case Answered(n, a, f) =>
      Drops(h, step, key)
      || (Awaited(h, n) && h.fetches[n].key == key && n > SettledAt(h, key) && (a.Gone? || (a.Assigned? && !f.refused && !f.stale)))
    case End(n) => Drops(h, step, key) && (key in h.entries ==> h.entries[key].gated)
    case Purge => false
    case _ => Drops(h, step, key)
  }

  /** The assignment a step applies for the first time since the marks were last taken away. */
  function FirstApplied(h: Handle, step: Step, key: string): Option<Entry> {
    if !step.Apply? || step.key != key then None
    else
      var served := ServedEntry(h, key, step.blocked);
      if served.Some? && (key, served.value.variant) !in h.exposed then served else None
  }

  /** The application a step records, which outcomes follow from then on. */
  function Recorded(h: Handle, step: Step, key: string): Option<Entry> {
    if step.Apply? && step.recordable then FirstApplied(h, step, key) else None
  }

  /** The step appends this record: a recordable first application, or an outcome of the last one recorded. */
  predicate Records(h: Handle, step: Step, r: Owed) {
    r.serial == h.serials &&
    match step
    case Apply(key, _, _) => Recorded(h, step, r.key) == Some(r.entry)
    case Outcome(key) =>
      key == r.key && h.granted && !h.rejected && key in h.lastApplied && h.lastApplied[key] == r.entry
      && !(key in h.declaring && r.entry.gated)
    case _ => false
  }

  // ---------------------------------------------------------------- step by step

  lemma AppliedOn(h: Handle, n: nat, key: string, a: Answer, f: Fences)
    ensures var t, live := Applied(h, n, key, a, f).0, n > SettledAt(h, key);
            var all := a.AllWithdrawn? || (a.SubjectRefused? && !h.rejected);
            var installs := live && a.Assigned? && !f.refused && !f.stale;
            && t.serials == h.serials
            && (all ==> t.entries == map[] && t.owed == [] && t.exposed == {} && t.lastApplied == map[])
            && (live && a.Ineligible? ==>
                  t.entries == h.entries - {key} && t.owed == WithoutKey(h.owed, key)
                  && t.lastApplied == h.lastApplied - {key} && t.exposed == ExposedElsewhere(h.exposed, key))
            && (!all && !(live && a.Ineligible?) ==> t.owed == h.owed && t.lastApplied == h.lastApplied && t.exposed == h.exposed)
            && (live && a.Gone? ==> t.entries == h.entries - {key})
            && (installs ==> t.entries == h.entries[key := Entry(n, a.gated, a.variant)])
            && (!all && !(live && (a.Ineligible? || a.Gone?)) && !installs ==> t.entries == h.entries)
  {
    hide WithoutKey, ExposedElsewhere;
    RaiseEffects(h, key, n);
    RaiseEffects(WithdrawAll(h.(rejected := true)), key, n);
    hide Raise;
  }

  /** A commit does to what is held what the answer does. */
  lemma CommitOn(h: Handle, n: nat, a: Answer, f: Fences)
    requires n in h.fetches
    ensures var t, s := Commit(h, n, a, f), Applied(h, n, h.fetches[n].key, a, f).0;
            t.entries == s.entries && t.owed == s.owed && t.exposed == s.exposed && t.lastApplied == s.lastApplied && t.serials == s.serials
  {
    hide Applied;
  }

  /** What one step does to the cached assignments. */
  lemma CachedStep(h: Handle, step: Step, key: string, e: Entry)
    ensures var t := Next(h, step);
            EntryOf(t, key) == Some(e) <==> Installs(h, step, key, e) || (EntryOf(h, key) == Some(e) && !Forgets(h, step, key))
  {
    hide Next, Installs, Forgets;
    if step.Answered? { CachedAnswer(h, step.n, step.answer, step.fences, key, e); }
    else {
      NothingInstalled(h, step, key, e);
      if step.Begin? { BeginEffects(h, step.key, step.band); NothingForgotten(h, step, key); }
      else if step.End? { CachedEnd(h, step.n, key); }
      else if Recording(step) { RecordingCore(h, step); NothingForgotten(h, step, key); }
      else { CachedOther(h, step, key); }
    }
  }

  lemma NothingInstalled(h: Handle, step: Step, key: string, e: Entry)
    requires !step.Answered?
    ensures !Installs(h, step, key, e)
  {
  }

  lemma NothingForgotten(h: Handle, step: Step, key: string)
    requires step.Begin? || Recording(step)
    ensures !Forgets(h, step, key)
  {
  }

  lemma CachedOther(h: Handle, step: Step, key: string)
    requires step.Consent? || step.Sentinel? || step.SealRefused?
    ensures EntryOf(Next(h, step), key) == if Forgets(h, step, key) then None else EntryOf(h, key)
  {
    hide WithoutKey, ExposedElsewhere;
  }

  lemma CachedAnswer(h: Handle, n: nat, a: Answer, f: Fences, key: string, e: Entry)
    ensures var step := Answered(n, a, f);
            EntryOf(Next(h, step), key) == Some(e) <==>
              Installs(h, step, key, e) || (EntryOf(h, key) == Some(e) && !Forgets(h, step, key))
  {
    hide WithoutKey, ExposedElsewhere;
    if Awaited(h, n) {
      AppliedOn(h, n, h.fetches[n].key, a, f);
      CommitOn(h, n, a, f);
      assert Next(h, Answered(n, a, f)) == Commit(h, n, a, f) by { hide Commit; }
      hide Commit, Applied, Next;
    }
  }

  lemma CachedEnd(h: Handle, n: nat, key: string)
    ensures var t := Next(h, End(n));
            EntryOf(t, key) == if Forgets(h, End(n), key) then None else EntryOf(h, key)
  {
    hide WithoutKey, ExposedElsewhere;
  }

  /** The records are all there, all gone, or all but one experiment's. */
  ghost predicate Trimmed(before: seq<Owed>, after: seq<Owed>) {
    after == before || after == [] || exists k :: after == WithoutKey(before, k)
  }

  /** Marks, last application and records of the experiment stay together or go together. */
  ghost predicate Kept(h: Handle, t: Handle, key: string, drops: bool) {
    && t.serials == h.serials && Trimmed(h.owed, t.owed)
    && (forall v :: (key, v) in t.exposed <==> (key, v) in h.exposed && !drops)
    && (if drops then key !in t.lastApplied else Follows(t, key) == Follows(h, key))
    && (forall r: Owed :: r.key == key ==> (r in t.owed <==> r in h.owed && !drops))
  }

  function Follows(h: Handle, key: string): Option<Entry> {
    if key in h.lastApplied then Some(h.lastApplied[key]) else None
  }

  lemma KeptSame(h: Handle, t: Handle, key: string)
    requires t.serials == h.serials && t.owed == h.owed && t.exposed == h.exposed && t.lastApplied == h.lastApplied
    ensures Kept(h, t, key, false)
  {
  }

  lemma KeptNone(h: Handle, t: Handle, key: string)
    requires t.serials == h.serials && t.owed == [] && t.exposed == {} && t.lastApplied == map[]
    ensures Kept(h, t, key, true)
  {
  }

  lemma KeptElsewhere(h: Handle, t: Handle, k: string, key: string)
    requires t.serials == h.serials && t.owed == WithoutKey(h.owed, k) && t.exposed == ExposedElsewhere(h.exposed, k)
    requires t.lastApplied == h.lastApplied - {k}
    ensures Kept(h, t, key, k == key)
  {
    WithoutKeyIn(h.owed, k);
    hide WithoutKey;
  }

  lemma KeptAnswer(h: Handle, n: nat, a: Answer, f: Fences, key: string)
    ensures Kept(h, Next(h, Answered(n, a, f)), key, Drops(h, Answered(n, a, f), key))
  {
    var t := Next(h, Answered(n, a, f));
    if Awaited(h, n) {
      var k := h.fetches[n].key;
      AppliedOn(h, n, k, a, f);
      CommitOn(h, n, a, f);
      assert t == Commit(h, n, a, f) by { hide Commit; }
      hide Commit, Applied, Next, WithoutKey, ExposedElsewhere, Kept;
      if a.AllWithdrawn? || (a.SubjectRefused? && !h.rejected) { KeptNone(h, t, key); }
      else if n > SettledAt(h, k) && a.Ineligible? { KeptElsewhere(h, t, k, key); }
      else { KeptSame(h, t, key); }
    } else { KeptSame(h, t, key); }
  }

  lemma KeptEnd(h: Handle, n: nat, key: string)
    ensures Kept(h, Next(h, End(n)), key, Drops(h, End(n), key))
  {
    var t := Next(h, End(n));
    EndedOn(h, n);
    hide WithoutKey, ExposedElsewhere, Kept, Next;
    if Unanswered(h, n) { KeptElsewhere(h, t, h.fetches[n].key, key); } else { KeptSame(h, t, key); }
  }

  lemma EndedOn(h: Handle, n: nat)
    ensures var t := Next(h, End(n));
            && t.serials == h.serials
            && if Unanswered(h, n) then
                 var k := h.fetches[n].key;
                 t.owed == WithoutKey(h.owed, k) && t.exposed == ExposedElsewhere(h.exposed, k) && t.lastApplied == h.lastApplied - {k}
               else t.owed == h.owed && t.exposed == h.exposed && t.lastApplied == h.lastApplied
  {
    hide WithoutKey, ExposedElsewhere;
    if Unanswered(h, n) {
      var k := h.fetches[n].key;
      RaiseEffects(h.(fetches := h.fetches - {n}, declaring := h.declaring - {k}), k, h.declaring[k].fence);
      hide Raise;
    }
  }

  lemma KeptOther(h: Handle, step: Step, key: string)
    requires step.Consent? || step.Sentinel? || step.SealRefused? || step.Purge? || step.Begin?
    ensures Kept(h, Next(h, step), key, Drops(h, step, key))
  {
    if step.Begin? { KeptBegin(h, step.key, step.band, key); }
    else if step.SealRefused? { KeptSeal(h, step.key, key); }
    else {
      var t := Next(h, step);
      if step.Sentinel? || step.Purge? || Denies(h, step) {
        assert t.serials == h.serials && t.owed == [] && t.exposed == {} && t.lastApplied == map[];
        KeptNone(h, t, key);
      } else { KeptSame(h, t, key); }
    }
    hide Kept, Next;
  }

  lemma KeptSeal(h: Handle, k: string, key: string)
    ensures Kept(h, Next(h, SealRefused(k)), key, Drops(h, SealRefused(k), key))
  {
    hide WithoutKey, ExposedElsewhere, Kept;
    var t := Next(h, SealRefused(k));
    if h.out.handing.None? { KeptElsewhere(h, t, k, key); } else { KeptSame(h, t, key); }
  }

  lemma KeptBegin(h: Handle, k: string, band: Band, key: string)
    ensures Kept(h, Next(h, Begin(k, band)), key, false)
  {
    var n := h.fetchSeq + 1;
    RaiseEffects(h.(fetchSeq := n, fetches := h.fetches[n := Fetch(k, false, false)], declaring := h.declaring - {k}), k, n - 1);
    hide Raise, Kept;
    KeptSame(h, Next(h, Begin(k, band)), key);
  }

  /** Only a first application, an outcome and the hand-off do more than keep or drop. */
  lemma KeptStep(h: Handle, step: Step, key: string)
    requires !step.Apply? && !step.Outcome? && !step.Remove?
    ensures Kept(h, Next(h, step), key, Drops(h, step, key))
  {
    hide Kept, Next, Drops;
    match step
    case Answered(n, a, f) => KeptAnswer(h, n, a, f, key);
    case End(n) => KeptEnd(h, n, key);
    case Check => KeptSending(h, step, key);
    case Enqueue(_) => KeptSending(h, step, key);
    case Vet(_) => KeptSending(h, step, key);
    case Release(_) => KeptSending(h, step, key);
    case _ => KeptOther(h, step, key);
  }

  lemma KeptSending(h: Handle, step: Step, key: string)
    requires Sending(step) && !step.Remove?
    ensures Kept(h, Next(h, step), key, Drops(h, step, key))
  {
    hide Kept, CheckHead, EnqueueFact, VetFact, ReleaseFact;
    KeptSame(h, Next(h, step), key);
  }

  // ---------------------------------------------------------------- the marks and the application outcomes follow

  /** What one step does to a mark. */
  lemma MarkedStep(h: Handle, step: Step, key: string, variant: string)
    ensures (key, variant) in Next(h, step).exposed <==>
              || (FirstApplied(h, step, key).Some? && FirstApplied(h, step, key).value.variant == variant)
              || ((key, variant) in h.exposed && !Drops(h, step, key))
  {
    if step.Apply? { AppliedMarks(h, step); hide Next, FirstApplied; }
    else if step.Outcome? { hide AppendOwed; }
    else if step.Remove? { SendingOutward(h, step); hide Next; }
    else { KeptStep(h, step, key); hide Next, Drops; }
  }

  lemma AppliedMarks(h: Handle, step: Step)
    requires step.Apply?
    ensures var t, first, recorded := Next(h, step), FirstApplied(h, step, step.key), Recorded(h, step, step.key);
            && t.exposed == (if first.Some? then h.exposed + {(step.key, first.value.variant)} else h.exposed)
            && t.lastApplied == (if recorded.Some? then h.lastApplied[step.key := recorded.value] else h.lastApplied)
            && t.owed == (if recorded.Some? then AppendOwed(h.owed, Owed(step.key, recorded.value, h.serials)) else h.owed)
            && t.serials == h.serials + (if recorded.Some? then 1 else 0)
    ensures forall k :: k != step.key ==> FirstApplied(h, step, k).None? && Recorded(h, step, k).None?
  {
    hide AppendOwed, ServedEntry;
    var first := FirstApplied(h, step, step.key);
    assert Next(h, step) == ApplyVariant(h, step.key, step.blocked, step.recordable) by { hide ApplyVariant, FirstApplied; }
    hide Next;
    if first.None? { assert ApplyVariant(h, step.key, step.blocked, step.recordable) == h; }
  }

  /** What one step does to the application an outcome follows. */
  lemma FollowedStep(h: Handle, step: Step, key: string)
    ensures Follows(Next(h, step), key) ==
            if Recorded(h, step, key).Some? then Recorded(h, step, key)
            else if Drops(h, step, key) then None else Follows(h, key)
  {
    if step.Apply? { AppliedMarks(h, step); hide Next, FirstApplied, Recorded; }
    else if step.Outcome? { hide AppendOwed; }
    else if step.Remove? { SendingOutward(h, step); hide Next; }
    else { KeptStep(h, step, key); hide Next, Drops; }
  }

  // ---------------------------------------------------------------- the owed records

  /** Records stand in the order they were made. */
  ghost predicate Serialed(h: Handle) {
    Increasing(h.owed) && forall r :: r in h.owed ==> r.serial < h.serials
  }

  ghost predicate Increasing(owed: seq<Owed>) {
    forall i, j :: 0 <= i < j < |owed| ==> owed[i].serial < owed[j].serial
  }

  lemma IncreasingParts(owed: seq<Owed>)
    requires Increasing(owed) && owed != []
    ensures Increasing(owed[1..]) && forall x :: x in owed[1..] ==> owed[0].serial < x.serial
    ensures Increasing(owed[..|owed| - 1]) && forall x :: x in owed[..|owed| - 1] ==> x.serial < owed[|owed| - 1].serial
  {
  }

  lemma IncreasingJoin(a: seq<Owed>, b: seq<Owed>)
    requires Increasing(a) && Increasing(b) && forall x, y :: x in a && y in b ==> x.serial < y.serial
    ensures Increasing(a + b)
  {
  }

  /** The experiment's oldest record. */
  ghost predicate Oldest(owed: seq<Owed>, r: Owed) {
    r in owed && forall x :: x in owed && x.key == r.key ==> r.serial <= x.serial
  }

  /** The step takes this record away: it drops the experiment's, hands this one off, or needs its place. */
  ghost predicate Loses(h: Handle, step: Step, r: Owed) {
    || Drops(h, step, r.key)
    || (step.Remove? && Judged(h.out) && h.owed != [] && h.owed[0] == r == h.out.handing.value.record)
    || ((exists x: Owed :: x.key == r.key && Records(h, step, x)) && CountKey(h.owed, r.key) >= OWED_BOUND && Oldest(h.owed, r))
  }

  lemma {:induction false} DropFirstExactly(owed: seq<Owed>, key: string)
    requires Increasing(owed)
    ensures forall r :: r in DropFirst(owed, key) <==> r in owed && !(r.key == key && Oldest(owed, r))
    ensures Increasing(DropFirst(owed, key))
  {
    if owed != [] {
      var head, tail := owed[0], owed[1..];
      IncreasingParts(owed);
      assert owed == [head] + tail;
      assert forall r :: r in owed <==> r == head || r in tail;
      if head.key != key {
        DropFirstExactly(tail, key);
        IncreasingJoin([head], DropFirst(tail, key));
      }
      hide Increasing;
    }
  }

  lemma {:induction false} WithoutKeySerialed(owed: seq<Owed>, key: string)
    requires Increasing(owed)
    ensures Increasing(WithoutKey(owed, key))
  {
    if owed != [] {
      var front, last := owed[..|owed| - 1], owed[|owed| - 1];
      IncreasingParts(owed);
      WithoutKeySerialed(front, key);
      WithoutKeyIn(front, key);
      IncreasingJoin(WithoutKey(front, key), [last]);
      hide Increasing;
    }
  }

  /** An append keeps the order, and costs the experiment's oldest record when it already has eight. */
  lemma AppendedExactly(owed: seq<Owed>, record: Owed)
    requires Increasing(owed) && forall x :: x in owed ==> x.serial < record.serial
    ensures var after := AppendOwed(owed, record);
            && (forall r :: r in after <==>
                  r == record || (r in owed && !(r.key == record.key && CountKey(owed, record.key) >= OWED_BOUND && Oldest(owed, r))))
            && Increasing(after)
  {
    DropFirstExactly(owed, record.key);
    var room := if CountKey(owed, record.key) >= OWED_BOUND then DropFirst(owed, record.key) else owed;
    IncreasingJoin(room, [record]);
    assert AppendOwed(owed, record) == room + [record];
    hide AppendOwed, DropFirst, CountKey, Oldest, Increasing;
  }

  lemma SerialedStep(h: Handle, step: Step)
    requires Serialed(h)
    ensures Serialed(Next(h, step))
  {
    if step.Apply? {
      AppliedMarks(h, step);
      if Recorded(h, step, step.key).Some? { AppendedExactly(h.owed, Owed(step.key, Recorded(h, step, step.key).value, h.serials)); }
      hide Next, AppendOwed, Recorded, FirstApplied, CountKey;
    } else if step.Outcome? {
      if step.key in h.lastApplied { AppendedExactly(h.owed, Owed(step.key, h.lastApplied[step.key], h.serials)); }
      hide AppendOwed, CountKey;
    } else if step.Remove? {
      SendingOutward(h, step);
      assert Next(h, step).owed == RemoveHead(h) by { hide HandedOff, RemoveHead; }
      hide Next;
    } else {
      KeptStep(h, step, "");
      var t := Next(h, step);
      if t.owed != h.owed && t.owed != [] { TrimmedSerialed(h, t); }
      hide Next, Drops, WithoutKey;
    }
  }

  lemma TrimmedSerialed(h: Handle, t: Handle)
    requires Serialed(h) && t.serials == h.serials && exists k :: t.owed == WithoutKey(h.owed, k)
    ensures Serialed(t)
  {
    var k :| t.owed == WithoutKey(h.owed, k);
    WithoutKeySerialed(h.owed, k);
    WithoutKeyIn(h.owed, k);
    hide WithoutKey, Increasing;
  }

  /** What one step does to the owed records. */
  lemma OwedStep(h: Handle, step: Step, r: Owed)
    requires Serialed(h)
    ensures r in Next(h, step).owed <==> Records(h, step, r) || (r in h.owed && !Loses(h, step, r))
  {
    if step.Apply? || step.Outcome? { OwedRecording(h, step, r); hide Next, Records, Loses; }
    else {
      NothingRecorded(h, step);
      if step.Remove? { OwedRemove(h, r); }
      else { KeptStep(h, step, r.key); }
      hide Next, Records, Drops, CountKey;
    }
  }

  lemma NothingRecorded(h: Handle, step: Step)
    requires !step.Apply? && !step.Outcome?
    ensures forall x :: !Records(h, step, x)
  {
  }

  lemma OwedRemove(h: Handle, r: Owed)
    requires Serialed(h)
    ensures var handed := Judged(h.out) && h.owed != [] && h.owed[0] == r == h.out.handing.value.record;
            r in Next(h, Remove).owed <==> r in h.owed && !handed
  {
    assert Next(h, Remove).owed == RemoveHead(h) by { hide HandedOff, RemoveHead; }
    if h.owed != [] { assert h.owed == [h.owed[0]] + h.owed[1..]; }
    hide Next, HandedOff;
  }

  lemma OwedRecording(h: Handle, step: Step, r: Owed)
    requires Serialed(h) && (step.Apply? || step.Outcome?)
    ensures r in Next(h, step).owed <==> Records(h, step, r) || (r in h.owed && !Loses(h, step, r))
  {
    var made := Made(h, step);
    MadeExactly(h, step);
    hide Next, Records, Made, AppendOwed, CountKey, Oldest;
    if made.Some? {
      AppendedExactly(h.owed, made.value);
      assert Records(h, step, made.value);
    }
  }

  /** The record the step makes, if any. */
  function Made(h: Handle, step: Step): Option<Owed> {
    match step
    case Apply(key, _, _) =>
      var e := Recorded(h, step, key);
      if e.Some? then Some(Owed(key, e.value, h.serials)) else None
    case Outcome(key) =>
      if !h.granted || h.rejected || key !in h.lastApplied || (key in h.declaring && h.lastApplied[key].gated) then None
      else Some(Owed(key, h.lastApplied[key], h.serials))
    case _ => None
  }

  lemma MadeExactly(h: Handle, step: Step)
    requires step.Apply? || step.Outcome?
    ensures var made := Made(h, step);
            && Next(h, step).owed == (if made.Some? then AppendOwed(h.owed, made.value) else h.owed)
            && (forall r :: Records(h, step, r) <==> made == Some(r))
            && (made.Some? ==> made.value.serial == h.serials)
            && (forall k :: !Drops(h, step, k))
  {
    hide AppendOwed;
    if step.Apply? { AppliedMarks(h, step); hide Next, Recorded; }
  }

  // ---------------------------------------------------------------- over whole runs

  ghost predicate InstalledAt(h: Handle, steps: seq<Step>, m: nat, key: string, e: Entry)
    requires m < |steps|
  {
    Installs(Run(h, steps[..m]), steps[m], key, e)
  }

  ghost predicate ForgottenAt(h: Handle, steps: seq<Step>, m: nat, key: string)
    requires m < |steps|
  {
    Forgets(Run(h, steps[..m]), steps[m], key)
  }

  ghost predicate RecordedAt(h: Handle, steps: seq<Step>, m: nat, r: Owed)
    requires m < |steps|
  {
    Records(Run(h, steps[..m]), steps[m], r)
  }

  ghost predicate LostAt(h: Handle, steps: seq<Step>, m: nat, r: Owed)
    requires m < |steps|
  {
    Loses(Run(h, steps[..m]), steps[m], r)
  }

  ghost predicate DroppedAt(h: Handle, steps: seq<Step>, m: nat, key: string)
    requires m < |steps|
  {
    Drops(Run(h, steps[..m]), steps[m], key)
  }

  ghost predicate DeniedAt(h: Handle, steps: seq<Step>, m: nat)
    requires m < |steps|
  {
    Denies(Run(h, steps[..m]), steps[m])
  }

  lemma Onward(h: Handle, steps: seq<Step>, n: nat)
    requires n < |steps|
    ensures Run(h, steps[..n + 1]) == Next(Run(h, steps[..n]), steps[n])
  {
    RunOnward(h, steps[..n], steps[n]);
    assert steps[..n] + [steps[n]] == steps[..n + 1];
  }

  lemma {:induction false} SerialedRun(h: Handle, steps: seq<Step>)
    requires Start(h)
    ensures Serialed(Run(h, steps))
  {
    hide Next, Serialed;
    if steps == [] { assert Serialed(h) by { NothingOwed(h); } }
    else {
      SerialedRun(h, steps[..|steps| - 1]);
      SerialedStep(Run(h, steps[..|steps| - 1]), steps[|steps| - 1]);
    }
  }

  lemma NothingOwed(h: Handle)
    requires h.owed == []
    ensures Serialed(h)
  {
  }

  /** Step `m` installs the assignment, and none from there up to `n` takes it away. */
  ghost predicate CachedFrom(h: Handle, steps: seq<Step>, m: nat, n: nat, key: string, e: Entry)
    requires m < n <= |steps|
  {
    InstalledAt(h, steps, m, key, e) && forall j :: m < j < n ==> !ForgottenAt(h, steps, j, key)
  }

  ghost predicate CachedSince(h: Handle, steps: seq<Step>, n: nat, key: string, e: Entry)
    requires n <= |steps|
  {
    exists m :: 0 <= m < n && CachedFrom(h, steps, m, n, key, e)
  }

  /** Step `m` makes the record, and none from there up to `n` takes it away. */
  ghost predicate OwedFrom(h: Handle, steps: seq<Step>, m: nat, n: nat, r: Owed)
    requires m < n <= |steps|
  {
    RecordedAt(h, steps, m, r) && forall j :: m < j < n ==> !LostAt(h, steps, j, r)
  }

  ghost predicate OwedSince(h: Handle, steps: seq<Step>, n: nat, r: Owed)
    requires n <= |steps|
  {
    exists m :: 0 <= m < n && OwedFrom(h, steps, m, n, r)
  }

  lemma CachedNext(h: Handle, steps: seq<Step>, n: nat, key: string, e: Entry)
    requires n < |steps|
    ensures CachedSince(h, steps, n + 1, key, e)
            <==> InstalledAt(h, steps, n, key, e) || (CachedSince(h, steps, n, key, e) && !ForgottenAt(h, steps, n, key))
  {
    hide InstalledAt, ForgottenAt;
    if InstalledAt(h, steps, n, key, e) { assert CachedFrom(h, steps, n, n + 1, key, e); }
    if CachedSince(h, steps, n, key, e) && !ForgottenAt(h, steps, n, key) {
      var m :| 0 <= m < n && CachedFrom(h, steps, m, n, key, e);
      assert CachedFrom(h, steps, m, n + 1, key, e);
    }
    if CachedSince(h, steps, n + 1, key, e) {
      var m :| 0 <= m < n + 1 && CachedFrom(h, steps, m, n + 1, key, e);
      if m < n { assert CachedFrom(h, steps, m, n, key, e); }
    }
  }

  lemma OwedNext(h: Handle, steps: seq<Step>, n: nat, r: Owed)
    requires n < |steps|
    ensures OwedSince(h, steps, n + 1, r)
            <==> RecordedAt(h, steps, n, r) || (OwedSince(h, steps, n, r) && !LostAt(h, steps, n, r))
  {
    hide RecordedAt, LostAt;
    if RecordedAt(h, steps, n, r) { assert OwedFrom(h, steps, n, n + 1, r); }
    if OwedSince(h, steps, n, r) && !LostAt(h, steps, n, r) {
      var m :| 0 <= m < n && OwedFrom(h, steps, m, n, r);
      assert OwedFrom(h, steps, m, n + 1, r);
    }
    if OwedSince(h, steps, n + 1, r) {
      var m :| 0 <= m < n + 1 && OwedFrom(h, steps, m, n + 1, r);
      if m < n { assert OwedFrom(h, steps, m, n, r); }
    }
  }

  lemma {:induction false} CachedBy(h: Handle, steps: seq<Step>, n: nat, key: string, e: Entry)
    requires Start(h) && n <= |steps|
    ensures EntryOf(Run(h, steps[..n]), key) == Some(e) <==> CachedSince(h, steps, n, key, e)
  {
    if n == 0 { assert steps[..0] == []; }
    else {
      CachedBy(h, steps, n - 1, key, e);
      Onward(h, steps, n - 1);
      CachedStep(Run(h, steps[..n - 1]), steps[n - 1], key, e);
      CachedNext(h, steps, n - 1, key, e);
      hide Run, Next, Installs, Forgets, CachedSince, EntryOf;
    }
  }

  lemma {:induction false} OwedBy(h: Handle, steps: seq<Step>, n: nat, r: Owed)
    requires Start(h) && n <= |steps|
    ensures r in Run(h, steps[..n]).owed <==> OwedSince(h, steps, n, r)
  {
    if n == 0 { assert steps[..0] == []; }
    else {
      OwedBy(h, steps, n - 1, r);
      Onward(h, steps, n - 1);
      SerialedRun(h, steps[..n - 1]);
      OwedStep(Run(h, steps[..n - 1]), steps[n - 1], r);
      OwedNext(h, steps, n - 1, r);
      hide Run, Next, Records, Loses, OwedSince, Serialed;
    }
  }

  /**
   What a handle holds. In every run an assignment is cached exactly when some unfenced answer installed it
   and nothing since then withdrew or replaced it; and a record is owed exactly when some application or
   outcome made it and since then it was neither withdrawn nor handed off nor crowded out by its experiment's
   eight newer ones.
   */
  lemma HeldExactly(h: Handle, steps: seq<Step>, key: string, e: Entry, r: Owed)
    requires Start(h)
    ensures EntryOf(Run(h, steps), key) == Some(e) <==>
              exists m :: 0 <= m < |steps| && CachedFrom(h, steps, m, |steps|, key, e)
    ensures r in Run(h, steps).owed <==> exists m :: 0 <= m < |steps| && OwedFrom(h, steps, m, |steps|, r)
  {
    assert steps[..|steps|] == steps;
    CachedBy(h, steps, |steps|, key, e);
    OwedBy(h, steps, |steps|, r);
    hide Run, CachedFrom, OwedFrom, EntryOf;
  }

  lemma DenialTakes(h: Handle, steps: seq<Step>, d: nat, r: Owed)
    requires d < |steps| && DeniedAt(h, steps, d)
    ensures LostAt(h, steps, d, r) && ForgottenAt(h, steps, d, r.key)
    ensures Withdraws(Run(h, steps[..d]), steps[d], r.key)
    ensures !RecordedAt(h, steps, d, r) && !InstalledAt(h, steps, d, r.key, r.entry)
  {
    hide Run;
  }

  /** After a denial nothing from before it is served or owed, and right after it nothing is held at all. */
  lemma NothingSurvivesDenial(h: Handle, steps: seq<Step>, d: nat, key: string, blocked: bool)
    requires Start(h) && d < |steps| && DeniedAt(h, steps, d)
    ensures var served := ServedEntry(Run(h, steps), key, blocked);
            served.Some? ==> exists m :: d < m < |steps| && InstalledAt(h, steps, m, key, served.value)
    ensures forall r :: r in Run(h, steps).owed ==> exists m :: d < m < |steps| && RecordedAt(h, steps, m, r)
    ensures var t := Run(h, steps[..d + 1]); t.owed == [] && t.entries == map[] && t.exposed == {} && t.lastApplied == map[]
  {
    Onward(h, steps, d);
    DenialEmpties(Run(h, steps[..d]));
    var e := Run(h, steps);
    var served := ServedEntry(e, key, blocked);
    hide Run, Next, DeniedAt, CachedFrom, OwedFrom;
    if served.Some? { CachedAfter(h, steps, d, key, served.value); hide ServedEntry; }
    forall r | r in e.owed ensures exists m :: d < m < |steps| && RecordedAt(h, steps, m, r) { OwedAfter(h, steps, d, r); }
  }

  lemma CachedAfter(h: Handle, steps: seq<Step>, d: nat, key: string, e: Entry)
    requires Start(h) && d < |steps| && DeniedAt(h, steps, d) && EntryOf(Run(h, steps), key) == Some(e)
    ensures exists m :: d < m < |steps| && InstalledAt(h, steps, m, key, e)
  {
    HeldExactly(h, steps, key, e, Owed(key, e, 0));
    hide CachedFrom;
    var m :| 0 <= m < |steps| && CachedFrom(h, steps, m, |steps|, key, e);
    hide *;
    CachedPast(h, steps, d, m, key, e);
    assert d < m;
  }

  lemma CachedPast(h: Handle, steps: seq<Step>, d: nat, m: nat, key: string, e: Entry)
    requires m < |steps| && d < |steps| && DeniedAt(h, steps, d) && CachedFrom(h, steps, m, |steps|, key, e)
    ensures d < m && InstalledAt(h, steps, m, key, e)
  {
    DenialTakes(h, steps, d, Owed(key, e, 0));
    hide InstalledAt, ForgottenAt, DeniedAt, Withdraws, LostAt, RecordedAt;
  }

  lemma OwedAfter(h: Handle, steps: seq<Step>, d: nat, r: Owed)
    requires Start(h) && d < |steps| && DeniedAt(h, steps, d) && r in Run(h, steps).owed
    ensures exists m :: d < m < |steps| && RecordedAt(h, steps, m, r)
  {
    HeldExactly(h, steps, "", r.entry, r);
    hide OwedFrom;
    var m :| 0 <= m < |steps| && OwedFrom(h, steps, m, |steps|, r);
    hide *;
    OwedPast(h, steps, d, m, r);
    assert d < m;
  }

  lemma OwedPast(h: Handle, steps: seq<Step>, d: nat, m: nat, r: Owed)
    requires m < |steps| && d < |steps| && DeniedAt(h, steps, d) && OwedFrom(h, steps, m, |steps|, r)
    ensures d < m && RecordedAt(h, steps, m, r)
  {
    DenialTakes(h, steps, d, r);
    hide InstalledAt, ForgottenAt, DeniedAt, Withdraws, LostAt, RecordedAt;
  }

  lemma DenialEmpties(h: Handle)
    requires h.out.handing.None?
    ensures var t := Next(h, Consent(false)); t.owed == [] && t.entries == map[] && t.exposed == {} && t.lastApplied == map[]
  {
  }

  /**
   A fact sent was recorded in the handle's granted period: from the step that made its record up to the
   withdrawal check of the attempt that sent it, its player did not deny.
   */
  lemma SentRecorded(h: Handle, steps: seq<Step>, f: Fact) returns (m: nat, i: nat, j: nat, k: nat, r: Owed)
    requires Start(h) && f in Run(h, steps).out.sent
    ensures m < i < j < k < |steps| && CheckedAt(h, steps, i, f) && VettedAt(h, steps, j, f) && ReleasedAt(h, steps, k, f)
    ensures RecordedAt(h, steps, m, r) && r.key == f.key && r.serial == f.serial
    ensures forall d :: m < d < j ==> !DeniedAt(h, steps, d)
  {
    i, j, k := SentFacts(h, steps, f);
    r := Run(h, steps[..i]).owed[0];
    OwedBy(h, steps, i, r);
    hide OwedFrom;
    m :| 0 <= m < i && OwedFrom(h, steps, m, i, r);
    NoDenialSince(h, steps, m, i, j, r);
    hide *;
  }

  lemma NoDenialSince(h: Handle, steps: seq<Step>, m: nat, i: nat, j: nat, r: Owed)
    requires m < i <= j <= |steps| && OwedFrom(h, steps, m, i, r)
    requires !WithdrawnDuring(Run(h, steps[..i]), steps[i..j], r.key)
    ensures RecordedAt(h, steps, m, r)
    ensures forall d :: m < d < j ==> !DeniedAt(h, steps, d)
  {
    During(h, steps, i, j, r.key);
    hide WithdrawnDuring, RecordedAt, LostAt, Withdraws, DeniedAt, Run;
    forall d | m < d < j ensures !DeniedAt(h, steps, d) {
      if DeniedAt(h, steps, d) { DenialTakes(h, steps, d, r); }
    }
  }

  lemma {:induction false} MarkStays(h: Handle, steps: seq<Step>, m: nat, n: nat, key: string, variant: string)
    requires m <= n <= |steps| && (key, variant) in Run(h, steps[..m]).exposed
    requires forall d :: m <= d < n ==> !DroppedAt(h, steps, d, key)
    ensures (key, variant) in Run(h, steps[..n]).exposed
  {
    if m < n {
      MarkStays(h, steps, m, n - 1, key, variant);
      Onward(h, steps, n - 1);
      MarkedStep(Run(h, steps[..n - 1]), steps[n - 1], key, variant);
      assert !DroppedAt(h, steps, n - 1, key);
      hide Run, Next, Drops, FirstApplied;
    }
  }

  /** An assignment is applied for the first time once: between two such steps its marks were withdrawn. */
  lemma AppliedOnce(h: Handle, steps: seq<Step>, m: nat, n: nat, key: string, a: Entry, b: Entry)
    requires m < n < |steps| && a.variant == b.variant
    requires FirstApplied(Run(h, steps[..m]), steps[m], key) == Some(a)
    requires FirstApplied(Run(h, steps[..n]), steps[n], key) == Some(b)
    ensures exists d :: m < d < n && DroppedAt(h, steps, d, key)
  {
    if forall d :: m < d < n ==> !DroppedAt(h, steps, d, key) {
      Onward(h, steps, m);
      MarkedStep(Run(h, steps[..m]), steps[m], key, a.variant);
      MarkStays(h, steps, m + 1, n, key, a.variant);
      assert false;
    }
  }

  // ---------------------------------------------------------------- what a caller gets

  /**
   A fresh answer reaches its caller: an unfenced assignment is installed, and returned exactly unless it is
   age-gated while another fetch's declaration of the experiment is pending.
   */
  lemma AnswerReachesCaller(h: Handle, n: nat, a: Answer, f: Fences, sameAttributes: bool, blocked: bool)
    requires n in h.fetches && a.Assigned? && Unfenced(h, n, f)
    ensures var key, e, t := h.fetches[n].key, Entry(n, a.gated, a.variant), Commit(h, n, a, f);
            var others := key in h.declaring && h.declaring[key].seqNo != n;
            && EntryOf(t, key) == Some(e)
            && Result(h, n, a, f, sameAttributes, blocked) == if others && a.gated then None else Some(e)
  {
    var key := h.fetches[n].key;
    AppliedOn(h, n, key, a, f);
    AppliedEffects(h, n, key, a, f);
    InstalledAnswer(h, n, key, a, f);
    CommitOn(h, n, a, f);
    hide Applied, SettledAt;
  }

  lemma InstalledAnswer(h: Handle, n: nat, key: string, a: Answer, f: Fences)
    requires a.Assigned? && n > SettledAt(h, key) && !f.refused && !f.stale
    ensures Applied(h, n, key, a, f).1
  {
    hide Raise;
  }

  /** The send point releases a vetted fact exactly when no declaration of its experiment is pending; else it waits in the queue. */
  lemma ReleasedExactly(h: Handle, i: nat)
    requires i < |h.out.vetted|
    ensures var t, f := Next(h, Release(i)).out, h.out.vetted[i];
            && t.vetted == RemoveAt(h.out.vetted, i) && t.handing == h.out.handing
            && t.sent == h.out.sent + (if f.key in h.declaring then [] else [f])
            && t.queued == h.out.queued + (if f.key in h.declaring then [f] else [])
  {
    hide RemoveAt;
  }
}
