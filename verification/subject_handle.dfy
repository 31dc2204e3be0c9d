/**
 One player's experiment handle: numbered fetches, pending non-adult declarations, and
 the withdrawal stamps a handed-off fact is compared with at the send point.
 */
module SubjectHandle {
  import opened Basics

  /** `origin` is the fetch that installed the assignment; `gated` that it needs a confirmed age. */
  datatype Entry = Entry(origin: nat, gated: bool, variant: string)

  /** A pending non-adult declaration, the fence below it, and whether its own answer was applied. */
  datatype Declaration = Declaration(fence: nat, seqNo: nat, decided: bool)

  datatype Band = NoBand | Adult | NonAdult

  /** A fetch between its start and its end. */
  datatype Fetch = Fetch(key: string, declares: bool, answered: bool)

  /** An application or an outcome waiting for delivery. */
  datatype Owed = Owed(key: string, entry: Entry, serial: nat)

  /** A fact handed to the analytics queue, with the stamp read at hand-off. */
  datatype Fact = Fact(key: string, stamp: nat, serial: nat)

  /** A record whose hand-off is under way: the stamp read with the head check, and whether the queue has given its verdict. */
  datatype Handing = Handing(record: Owed, stamp: nat, judged: bool)

  /** What the analytics queue says to a fact. */
  datatype Verdict = Accepted | QueueRefused | TooLarge

  /** On the way out: the hand-off under way, facts in the queue, facts past the withdrawal check of an attempt, facts sent. */
  datatype Outgoing = Outgoing(handing: Option<Handing>, queued: seq<Fact>, vetted: seq<Fact>, sent: seq<Fact>)

  datatype Answer =
    | Assigned(gated: bool, variant: string)
    | Ineligible
    | Gone
    | AllWithdrawn
    | SubjectRefused
    | Unauthorized
    | Transient

  datatype Handle = Handle(
    granted: bool,
    rejected: bool,
    fetchSeq: nat,
    fetches: map<nat, Fetch>,
    settled: map<string, nat>,
    entries: map<string, Entry>,
    declaring: map<string, Declaration>,
    exposed: set<(string, string)>,
    owed: seq<Owed>,
    lastApplied: map<string, Entry>,
    serials: nat,
    withdrawSeq: nat,
    deniedAt: nat,
    ageWithdrawnAt: map<string, nat>,
    out: Outgoing)

  const OWED_BOUND := 8

  function SettledAt(h: Handle, key: string): nat {
    if key in h.settled then h.settled[key] else 0
  }

  function EntryOf(h: Handle, key: string): Option<Entry> {
    if key in h.entries then Some(h.entries[key]) else None
  }

  function Raise(h: Handle, key: string, to: nat): Handle {
    if SettledAt(h, key) < to then h.(settled := h.settled[key := to]) else h
  }

  // ---------------------------------------------------------------- withdrawals

  function WithoutKey(owed: seq<Owed>, key: string): seq<Owed> {
    if owed == [] then []
    else
      var front := WithoutKey(owed[..|owed| - 1], key);
      if owed[|owed| - 1].key == key then front else front + [owed[|owed| - 1]]
  }

  function ExposedElsewhere(exposed: set<(string, string)>, key: string): set<(string, string)> {
    set t | t in exposed && t.0 != key
  }

  /** withdrawAgeLocked. */
  function WithdrawAge(h: Handle, key: string, dropEntry: bool): Handle {
    h.(entries := if dropEntry then h.entries - {key} else h.entries,
       lastApplied := h.lastApplied - {key},
       exposed := ExposedElsewhere(h.exposed, key),
       owed := WithoutKey(h.owed, key),
       withdrawSeq := h.withdrawSeq + 1,
       ageWithdrawnAt := h.ageWithdrawnAt[key := h.withdrawSeq + 1])
  }

  /** withdrawAllLocked. */
  function WithdrawAll(h: Handle): Handle {
    h.(owed := [], entries := map[], exposed := {}, lastApplied := map[])
  }

  function SetGranted(h: Handle, granted: bool): Handle {
    var g := h.(granted := granted);
    if granted then g
    else
      var w := WithdrawAll(g);
      w.(withdrawSeq := w.withdrawSeq + 1, deniedAt := w.withdrawSeq + 1)
  }

  function CountKey(owed: seq<Owed>, key: string): nat {
    if owed == [] then 0 else CountKey(owed[..|owed| - 1], key) + if owed[|owed| - 1].key == key then 1 else 0
  }

  function DropFirst(owed: seq<Owed>, key: string): seq<Owed> {
    if owed == [] then [] else if owed[0].key == key then owed[1..] else [owed[0]] + DropFirst(owed[1..], key)
  }

  /** appendOwedLocked: at the bound the key's oldest record goes. */
  function AppendOwed(owed: seq<Owed>, record: Owed): seq<Owed> {
    (if CountKey(owed, record.key) >= OWED_BOUND then DropFirst(owed, record.key) else owed) + [record]
  }

  // ---------------------------------------------------------------- declarations

  /** beginDeclarationLocked. */
  function BeginDeclaration(h: Handle, key: string, band: Band, seqNo: nat): Handle
    requires seqNo > 0
  {
    match band
    case NoBand => h
    case Adult => Raise(h.(declaring := h.declaring - {key}), key, seqNo - 1)
    case NonAdult => h.(declaring := h.declaring[key := Declaration(seqNo - 1, seqNo, false)])
  }

  /** endDeclaration, for the declaration of fetch `n`. */
  function EndDeclaration(h: Handle, key: string, n: nat): Handle {
    if key !in h.declaring || h.declaring[key].seqNo != n then h
    else
      var d := h.declaring[key];
      var ended := h.(declaring := h.declaring - {key});
      if d.decided then ended
      else
        var fenced := Raise(ended, key, d.fence);
        var live := EntryOf(fenced, key);
        WithdrawAge(fenced, key, live.None? || live.value.gated)
  }

  // ---------------------------------------------------------------- the commit point

  predicate Authoritative(a: Answer) {
    !a.Transient?
  }

  predicate Blocks(a: Answer) {
    a.Unauthorized? || a.AllWithdrawn?
  }

  /** Why an answer may not install: the handle or the consent refuses, or the credentials changed. */
  datatype Fences = Fences(refused: bool, stale: bool)

  /** What an answer does to the handle, and whether it was applied. */
  function Applied(h: Handle, n: nat, key: string, a: Answer, f: Fences): (Handle, bool) {
    var fencedOut := n <= SettledAt(h, key);
    var h1 := if a.SubjectRefused? && !h.rejected then WithdrawAll(h.(rejected := true)) else h;
    if fencedOut && !a.AllWithdrawn? then (h1, false)
    else
      var h2 := if Authoritative(a) && !f.stale then Raise(h1, key, n) else h1;
      match a
      case AllWithdrawn => (WithdrawAll(h2), true)
      case Ineligible => (WithdrawAge(h2, key, true), true)
      case Gone => (h2.(entries := h2.entries - {key}), true)
      case Assigned(gated, variant) =>
        if f.refused || f.stale || fencedOut then (h2, false)
        else (h2.(entries := h2.entries[key := Entry(n, gated, variant)]), true)
      case _ => (h2, false)
  }

  /** The commit point of fetch `n`: its own pending declaration is decided by an applied answer. */
  function Commit(h: Handle, n: nat, a: Answer, f: Fences): Handle
    requires n in h.fetches
  {
    var key := h.fetches[n].key;
    var (t, applied) := Applied(h, n, key, a, f);
    var u := t.(fetches := h.fetches[n := h.fetches[n].(answered := true)]);
    if key in u.declaring && u.declaring[key].seqNo == n && applied
    then u.(declaring := u.declaring[key := u.declaring[key].(decided := true)]) else u
  }

  /** The assignment the caller of fetch `n` gets; `sameAttributes` and `blocked` are the cached entry's match and the plane's latch. */
  function Result(h: Handle, n: nat, a: Answer, f: Fences, sameAttributes: bool, blocked: bool): Option<Entry>
    requires n in h.fetches
  {
    var key := h.fetches[n].key;
    var fencedOut := n <= SettledAt(h, key);
    var serve := if !f.stale && sameAttributes then EntryOf(h, key) else None;
    var t := Commit(h, n, a, f);
    var pending := if key in t.declaring then Some(t.declaring[key]) else None;
    var installed := a.Assigned? && !f.refused && !f.stale && !fencedOut;
    if f.refused then None
    else if f.stale && !Blocks(a) then None
    else if fencedOut && Authoritative(a) && !Blocks(a) then
      var current := EntryOf(t, key);
      if current.None? || blocked || !sameAttributes || (pending.Some? && current.value.gated) then None else current
    else
      var given := if a.Assigned? then Some(Entry(n, a.gated, a.variant)) else if a.Transient? then serve else None;
      var source := if installed then EntryOf(t, key) else serve;
      var suppress := pending.Some? && !(pending.value.seqNo == n && pending.value.decided)
                      && (source.None? || source.value.gated);
      if given.Some? && !suppress then given else None
  }

  /** servedEntryLocked. */
  function ServedEntry(h: Handle, key: string, blocked: bool): Option<Entry> {
    if !h.granted || h.rejected || blocked || key !in h.entries then None
    else if key in h.declaring && h.entries[key].gated then None
    else Some(h.entries[key])
  }

  // ---------------------------------------------------------------- recording

  /** Apply: the first application of each assignment is recorded. */
  function ApplyVariant(h: Handle, key: string, blocked: bool, recordable: bool): Handle {
    var e := ServedEntry(h, key, blocked);
    if e.None? || (key, e.value.variant) in h.exposed then h
    else
      var t := h.(exposed := h.exposed + {(key, e.value.variant)});
      if !recordable then t
      else t.(owed := AppendOwed(h.owed, Owed(key, e.value, h.serials)), serials := h.serials + 1,
              lastApplied := h.lastApplied[key := e.value])
  }

  /** TrackOutcome: an outcome follows the last recorded application. */
  function TrackOutcome(h: Handle, key: string): Handle {
    if !h.granted || h.rejected || key !in h.lastApplied || (key in h.declaring && h.lastApplied[key].gated) then h
    else h.(owed := AppendOwed(h.owed, Owed(key, h.lastApplied[key], h.serials)), serials := h.serials + 1)
  }

  // ---------------------------------------------------------------- handing off and sending

  /** commit, its first section: under the handle's lock the head is checked and the stamp read. */
  function CheckHead(h: Handle): Outgoing {
    if h.out.handing.Some? || !h.granted || h.owed == [] || h.owed[0].key in h.declaring then h.out
    else h.out.(handing := Some(Handing(h.owed[0], h.withdrawSeq, false)))
  }

  /** Between its sections, with the handle's lock free: the queue takes the fact or does not. */
  function EnqueueFact(out: Outgoing, v: Verdict): Outgoing {
    if out.handing.None? || out.handing.value.judged then out
    else
      var g := out.handing.value;
      match v
      case QueueRefused => out.(handing := None)
      case TooLarge => out.(handing := Some(g.(judged := true)))
      case Accepted =>
        out.(handing := Some(g.(judged := true)), queued := out.queued + [Fact(g.record.key, g.stamp, g.record.serial)])
  }

  predicate Judged(out: Outgoing) {
    out.handing.Some? && out.handing.value.judged
  }

  /** commit's last section, and retire: the record goes if it is still the head. */
  function RemoveHead(h: Handle): seq<Owed> {
    if Judged(h.out) && h.owed != [] && h.owed[0] == h.out.handing.value.record then h.owed[1..] else h.owed
  }

  function HandedOff(out: Outgoing): Outgoing {
    if Judged(out) then out.(handing := None) else out
  }

  function RemoveAt(facts: seq<Fact>, i: nat): seq<Fact>
    requires i < |facts|
  {
    facts[..i] + facts[i + 1..]
  }

  /** dropDeniedSubjectBuiltBatch: a withdrawn fact is dropped, the others go on in this attempt. */
  function VetFact(h: Handle, i: nat): Outgoing {
    if i >= |h.out.queued| then h.out
    else
      var f := h.out.queued[i];
      h.out.(queued := RemoveAt(h.out.queued, i),
             vetted := if FactWithdrawn(h, f) then h.out.vetted else h.out.vetted + [f])
  }

  /** ageHeldRequest, right before the send: under a pending declaration the attempt ends, and the fact waits for the next. */
  function ReleaseFact(h: Handle, i: nat): Outgoing {
    if i >= |h.out.vetted| then h.out
    else
      var f := h.out.vetted[i];
      var rest := RemoveAt(h.out.vetted, i);
      if f.key in h.declaring then h.out.(vetted := rest, queued := h.out.queued + [f])
      else h.out.(vetted := rest, sent := h.out.sent + [f])
  }

  // ---------------------------------------------------------------- steps

  datatype Step =
    | Begin(key: string, band: Band)
    | Answered(n: nat, answer: Answer, fences: Fences)
    | End(n: nat)
    | Apply(key: string, blocked: bool, recordable: bool)
    | Outcome(key: string)
    | Consent(granted: bool)
    | Sentinel
    | Check
    | Enqueue(verdict: Verdict)
    | Remove
    | Vet(i: nat)
    | Release(i: nat)
    | SealRefused(key: string)
    | Purge

  function Next(h: Handle, step: Step): Handle {
    match step
    case Begin(key, band) =>
      var n := h.fetchSeq + 1;
      BeginDeclaration(h.(fetchSeq := n, fetches := h.fetches[n := Fetch(key, band == NonAdult, false)]), key, band, n)
    case Answered(n, a, f) =>
      if n in h.fetches && !h.fetches[n].answered then Commit(h, n, a, f) else h
    case End(n) =>
      if n !in h.fetches then h
      else
        var t := h.(fetches := h.fetches - {n});
        if h.fetches[n].declares then EndDeclaration(t, h.fetches[n].key, n) else t
    case Apply(key, blocked, recordable) => ApplyVariant(h, key, blocked, recordable)
    case Outcome(key) => TrackOutcome(h, key)
    // consent waits for a hand-off under way, and so does a seal, which the delivery pass asks for
    case Consent(granted) => if h.out.handing.Some? then h else SetGranted(h, granted)
    case Sentinel => WithdrawAll(h).(declaring := map[])
    case Check => h.(out := CheckHead(h))
    case Enqueue(verdict) => h.(out := EnqueueFact(h.out, verdict))
    case Remove => h.(owed := RemoveHead(h), out := HandedOff(h.out))
    case Vet(i) => h.(out := VetFact(h, i))
    case Release(i) => h.(out := ReleaseFact(h, i))
    case SealRefused(key) => if h.out.handing.Some? then h else WithdrawAge(h, key, true)
    case Purge => h.(owed := [], exposed := {}, lastApplied := map[])
  }

  function Run(h: Handle, steps: seq<Step>): Handle {
    if steps == [] then h else Next(Run(h, steps[..|steps| - 1]), steps[|steps| - 1])
  }

  predicate Start(h: Handle) {
    h.fetchSeq == 0 && h.fetches == map[] && h.settled == map[] && h.entries == map[] && h.declaring == map[]
    && h.owed == [] && h.lastApplied == map[] && h.withdrawSeq == 0 && h.deniedAt == 0 && h.ageWithdrawnAt == map[]
    && h.out == Outgoing(None, [], [], []) && h.exposed == {} && h.serials == 0
  }

  // ---------------------------------------------------------------- while a declaration is pending

  /** A pending non-adult declaration lets nothing age-gated be served, applied or recorded, and no record pass the head check. */
  lemma PendingServesNothingGated(h: Handle, key: string, blocked: bool, recordable: bool)
    requires key in h.declaring
    ensures ServedEntry(h, key, blocked).Some? ==> !ServedEntry(h, key, blocked).value.gated
    ensures forall r :: r in Next(h, Apply(key, blocked, recordable)).owed && r !in h.owed ==> !r.entry.gated
    ensures forall r :: r in Next(h, Outcome(key)).owed && r !in h.owed ==> !r.entry.gated
    ensures h.owed != [] && h.owed[0].key == key ==> Next(h, Check) == h
  {
    AppendOnly(h.owed, key);
  }

  lemma AppendOnly(owed: seq<Owed>, key: string)
    ensures forall r: Owed, x: Owed :: r.key == key && x in AppendOwed(owed, r) ==> x in owed || x == r
  {
    forall r: Owed, x: Owed | r.key == key && x in AppendOwed(owed, r) ensures x in owed || x == r { DropFirstIn(owed, key); }
  }

  lemma {:induction false} DropFirstIn(owed: seq<Owed>, key: string)
    ensures forall x :: x in DropFirst(owed, key) ==> x in owed
  {
    if owed != [] && owed[0].key != key { DropFirstIn(owed[1..], key); }
  }

  /** Nor does any fetch hand its caller an age-gated assignment then, but the declaring one its own applied answer. */
  lemma PendingAnswersNothingGated(h: Handle, n: nat, a: Answer, f: Fences, sameAttributes: bool, blocked: bool)
    requires n in h.fetches && h.fetches[n].key in Commit(h, n, a, f).declaring
    ensures var r, d := Result(h, n, a, f, sameAttributes, blocked), Commit(h, n, a, f).declaring[h.fetches[n].key];
            r.Some? && r.value.gated ==> d.seqNo == n && d.decided
  {
  }

  // ---------------------------------------------------------------- an unanswered declaration

  /** Fetch `n` is over, and nothing dispatched up to it can install an age-gated assignment of `key` any more. */
  predicate Fenced(h: Handle, key: string, n: nat) {
    && n <= h.fetchSeq && n !in h.fetches && SettledAt(h, key) + 1 >= n
    && (key in h.entries && h.entries[key].gated ==> h.entries[key].origin > n)
  }

  predicate Sending(step: Step) {
    step.Check? || step.Enqueue? || step.Remove? || step.Vet? || step.Release?
  }

  predicate Recording(step: Step) {
    step.Apply? || step.Outcome? || step.Purge? || Sending(step)
  }

  /** All but the records, the applications they follow and what is on its way out. */
  predicate SameCore(h: Handle, t: Handle) {
    && t.fetchSeq == h.fetchSeq && t.fetches == h.fetches && t.settled == h.settled && t.entries == h.entries
    && t.declaring == h.declaring && t.withdrawSeq == h.withdrawSeq && t.deniedAt == h.deniedAt
    && t.ageWithdrawnAt == h.ageWithdrawnAt
  }

  lemma ApplyCore(h: Handle, key: string, blocked: bool, recordable: bool)
    ensures SameCore(h, ApplyVariant(h, key, blocked, recordable))
  {
    hide AppendOwed, ServedEntry;
  }

  lemma OutcomeCore(h: Handle, key: string)
    ensures SameCore(h, TrackOutcome(h, key))
  {
    hide AppendOwed;
  }

  /** All but the owed records and what is on its way out. */
  predicate Outward(h: Handle, t: Handle) {
    && SameCore(h, t) && t.granted == h.granted && t.rejected == h.rejected && t.exposed == h.exposed
    && t.lastApplied == h.lastApplied && t.serials == h.serials
  }

  lemma SendingOutward(h: Handle, step: Step)
    requires Sending(step)
    ensures Outward(h, Next(h, step))
  {
    hide CheckHead, EnqueueFact, RemoveHead, HandedOff, VetFact, ReleaseFact;
  }

  lemma RecordingCore(h: Handle, step: Step)
    requires Recording(step)
    ensures SameCore(h, Next(h, step))
  {
    hide ApplyVariant, TrackOutcome;
    if step.Apply? { ApplyCore(h, step.key, step.blocked, step.recordable); }
    else if step.Outcome? { OutcomeCore(h, step.key); }
    else if Sending(step) { SendingOutward(h, step); hide Next; }
  }

  /** An answer installs only its own assignment, only above the fence, and never lowers a fence. */
  lemma AppliedEffects(h: Handle, n: nat, key: string, a: Answer, f: Fences)
    ensures var t := Applied(h, n, key, a, f).0;
            && t.fetches == h.fetches && t.declaring == h.declaring && t.fetchSeq == h.fetchSeq
            && (forall k :: SettledAt(t, k) >= SettledAt(h, k))
            && (forall k :: k in t.entries ==>
                  (k in h.entries && t.entries[k] == h.entries[k]) ||
                  (k == key && t.entries[k].origin == n && n > SettledAt(h, key)))
  {
    hide WithoutKey;
    RaiseEffects(h, key, n);
    RaiseEffects(WithdrawAll(h.(rejected := true)), key, n);
    hide Raise;
  }

  lemma RaiseEffects(h: Handle, key: string, to: nat)
    ensures var t := Raise(h, key, to);
            && t == h.(settled := t.settled)
            && (forall k :: SettledAt(t, k) >= SettledAt(h, k)) && SettledAt(t, key) >= to
  {
  }

  lemma FencedCommit(h: Handle, key: string, n: nat, m: nat, a: Answer, f: Fences)
    requires Fenced(h, key, n) && m in h.fetches
    ensures Fenced(Commit(h, m, a, f), key, n)
  {
    hide Applied;
    AppliedEffects(h, m, h.fetches[m].key, a, f);
  }

  lemma BeginEffects(h: Handle, key: string, band: Band)
    ensures var n, t := h.fetchSeq + 1, Next(h, Begin(key, band));
            && t.fetchSeq == n && t.fetches == h.fetches[n := Fetch(key, band == NonAdult, false)]
            && t.entries == h.entries && t.withdrawSeq == h.withdrawSeq && t.deniedAt == h.deniedAt
            && t.ageWithdrawnAt == h.ageWithdrawnAt
            && (forall k :: SettledAt(t, k) >= SettledAt(h, k))
            && t.declaring == (match band
                               case NoBand => h.declaring
                               case Adult => h.declaring - {key}
                               case NonAdult => h.declaring[key := Declaration(n - 1, n, false)])
  {
    var n := h.fetchSeq + 1;
    if band.Adult? {
      RaiseEffects(h.(fetchSeq := n, fetches := h.fetches[n := Fetch(key, false, false)], declaring := h.declaring - {key}), key, n - 1);
    }
    hide Raise;
  }

  predicate Unanswered(h: Handle, n: nat) {
    n in h.fetches && h.fetches[n].declares && h.fetches[n].key in h.declaring
    && h.declaring[h.fetches[n].key].seqNo == n && !h.declaring[h.fetches[n].key].decided
  }

  lemma EndEffects(h: Handle, n: nat)
    requires n in h.fetches
    ensures var key, t := h.fetches[n].key, Next(h, End(n));
            && t.fetchSeq == h.fetchSeq && t.fetches == h.fetches - {n}
            && t.declaring == (if h.fetches[n].declares && key in h.declaring && h.declaring[key].seqNo == n
                               then h.declaring - {key} else h.declaring)
            && (forall k :: SettledAt(t, k) >= SettledAt(h, k))
            && t.deniedAt == h.deniedAt
            && (if Unanswered(h, n)
                then t.withdrawSeq == h.withdrawSeq + 1 && t.ageWithdrawnAt == h.ageWithdrawnAt[key := h.withdrawSeq + 1]
                     && SettledAt(t, key) >= h.declaring[key].fence
                     && (forall k :: k in t.entries ==> k in h.entries && t.entries[k] == h.entries[k])
                     && (key in t.entries ==> !t.entries[key].gated)
                     && t.owed == WithoutKey(h.owed, key) && t.lastApplied == h.lastApplied - {key}
                else t.withdrawSeq == h.withdrawSeq && t.ageWithdrawnAt == h.ageWithdrawnAt && t.entries == h.entries)
  {
    hide WithoutKey;
    var key := h.fetches[n].key;
    if Unanswered(h, n) {
      RaiseEffects(h.(fetches := h.fetches - {n}, declaring := h.declaring - {key}), key, h.declaring[key].fence);
      hide Raise;
    }
  }

  lemma FencedOther(h: Handle, key: string, n: nat, step: Step)
    requires Fenced(h, key, n) && (step.Consent? || step.Sentinel? || step.SealRefused?)
    ensures Fenced(Next(h, step), key, n)
  {
    hide WithoutKey;
  }

  lemma EndNothing(h: Handle, n: nat)
    requires n !in h.fetches
    ensures Next(h, End(n)) == h
  {
  }

  lemma FencedStep(h: Handle, key: string, n: nat, step: Step)
    requires Fenced(h, key, n)
    ensures Fenced(Next(h, step), key, n)
  {
    if step.Answered? {
      if step.n in h.fetches && !h.fetches[step.n].answered { FencedCommit(h, key, n, step.n, step.answer, step.fences); }
      hide Commit;
    } else {
      hide Next;
      if step.Begin? { BeginEffects(h, step.key, step.band); }
      else if step.End? { if step.n in h.fetches { EndEffects(h, step.n); } else { EndNothing(h, step.n); } }
      else if Recording(step) { RecordingCore(h, step); }
      else { FencedOther(h, key, n, step); }
    }
  }

  lemma {:induction false} FencedRun(h: Handle, key: string, n: nat, steps: seq<Step>)
    requires Fenced(h, key, n)
    ensures Fenced(Run(h, steps), key, n)
  {
    hide Next;
    if steps != [] {
      FencedRun(h, key, n, steps[..|steps| - 1]);
      FencedStep(Run(h, steps[..|steps| - 1]), key, n, steps[|steps| - 1]);
    }
  }

  /** What holds of every reachable handle: fetches are numbered, declarations belong to running fetches. */
  ghost predicate Numbered(h: Handle) {
    && (forall n :: n in h.fetches ==> 0 < n <= h.fetchSeq)
    && (forall k :: k in h.declaring ==>
          var d := h.declaring[k];
          d.seqNo in h.fetches && h.fetches[d.seqNo].key == k && h.fetches[d.seqNo].declares && d.fence == d.seqNo - 1)
  }

  lemma NumberedCommit(h: Handle, n: nat, a: Answer, f: Fences)
    requires Numbered(h) && n in h.fetches
    ensures Numbered(Commit(h, n, a, f))
  {
    AppliedEffects(h, n, h.fetches[n].key, a, f);
    hide Applied;
  }

  lemma NumberedBegin(h: Handle, key: string, band: Band)
    requires Numbered(h)
    ensures Numbered(Next(h, Begin(key, band)))
  {
    BeginEffects(h, key, band);
    hide Next;
  }

  lemma NumberedEnd(h: Handle, n: nat)
    requires Numbered(h)
    ensures Numbered(Next(h, End(n)))
  {
    if n in h.fetches { EndEffects(h, n); } else { EndNothing(h, n); }
    hide Next;
  }

  lemma NumberedOther(h: Handle, step: Step)
    requires Numbered(h) && (step.Consent? || step.Sentinel? || step.SealRefused?)
    ensures Numbered(Next(h, step))
  {
    hide WithoutKey;
  }

  lemma NumberedStep(h: Handle, step: Step)
    requires Numbered(h)
    ensures Numbered(Next(h, step))
  {
    if step.Answered? {
      if step.n in h.fetches { NumberedCommit(h, step.n, step.answer, step.fences); }
      hide Commit, Numbered;
    } else if step.Begin? { NumberedBegin(h, step.key, step.band); }
    else if step.End? { NumberedEnd(h, step.n); }
    else if Recording(step) { RecordingCore(h, step); hide Next; }
    else { NumberedOther(h, step); }
  }

  lemma {:induction false} NumberedRun(h: Handle, steps: seq<Step>)
    requires Start(h)
    ensures Numbered(Run(h, steps))
  {
    hide Next;
    if steps != [] {
      NumberedRun(h, steps[..|steps| - 1]);
      NumberedStep(Run(h, steps[..|steps| - 1]), steps[|steps| - 1]);
    }
  }

  /**
   An unanswered non-adult declaration. When its fetch ends without an applied answer and no later
   declaration replaced it, no age-gated assignment of the experiment stays cached, and under any
   order of the responses still to come, one is installed only by a fetch dispatched after it.
   */
  lemma UnansweredDeclaration(h: Handle, before: seq<Step>, n: nat, key: string, after: seq<Step>)
    requires Start(h)
    requires var p := Run(h, before); key in p.declaring && p.declaring[key].seqNo == n && !p.declaring[key].decided
    ensures var ended := Next(Run(h, before), End(n));
            && (key in ended.entries ==> !ended.entries[key].gated)
            && key !in ended.lastApplied && (forall r :: r in ended.owed ==> r.key != key)
            && var later := Run(ended, after);
               (key in later.entries && later.entries[key].gated ==> later.entries[key].origin > n)
  {
    NumberedRun(h, before);
    EndFences(Run(h, before), key, n);
    hide Run, Next, EndDeclaration;
    FencedRun(Next(Run(h, before), End(n)), key, n, after);
  }

  lemma EndFences(p: Handle, key: string, n: nat)
    requires Numbered(p) && key in p.declaring && p.declaring[key].seqNo == n && !p.declaring[key].decided
    ensures var ended := Next(p, End(n));
            && Fenced(ended, key, n)
            && (key in ended.entries ==> !ended.entries[key].gated)
            && key !in ended.lastApplied && (forall r :: r in ended.owed ==> r.key != key)
  {
    WithoutKeyIn(p.owed, key);
    assert p.fetches[n].key == key && p.fetches[n].declares && p.declaring[key].fence == n - 1;
    EndEffects(p, n);
    hide WithoutKey, Next;
  }

  lemma {:induction false} WithoutKeyIn(owed: seq<Owed>, key: string)
    ensures forall r :: r in WithoutKey(owed, key) <==> r in owed && r.key != key
  {
    if owed != [] {
      WithoutKeyIn(owed[..|owed| - 1], key);
      assert owed == owed[..|owed| - 1] + [owed[|owed| - 1]];
    }
  }

  // ---------------------------------------------------------------- withdrawal stamps at the send point

  function AgeAt(h: Handle, key: string): nat {
    if key in h.ageWithdrawnAt then h.ageWithdrawnAt[key] else 0
  }

  /** subjectFactWithdrawn. */
  predicate FactWithdrawn(h: Handle, f: Fact) {
    f.stamp < h.deniedAt || f.stamp < AgeAt(h, f.key)
  }

  /** The step withdraws what the handle recorded for the experiment: a denial, an age refusal or an unanswered declaration. */
  predicate Withdraws(h: Handle, step: Step, key: string) {
    match step
    case Consent(granted) => !granted && h.out.handing.None?
    case SealRefused(k) => k == key && h.out.handing.None?
    case Answered(n, a, f) =>
      n in h.fetches && !h.fetches[n].answered && h.fetches[n].key == key && a.Ineligible? && n > SettledAt(h, key)
    case End(n) =>
      n in h.fetches && h.fetches[n].declares && h.fetches[n].key == key
      && key in h.declaring && h.declaring[key].seqNo == n && !h.declaring[key].decided
    case _ => false
  }

  predicate Stamped(h: Handle) {
    h.deniedAt <= h.withdrawSeq && forall k :: k in h.ageWithdrawnAt ==> h.ageWithdrawnAt[k] <= h.withdrawSeq
  }

  predicate StampsMoved(h: Handle, t: Handle, withdraws: bool, key: string) {
    && t.withdrawSeq >= h.withdrawSeq
    && (if withdraws
        then t.withdrawSeq > h.withdrawSeq && (t.deniedAt == t.withdrawSeq || AgeAt(t, key) == t.withdrawSeq)
             && t.deniedAt >= h.deniedAt && AgeAt(t, key) >= AgeAt(h, key)
        else t.deniedAt == h.deniedAt && AgeAt(t, key) == AgeAt(h, key))
  }

  lemma AgeStamps(h: Handle, k: string, dropEntry: bool, key: string)
    requires Stamped(h)
    ensures var t := WithdrawAge(h, k, dropEntry); Stamped(t) && StampsMoved(h, t, k == key, key)
  {
    hide WithoutKey;
  }

  /** Only an applied age refusal moves a stamp at the commit point. */
  lemma AppliedStamps(h: Handle, n: nat, key: string, a: Answer, f: Fences)
    ensures var t := Applied(h, n, key, a, f).0;
            && t.deniedAt == h.deniedAt
            && (if a.Ineligible? && n > SettledAt(h, key)
                then t.withdrawSeq == h.withdrawSeq + 1 && t.ageWithdrawnAt == h.ageWithdrawnAt[key := h.withdrawSeq + 1]
                else t.withdrawSeq == h.withdrawSeq && t.ageWithdrawnAt == h.ageWithdrawnAt)
  {
    hide WithoutKey;
    RaiseEffects(h, key, n);
    RaiseEffects(WithdrawAll(h.(rejected := true)), key, n);
    hide Raise;
  }

  lemma CommitStamps(h: Handle, n: nat, a: Answer, f: Fences, key: string)
    requires Stamped(h) && n in h.fetches && !h.fetches[n].answered
    ensures var t := Commit(h, n, a, f); Stamped(t) && StampsMoved(h, t, Withdraws(h, Answered(n, a, f), key), key)
  {
    var k := h.fetches[n].key;
    AppliedStamps(h, n, k, a, f);
    var s := Applied(h, n, k, a, f).0;
    assert Commit(h, n, a, f).withdrawSeq == s.withdrawSeq && Commit(h, n, a, f).deniedAt == s.deniedAt
           && Commit(h, n, a, f).ageWithdrawnAt == s.ageWithdrawnAt;
    hide Applied, Commit;
  }

  lemma EndStamps(h: Handle, n: nat, key: string)
    requires Stamped(h)
    ensures var t := Next(h, End(n)); Stamped(t) && StampsMoved(h, t, Withdraws(h, End(n), key), key)
  {
    if n in h.fetches { EndEffects(h, n); } else { EndNothing(h, n); }
    hide Next, WithoutKey;
  }

  lemma ConsentStamps(h: Handle, granted: bool, key: string)
    requires Stamped(h)
    ensures var t := Next(h, Consent(granted)); Stamped(t) && StampsMoved(h, t, Withdraws(h, Consent(granted), key), key)
  {
  }

  lemma SentinelStamps(h: Handle, key: string)
    requires Stamped(h)
    ensures var t := Next(h, Sentinel); Stamped(t) && StampsMoved(h, t, false, key)
  {
  }

  lemma CoreStamps(h: Handle, t: Handle, key: string)
    requires Stamped(h) && t.withdrawSeq == h.withdrawSeq && t.deniedAt == h.deniedAt && t.ageWithdrawnAt == h.ageWithdrawnAt
    ensures Stamped(t) && StampsMoved(h, t, false, key)
  {
  }

  lemma WithdrawalStamps(h: Handle, step: Step, key: string)
    requires Stamped(h)
    ensures var t := Next(h, step); Stamped(t) && StampsMoved(h, t, Withdraws(h, step, key), key)
  {
    hide Commit, WithdrawAge, Stamped, StampsMoved, BeginDeclaration, EndDeclaration, AppendOwed, ServedEntry;
    match step
    case Answered(n, a, f) =>
      if n in h.fetches && !h.fetches[n].answered { CommitStamps(h, n, a, f, key); } else { SameStamps(h, key); }
    case End(n) => EndStamps(h, n, key);
    case SealRefused(k) => if h.out.handing.None? { AgeStamps(h, k, true, key); } else { SameStamps(h, key); }
    case Begin(k, band) => BeginEffects(h, k, band); CoreStamps(h, Next(h, step), key);
    case Consent(granted) => ConsentStamps(h, granted, key);
    case Sentinel => SentinelStamps(h, key);
    case _ => RecordingCore(h, step); CoreStamps(h, Next(h, step), key);
  }

  lemma SameStamps(h: Handle, key: string)
    ensures StampsMoved(h, h, false, key)
  {
  }

  /** Some step of the run, from the given position on, withdraws the experiment's facts. */
  ghost predicate WithdrawnDuring(h: Handle, steps: seq<Step>, key: string) {
    exists i :: 0 <= i < |steps| && Withdraws(Run(h, steps[..i]), steps[i], key)
  }

  /**
   The send point withholds a fact exactly when its player denied, or its experiment was withdrawn
   for age, after the fact's stamp was read.
   */
  lemma {:induction false} WithheldExactlyAfterWithdrawal(h: Handle, steps: seq<Step>, f: Fact)
    requires Stamped(h) && f.stamp == h.withdrawSeq
    ensures var e := Run(h, steps);
            && Stamped(e) && e.withdrawSeq >= f.stamp
            && (FactWithdrawn(e, f) <==> WithdrawnDuring(h, steps, f.key))
  {
    if steps == [] {
    } else {
      var front, step := steps[..|steps| - 1], steps[|steps| - 1];
      WithheldExactlyAfterWithdrawal(h, front, f);
      var m := Run(h, front);
      hide Next, Withdraws, FactWithdrawn;
      WithdrawalStamps(m, step, f.key);
      assert forall i :: 0 <= i < |front| ==> steps[..i] == front[..i] && steps[i] == front[i];
      assert steps[..|front|] == front;
      StillWithheld(m, Next(m, step), f, Withdraws(m, step, f.key));
      WithdrawnLonger(h, steps, f.key);
    }
  }

  lemma StillWithheld(m: Handle, t: Handle, f: Fact, withdraws: bool)
    requires f.stamp <= m.withdrawSeq
    requires StampsMoved(m, t, withdraws, f.key)
    ensures FactWithdrawn(t, f) <==> FactWithdrawn(m, f) || withdraws
  {
  }

  lemma WithdrawnLonger(h: Handle, steps: seq<Step>, key: string)
    requires steps != []
    ensures var front := steps[..|steps| - 1];
            WithdrawnDuring(h, steps, key) <==>
              WithdrawnDuring(h, front, key) || Withdraws(Run(h, front), steps[|steps| - 1], key)
  {
    hide Run, Withdraws;
    var front := steps[..|steps| - 1];
    assert forall i :: 0 <= i < |front| ==> steps[..i] == front[..i] && steps[i] == front[i];
    if WithdrawnDuring(h, front, key) {
      var i :| 0 <= i < |front| && Withdraws(Run(h, front[..i]), front[i], key);
      assert Withdraws(Run(h, steps[..i]), steps[i], key);
    }
    if Withdraws(Run(h, front), steps[|steps| - 1], key) {
      assert Withdraws(Run(h, steps[..|front|]), steps[|front|], key);
    }
  }
}
