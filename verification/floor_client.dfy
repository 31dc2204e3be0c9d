/**
 The client that owns the floor, in place: a decision's fast half, its turn, the
 retries of owed work and the dispatch pass. Each section between two lock boundaries
 is one step of the step machine, and each whole procedure is the run of its sections.
 */
module FloorClient {
  import opened Basics
  import opened DecisionRecord
  import opened ConsentReceipts
  import opened ConsentOutbox
  import opened ConsentOutboxLaws
  import opened ConsentFloor

  /** What one post met: whether the server processed it, what came back, and the prune's write. */
  datatype Exchange = Exchange(processed: bool, outcome: Outcome, pruneOk: bool)

  /** An acknowledgement means processed, a terminal status that it was not. */
  predicate Consistent(x: Exchange) {
    (x.outcome == Ack ==> x.processed) && (x.outcome == Terminal ==> !x.processed)
  }

  /** A decision's stamp is the clock's reading, or one past the last stamp when the clock has not passed that. */
  predicate Stamped(last: Option<int>, clock: int, at: int) {
    if last.Some? && clock <= last.value then at == last.value + 1 else at == clock
  }

  lemma StampedAfter(last: Option<int>, clock: int)
    ensures Stamped(last, clock, StampAfter(last, clock))
  {
  }

  /** An answer that ends a receipt's delivery: it is pruned, and the next one may follow. */
  predicate Answered(x: Exchange) {
    x.outcome == Ack || x.outcome == Terminal
  }

  /** No hold of the pass stops `r`. */
  predicate Unheld(p: Proc, me: Identity, r: Receipt) {
    forall n :: 0 <= n < HoldCount(r) ==> !Held(p, me, r, n)
  }

  /** The next receipt of the scope exists and nothing holds it. */
  predicate Ready(p: Proc, me: Identity) {
    var next := NextUp(p.box.receipts, HoldsGrants(p.box), me);
    next.Some? && Unheld(p, me, next.value)
  }

  /** The receipt a pass would post now. */
  function Upcoming(p: Proc, me: Identity): Option<Receipt> {
    if Ready(p, me) then NextUp(p.box.receipts, HoldsGrants(p.box), me) else None
  }

  /** Where the pass itself stands is nothing its holds look at. */
  lemma HeldAside(p: Proc, pass: Pass, me: Identity)
    ensures forall r, n :: Held(p.(pass := pass), me, r, n) == Held(p, me, r, n)
    ensures forall r :: Unheld(p.(pass := pass), me, r) == Unheld(p, me, r)
    ensures Ready(p.(pass := pass), me) == Ready(p, me)
  {
    var q := p.(pass := pass);
    forall r, n ensures Held(q, me, r, n) == Held(p, me, r, n) { HeldIgnoresPass(p, pass, me, r, n); }
    hide Held, NextUp, HoldCount;
  }

  lemma HeldIgnoresPass(p: Proc, pass: Pass, me: Identity, r: Receipt, n: nat)
    ensures Held(p.(pass := pass), me, r, n) == Held(p, me, r, n)
  {
    var q := p.(pass := pass);
    assert forall e :: DenyProofHeld(q, me, e) == DenyProofHeld(p, me, e) by { hide Latest; }
    hide DenyProofHeld;
    assert forall e :: HeldBehind(q, me, r, e) == HeldBehind(p, me, r, e);
    assert forall e :: DenialBehind(q, me, r, e) == DenialBehind(p, me, r, e);
    hide HeldBehind, DenialBehind;
  }

  /** One exchange a posted receipt, and none follows an unanswered one. */
  predicate Answering(posted: seq<Receipt>, xs: seq<Exchange>) {
    |posted| <= |xs| && forall i :: 0 <= i < |posted| - 1 ==> Answered(xs[i])
  }

  /** The keys handed over are those of the posts that met any answer at all. */
  ghost predicate Handed(posted: seq<Receipt>, xs: seq<Exchange>, handed: set<string>)
    requires |posted| <= |xs|
  {
    forall k :: k in handed <==> exists i :: 0 <= i < |posted| && posted[i].key == k && xs[i].outcome != NoAnswer
  }

  /** The server knows every receipt an exchange processed, and nothing else is new to it. */
  ghost predicate Delivered(posted: seq<Receipt>, xs: seq<Exchange>, before: seq<Receipt>, after: seq<Receipt>)
    requires |posted| <= |xs|
  {
    && before <= after
    && (forall i :: 0 <= i < |posted| && xs[i].processed ==> HasKey(after, posted[i].key))
    && (forall e :: e in after ==> e in before || exists i :: 0 <= i < |posted| && posted[i] == e && xs[i].processed)
  }

  /** An answered receipt is out of the mirror; only a full memory of settled keys lets a later save bring it back. */
  predicate Pruned(posted: seq<Receipt>, xs: seq<Exchange>, box: Outbox)
    requires |posted| <= |xs|
  {
    forall i :: 0 <= i < |posted| && Answered(xs[i]) && posted[i].key != "" ==>
      && (i == |posted| - 1 || |box.settled| < SETTLED_MEMORY ==> !HasKey(box.receipts, posted[i].key))
      && (|box.settled| < SETTLED_MEMORY ==> posted[i].key in box.settled)
  }

  /** All of it, on a mirror without repeats when it had none. */
  ghost predicate Accounted(posted: seq<Receipt>, xs: seq<Exchange>, handed: set<string>, before: seq<Receipt>, after: seq<Receipt>,
                            tidy: bool, box: Outbox, first: Option<Receipt>) {
    && (posted != [] ==> first == Some(posted[0]))
    && Answering(posted, xs) && Handed(posted, xs, handed) && Delivered(posted, xs, before, after)
    && (tidy ==> DistinctKeys(box.receipts) && Pruned(posted, xs, box))
    && (posted != [] && !Answered(xs[|posted| - 1]) ==> posted[|posted| - 1] in box.receipts)
  }

  lemma AccountedParts(posted: seq<Receipt>, xs: seq<Exchange>, handed: set<string>, before: seq<Receipt>, after: seq<Receipt>,
                       tidy: bool, box: Outbox, first: Option<Receipt>)
    requires Accounted(posted, xs, handed, before, after, tidy, box, first)
    ensures posted != [] ==> first == Some(posted[0])
    ensures Answering(posted, xs) && |posted| <= |xs| && Handed(posted, xs, handed) && Delivered(posted, xs, before, after)
    ensures tidy ==> Pruned(posted, xs, box)
    ensures posted != [] && !Answered(xs[|posted| - 1]) ==> posted[|posted| - 1] in box.receipts
  {
  }

  lemma NothingPosted(xs: seq<Exchange>, server: seq<Receipt>, tidy: bool, box: Outbox, first: Option<Receipt>)
    requires tidy ==> DistinctKeys(box.receipts)
    ensures Accounted([], xs, {}, server, server, tidy, box, first)
  {
  }

  lemma AccountedOne(posted: seq<Receipt>, r: Receipt, xs: seq<Exchange>, handed: set<string>, before: seq<Receipt>,
                     known: seq<Receipt>, after: seq<Receipt>, tidy: bool, box: Outbox, left: Outbox, first: Option<Receipt>)
    requires |posted| < |xs| && Accounted(posted, xs, handed, before, known, tidy, box, first)
    requires posted == [] ==> first == Some(r)
    requires r in box.receipts && HasKey(box.receipts, r.key)
    requires posted != [] ==> Answered(xs[|posted| - 1])
    requires after == known + (if xs[|posted|].processed && !HasKey(known, r.key) then [r] else [])
    requires if Answered(xs[|posted|]) then DistinctKeys(box.receipts) ==> PruneDrops(box, left, r.key) else left == box
    ensures Accounted(posted + [r], xs, if xs[|posted|].outcome != NoAnswer then handed + {r.key} else handed, before, after, tidy, left, first)
  {
    HandedOne(posted, r, xs, handed);
    PostedOne(posted, r, xs, before, known, after);
    if tidy { PrunedOne(posted, r, xs, box, left); }
    assert (posted + [r])[|posted|] == r;
    hide Handed, Delivered, Pruned, DistinctKeys, HasKey, PruneDrops;
  }

  lemma PostedOne(posted: seq<Receipt>, r: Receipt, xs: seq<Exchange>, before: seq<Receipt>, known: seq<Receipt>, after: seq<Receipt>)
    requires |posted| < |xs| && Delivered(posted, xs, before, known)
    requires after == known + (if xs[|posted|].processed && !HasKey(known, r.key) then [r] else [])
    ensures Delivered(posted + [r], xs, before, after)
  {
    var now := posted + [r];
    assert now[..|posted|] == posted && now[|posted|] == r;
    HasKeyAfter(known, r);
    assert after == known || after == known + [r];
    forall i | 0 <= i < |now| && xs[i].processed ensures HasKey(after, now[i].key) {
      if i < |posted| { assert now[i] == posted[i]; }
    }
    forall e | e in after && e !in before ensures exists i :: 0 <= i < |now| && now[i] == e && xs[i].processed {
      if e in known {
        var i :| 0 <= i < |posted| && posted[i] == e && xs[i].processed;
        assert now[i] == e;
      } else { assert now[|posted|] == e; }
    }
    hide HasKey;
  }

  lemma PrunedOne(posted: seq<Receipt>, r: Receipt, xs: seq<Exchange>, box: Outbox, after: Outbox)
    requires |posted| < |xs| && DistinctKeys(box.receipts) && Pruned(posted, xs, box) && HasKey(box.receipts, r.key)
    requires if Answered(xs[|posted|]) then PruneDrops(box, after, r.key) else after == box
    ensures DistinctKeys(after.receipts) && Pruned(posted + [r], xs, after)
  {
    hide HasKey, DistinctKeys;
    var now := posted + [r];
    assert now[..|posted|] == posted && now[|posted|] == r;
  }

  lemma HandedOne(posted: seq<Receipt>, r: Receipt, xs: seq<Exchange>, handed: set<string>)
    requires |posted| < |xs| && Handed(posted, xs, handed)
    ensures Handed(posted + [r], xs, if xs[|posted|].outcome != NoAnswer then handed + {r.key} else handed)
  {
    var now, got := posted + [r], if xs[|posted|].outcome != NoAnswer then handed + {r.key} else handed;
    assert now[..|posted|] == posted && now[|posted|] == r;
    forall k ensures k in got <==> exists i :: 0 <= i < |now| && now[i].key == k && xs[i].outcome != NoAnswer {
      if k in handed {
        var i :| 0 <= i < |posted| && posted[i].key == k && xs[i].outcome != NoAnswer;
        assert now[i].key == k;
      } else if k in got { assert now[|posted|].key == k; }
    }
  }

  lemma {:induction false} NextUpListed(rs: seq<Receipt>, hold: bool, me: Identity)
    ensures var next := NextUp(rs, hold, me); next.Some? ==> next.value in rs && HasKey(rs, next.value.key)
  {
    if rs != [] && NextUp(rs, hold, me) != Some(rs[0]) {
      NextUpListed(rs[1..], hold, me);
    }
  }

  datatype Admission = Admitted | AlreadyDenied | RefusedMinor

  /** Reaching the end of a run one step at a time. */
  lemma RunThen(s: State, steps: seq<Step>, step: Step)
    ensures Run(s, steps + [step]) == Next(Run(s, steps), step)
  {
    assert (steps + [step])[..|steps|] == steps;
  }

  lemma {:induction false} RunConcat(s: State, a: seq<Step>, b: seq<Step>)
    ensures Run(s, a + b) == Run(Run(s, a), b)
  {
    hide Next;
    if b == [] { assert a + b == a; }
    else {
      RunConcat(s, a, b[..|b| - 1]);
      assert (a + b)[..|a + b| - 1] == a + b[..|b| - 1];
    }
  }

  lemma ConcludeParts(cfg: Config, disk: Disk)
    ensures var c, l := Conclude(cfg, disk), Load(disk.record, cfg.digest);
            var recordRead := if c.overridden then RecParsed else l.read;
            && c.grantsUnprovable == (ClassOf(disk.trail) == ReadUnusable || recordRead == RecUnusable
                                      || recordRead == RecForeign || c.info.unwitnessed)
            && c.markAt == if MaxAt(Listed(disk.trail)).Some? then MaxAt(Listed(disk.trail)) else c.info.decidedAt
  {
    hide Load, Latest, MaxAt, TailBlocked;
  }

  /** What a start leaves in the record, and in the outbox. */
  function SealedRecord(cfg: Config, disk: Disk, healOk: bool, markOk: bool): RecordFile {
    var c, heal := Conclude(cfg, disk), Latest(Listed(disk.trail), cfg.me);
    var mark := MarkRecord(c.info, cfg.digest, c.markAt);
    if c.grantsUnprovable && Marks(c) && markOk && mark.Some? then mark.value
    else if c.overridden && healOk then SaveRecord(DecisionOf(heal.value), cfg.digest, Some(heal.value.at), true)
    else disk.record
  }

  /** A grant goes live only when it is provable and the floor's own. */
  function LiveFrom(info: RecordInfo, known: bool, unprovable: bool): Live {
    if known && !(info.state == Granted && (unprovable || !info.floor)) then info.state else Unknown
  }

  predicate Marks(c: Conclusion) {
    c.known && c.info.state != Unknown && MarkSupersededBy(c.info, c.markAt)
  }

  function SealedBox(box: Outbox, unprovable: bool, marks: bool, markOk: bool, known: bool): Outbox {
    var b := box.(grantsUnprovable := unprovable);
    if unprovable && ((marks && !markOk) || !known) then b.(preserveUnusable := true) else b
  }

  function HealedBox(cfg: Config, disk: Disk, healOk: bool): Outbox {
    var owed := Conclude(cfg, disk).overridden && !healOk;
    LoadBox(disk.trail, cfg.me).(owed := if owed then UncoveredKeys(Listed(disk.trail), cfg.me, Load(disk.record, cfg.digest)) else {})
  }

  function OpenedBox(cfg: Config, disk: Disk, healOk: bool, markOk: bool): Outbox {
    var c := Conclude(cfg, disk);
    SealedBox(HealedBox(cfg, disk, healOk), c.grantsUnprovable, Marks(c), markOk, c.known)
  }

  /** A start, in terms of what it concludes. */
  lemma BootParts(cfg: Config, disk: Disk, healOk: bool, markOk: bool)
    ensures var rs, l, c := Listed(disk.trail), Load(disk.record, cfg.digest), Conclude(cfg, disk);
            var heal := Latest(rs, cfg.me);
            Boot(cfg, disk, healOk, markOk) ==
              (Disk(disk.trail, SealedRecord(cfg, disk, healOk, markOk)),
               Proc(Resolve(cfg, disk), 0, OpenedBox(cfg, disk, healOk, markOk), MaxStamp(l.info.decidedAt, MaxAt(rs)),
                    if c.overridden && !healOk then Some(Owed(DecisionOf(heal.value), heal.value.at)) else None,
                    None, [], Idle, Resting, Resolve(cfg, disk), [], {}))
  {
    hide Load, Latest, MaxAt, MarkRecord, UncoveredKeys, Conclude;
  }

  /** The newest receipt of the scope decides against the record as loaded. */
  predicate Overrides(cfg: Config, disk: Disk) {
    var l, tail := Load(disk.record, cfg.digest), Latest(Listed(disk.trail), cfg.me);
    && tail.Some? && l.info.state != DeniedForcedMinor && !TailBlocked(ClassOf(disk.trail), l, tail.value)
    && (!l.ok || Supersedes(Some(tail.value.at), l.info.decidedAt))
  }

  /** What a start must not believe of a grant: a trail or record it cannot read, another actor's record, or a mark. */
  predicate Withholds(cfg: Config, disk: Disk) {
    || ClassOf(disk.trail) == ReadUnusable
    || (!Overrides(cfg, disk) && GrantVetoed(Load(disk.record, cfg.digest)))
  }

  /**
   A start, for all files. A receipt that overrides the record is written into it, or owed and marked when
   that write fails; a start that withholds grants goes live with none and dispatches none, and without an
   overriding receipt whatever decision it keeps stands marked, in the file or as evidence it preserves;
   any other start writes nothing more and goes live as the receipt, or as the floor's own record, says.
   */
  lemma StartExactly(cfg: Config, disk: Disk, healOk: bool, markOk: bool)
    requires cfg.digest != ""
    ensures var (d, p) := Boot(cfg, disk, healOk, markOk);
            var l, tail, over := Load(disk.record, cfg.digest), Latest(Listed(disk.trail), cfg.me), Overrides(cfg, disk);
            && d.trail == disk.trail && p.box.receipts == Listed(disk.trail)
            && p.recordOwed == (if over && !healOk then Some(Owed(DecisionOf(tail.value), tail.value.at)) else None)
            && (if over && !healOk then tail.value.key in p.box.owed else p.box.owed == {})
            && (Withholds(cfg, disk) ==> p.live != Granted && HoldsGrants(p.box))
            && (Withholds(cfg, disk) && !markOk && !over && l.ok && l.info.state != Unknown && !l.info.unwitnessed ==>
                  p.box.preserveUnusable)
            && (Withholds(cfg, disk) && markOk && !over && l.ok && l.info.state != Unknown ==>
                  Load(d.record, cfg.digest).info.unwitnessed && Load(d.record, cfg.digest).info.state == l.info.state)
            && (!Withholds(cfg, disk) ==>
                  && d.record == (if over && healOk then SaveRecord(DecisionOf(tail.value), cfg.digest, Some(tail.value.at), true)
                                  else disk.record)
                  && p.live == (if over then LiveOf(DecisionOf(tail.value))
                                else if l.ok && (l.info.state == Granted ==> l.info.floor) then l.info.state else Unknown)
                  && !p.box.preserveUnusable)
  {
    BootParts(cfg, disk, healOk, markOk);
    ConcludeParts(cfg, disk);
    ConcludesOverride(cfg, disk);
    LatestUncovered(cfg, disk);
    LoadedStamped(disk.record, cfg.digest);
    var c := Conclude(cfg, disk);
    if c.info.state != Unknown { MarkedLoads(c.info, cfg.digest, c.markAt); }
    hide Boot, Load, Latest, MaxAt, MarkRecord, UncoveredKeys, Conclude, TailBlocked, Overrides;
  }

  lemma ConcludesOverride(cfg: Config, disk: Disk)
    ensures var c, l, tail := Conclude(cfg, disk), Load(disk.record, cfg.digest), Latest(Listed(disk.trail), cfg.me);
            && c.overridden == Overrides(cfg, disk)
            && c.known == (l.ok || c.overridden)
            && c.info == (if c.overridden then RecordInfo(LiveOf(DecisionOf(tail.value)), Some(tail.value.at), true, false, None) else l.info)
  {
    hide Load, Latest, MaxAt, TailBlocked;
  }

  /** The overriding receipt is among those the record does not cover. */
  lemma LatestUncovered(cfg: Config, disk: Disk)
    ensures var tail := Latest(Listed(disk.trail), cfg.me);
            Overrides(cfg, disk) ==> tail.value.key in UncoveredKeys(Listed(disk.trail), cfg.me, Load(disk.record, cfg.digest))
  {
    LatestIn(Listed(disk.trail), cfg.me);
    hide Load, Latest, TailBlocked;
  }

  lemma {:induction false} LatestIn(rs: seq<Receipt>, me: Identity)
    ensures Latest(rs, me).Some? ==> exists i :: 0 <= i < |rs| && rs[i] == Latest(rs, me).value && InScope(rs[i], me)
  {
    if rs != [] && !InScope(rs[|rs| - 1], me) { LatestIn(rs[..|rs| - 1], me); }
  }

  /** A marked record loads as marked, with its decision. */
  lemma MarkedLoads(info: RecordInfo, digest: string, markAt: Option<int>)
    requires digest != "" && info.state != Unknown
    ensures var file := MarkRecord(info, digest, markAt);
            file.Some? && Load(file.value, digest).info.unwitnessed
    ensures (info.state == Granted && info.floor ==> info.decidedAt.Some?) ==>
              Load(MarkRecord(info, digest, markAt).value, digest).info.state == info.state
  {
  }

  lemma LoadedStamped(file: RecordFile, digest: string)
    ensures var l := Load(file, digest); l.ok && l.info.state == Granted && l.info.floor ==> l.info.decidedAt.Some?
  {
  }

  // The sections of the machine by their names.

  lemma RawDecide(s: State, d: Decision)
    requires s.proc.Some?
    ensures NextRaw(s, Decide(d)) == s.(proc := Some(FastHalf(s.proc.value, d)))
  {
  }

  lemma RawBegin(s: State, clock: int, purgeOk: bool)
    requires s.proc.Some?
    ensures NextRaw(s, Begin(clock, purgeOk)) == s.(proc := Some(BeginTurn(s.proc.value, clock, purgeOk)))
  {
    hide BeginTurn;
  }

  lemma RawMint(s: State, key: Option<string>, bytes: nat)
    requires s.proc.Some?
    ensures NextRaw(s, Mint(key, bytes)) == MintStep(s, s.proc.value, key, bytes)
  {
    hide MintStep;
  }

  lemma RawAppend(s: State, ok: bool)
    requires s.proc.Some?
    ensures NextRaw(s, AppendReceipt(ok)) == AppendStep(s, s.proc.value, ok)
  {
    hide AppendStep;
  }

  lemma RawRecord(s: State, ok: bool)
    requires s.proc.Some?
    ensures NextRaw(s, WriteRecord(ok)) == RecordStep(s, s.proc.value, ok)
    ensures NextRaw(s, TakeOwedRecord(ok)) == TakeRecordStep(s, s.proc.value, ok)
  {
    hide RecordStep, TakeRecordStep;
  }

  lemma RawTakeMint(s: State, key: Option<string>, bytes: nat)
    requires s.proc.Some?
    ensures NextRaw(s, TakeOwedMint(key, bytes)) == TakeMintStep(s, s.proc.value, key, bytes)
  {
    hide TakeMintStep;
  }

  lemma RawPersist(s: State, ok: bool)
    requires s.proc.Some?
    ensures var saved := RetryPersist(s.proc.value.box, s.disk.trail, ok);
            NextRaw(s, PersistAgain(ok)) ==
              s.(disk := s.disk.(trail := saved.file), proc := Some(s.proc.value.(box := saved.box)))
  {
    hide RetryPersist;
  }

  lemma RawPass(s: State)
    requires s.proc.Some?
    ensures NextRaw(s, Pick) == s.(proc := Some(PickStep(s.cfg, s.proc.value)))
    ensures NextRaw(s, Check) == s.(proc := Some(CheckStep(s.cfg, s.proc.value)))
  {
    hide PickStep, CheckStep;
  }

  lemma RawSend(s: State, processed: bool)
    requires s.proc.Some?
    ensures NextRaw(s, Send(processed)) == SendStep(s, s.proc.value, processed)
  {
    hide SendStep;
  }

  lemma RawAnswer(s: State, outcome: Outcome)
    requires s.proc.Some?
    ensures NextRaw(s, Answer(outcome)) == s.(proc := Some(AnswerStep(s.proc.value, outcome)))
  {
    hide AnswerStep;
  }

  lemma RawPrune(s: State, ok: bool)
    requires s.proc.Some? && s.proc.value.pass.Settling?
    ensures var saved := Prune(s.proc.value.box, s.disk.trail, s.proc.value.pass.r.key, ok);
            NextRaw(s, PruneReceipt(ok)) ==
              s.(disk := s.disk.(trail := saved.file),
                 proc := Some(s.proc.value.(box := saved.box, pass := Resting,
                                            answered := s.proc.value.answered + {s.proc.value.pass.r.key})))
  {
    hide Prune;
  }

  lemma RawSettle(s: State)
    requires s.proc.Some?
    ensures NextRaw(s, SettleSlot) == s.(proc := Some(SlotStep(s.proc.value)))
    ensures NextRaw(s, MarkOwed) == s.(proc := Some(MarkStep(s.proc.value)))
  {
    hide SlotStep, MarkStep;
  }

  lemma RunNothing(s: State)
    ensures Run(s, []) == s
  {
  }

  /** Adds one step to a run that has led this far. */
  lemma Then(s: State, steps: seq<Step>, step: Step) returns (longer: seq<Step>)
    ensures longer == steps + [step] && Run(s, longer) == Next(Run(s, steps), step)
  {
    hide Next;
    longer := steps + [step];
    RunThen(s, steps, step);
  }

  class Client {
    const cfg: Config
    const outbox: ConsentOutbox
    var consent: Live
    var consentEpoch: nat
    var lastStamp: Option<int>
    var recordOwed: Option<Owed>
    var mintOwed: Option<Owed>
    var tickets: seq<Ticket>
    /** consent.json. */
    var record: RecordFile
    // where the lock holder and the pass stand, and the observers
    ghost var slow: Slow
    ghost var pass: Pass
    ghost var started: Live
    ghost var accepted: seq<Decision>
    ghost var answered: set<string>
    ghost var server: seq<Receipt>
    ghost var used: set<string>
    ghost var denials: set<int>
    ghost var grants: set<int>

    ghost predicate Valid()
      reads this, outbox
    {
      outbox.Valid()
    }

    ghost function Process(): Proc
      reads this, outbox
    {
      Proc(consent, consentEpoch, outbox.State(), lastStamp, recordOwed, mintOwed, tickets, slow, pass, started, accepted, answered)
    }

    ghost function Now(): State
      reads this, outbox
    {
      State(cfg, Disk(outbox.file, record), Some(Process()), server, used, denials, grants)
    }

    /** The observers look at the files once a section ends. */
    ghost method Look(s: State)
      requires Now().(denials := s.denials, grants := s.grants) == s
      modifies this`denials, this`grants
      ensures Now() == Observe(s)
    {
      denials, grants := Observe(s).denials, Observe(s).grants;
    }

    // -------------------------------------------------------------- starting

    constructor (cfg: Config, file: TrailFile, record: RecordFile, healOk: bool, markOk: bool)
      ensures Valid() && this.cfg == cfg && fresh(outbox)
      ensures (Disk(outbox.file, this.record), Process()) == Boot(cfg, Disk(file, record), healOk, markOk)
    {
      this.cfg := cfg;
      this.record := record;
      outbox := new ConsentOutbox(true, file);
      consent, consentEpoch, lastStamp, recordOwed, mintOwed, tickets := Unknown, 0, None, None, None, [];
      slow, pass, accepted, answered := Idle, Resting, [], {};
      new;
      StartUp(healOk, markOk);
    }

    /** initConsentFloor, on the files as they are found. */
    method StartUp(healOk: bool, markOk: bool)
      requires Valid() && outbox.State() == Empty(true)
      requires Process() == Proc(Unknown, 0, Empty(true), None, None, None, [], Idle, Resting, started, [], {})
      modifies this`lastStamp, this`record, this`recordOwed, this`consent, this`started, outbox
      ensures Valid()
      ensures (Disk(outbox.file, record), Process()) == Boot(cfg, old(Disk(outbox.file, record)), healOk, markOk)
    {
      hide Boot, SealedRecord, OpenedBox, Resolve, Load, MaxAt, Latest, Conclude, MaxStamp;
      ghost var disk := Disk(outbox.file, record);
      outbox.LoadTrail(cfg.me);
      SeedStamp();
      Init(healOk, markOk);
      BootParts(cfg, disk, healOk, markOk);
    }

    /** seedConsentStamp: new decisions are newer than everything the files carry. */
    method SeedStamp()
      requires lastStamp.None?
      modifies this`lastStamp
      ensures lastStamp == MaxStamp(Load(record, cfg.digest).info.decidedAt, MaxAt(outbox.receipts))
    {
      hide Load, MaxAt;
      var max := outbox.MaxDecidedAt();
      lastStamp := MaxStamp(Load(record, cfg.digest).info.decidedAt, max);
    }

    method Init(healOk: bool, markOk: bool)
      requires Valid() && outbox.State() == LoadBox(outbox.file, cfg.me)
      requires outbox.receipts == Listed(outbox.file) && outbox.lastRead == ClassOf(outbox.file) && !outbox.preserveUnusable
      requires consent == Unknown && recordOwed.None?
      modifies this`record, this`recordOwed, this`consent, this`started, outbox
      ensures Valid() && outbox.file == old(outbox.file)
      ensures var disk, c := old(Disk(outbox.file, record)), Conclude(cfg, old(Disk(outbox.file, record)));
              var heal := Latest(Listed(disk.trail), cfg.me);
              && record == SealedRecord(cfg, disk, healOk, markOk)
              && outbox.State() == OpenedBox(cfg, disk, healOk, markOk)
              && recordOwed == (if c.overridden && !healOk then Some(Owed(DecisionOf(heal.value), heal.value.at)) else None)
              && consent == started == Resolve(cfg, disk)
    {
      hide Load, Latest, MaxAt, TailBlocked, MarkRecord, Supersedes, MarkSupersededBy, Conclude, MaxStamp, LoadBox, SealedBox, HealedBox;
      ghost var disk := Disk(outbox.file, record);
      var loaded := Load(record, cfg.digest);
      var max := outbox.MaxDecidedAt();
      var info, known, recordRead := ConcludeFromTail(loaded, healOk);
      var unprovable :=
        outbox.lastRead == ReadUnusable || recordRead == RecUnusable || recordRead == RecForeign || info.unwitnessed;
      ConcludeParts(cfg, disk);
      SealWithheld(unprovable, info, known, if max.Some? then max else info.decidedAt, markOk);
      consent := LiveFrom(info, known, unprovable);
      started := consent;
    }

    /** What a start with unprovable grants leaves on disk: the mark, or the evidence it could not mark. */
    method SealWithheld(unprovable: bool, info: RecordInfo, known: bool, markAt: Option<int>, markOk: bool)
      requires Valid()
      modifies this`record, outbox`preserveUnusable, outbox`grantsUnprovable
      ensures Valid()
      ensures var marks := known && info.state != Unknown && MarkSupersededBy(info, markAt);
              var mark := MarkRecord(info, cfg.digest, markAt);
              && record == (if unprovable && marks && markOk && mark.Some? then mark.value else old(record))
              && outbox.State() == SealedBox(old(outbox.State()), unprovable, marks, markOk, known)
    {
      outbox.SetGrantsUnprovable(unprovable);
      if unprovable {
        if known && info.state != Unknown && MarkSupersededBy(info, markAt) {
          var mark := MarkRecord(info, cfg.digest, markAt);
          if !markOk { outbox.PreserveEvidence(); }
          else if mark.Some? { record := mark.value; }
        } else if !known {
          outbox.PreserveEvidence();
        }
      }
    }

    /** The newest receipt of the scope overrides an older record, which is healed or owed. */
    method ConcludeFromTail(loaded: Loaded, healOk: bool)
      returns (info: RecordInfo, known: bool, recordRead: RecordRead)
      requires Valid() && outbox.State() == LoadBox(outbox.file, cfg.me) && loaded == Load(record, cfg.digest)
      requires recordOwed.None?
      modifies this`record, this`recordOwed, outbox`recordOwedKeys
      ensures Valid()
      ensures var disk, c := old(Disk(outbox.file, record)), Conclude(cfg, old(Disk(outbox.file, record)));
              && info == c.info && known == c.known && recordRead == (if c.overridden then RecParsed else loaded.read)
              && var tail := Latest(Listed(disk.trail), cfg.me);
              && record == (if c.overridden && healOk
                            then SaveRecord(DecisionOf(tail.value), cfg.digest, Some(tail.value.at), true) else disk.record)
              && recordOwed == (if c.overridden && !healOk then Some(Owed(DecisionOf(tail.value), tail.value.at)) else None)
              && outbox.State() == HealedBox(cfg, disk, healOk)
    {
      hide Load, MaxAt;
      info, known, recordRead := loaded.info, loaded.ok, loaded.read;
      var tail := outbox.LatestMatching(cfg.me);
      if tail.Some? && info.state != DeniedForcedMinor && !TailBlocked(outbox.lastRead, loaded, tail.value)
         && (!known || Supersedes(Some(tail.value.at), info.decidedAt))
      {
        var decision := DecisionOf(tail.value);
        info := RecordInfo(LiveOf(decision), Some(tail.value.at), true, false, None);
        known, recordRead := true, RecParsed;
        if healOk {
          record := SaveRecord(decision, cfg.digest, Some(tail.value.at), true);
        } else {
          recordOwed := Some(Owed(decision, tail.value.at));
          outbox.MarkRecordOwedWhere(r =>
            InScope(r, cfg.me) && (!loaded.ok || Supersedes(Some(r.at), loaded.info.decidedAt)));
        }
      }
    }

    // -------------------------------------------------------------- the fast half

    method Admit(decision: Decision) returns (a: Admission)
      requires Valid()
      modifies this`tickets, this`consent, this`consentEpoch, this`denials, this`grants
      ensures Valid() && Now() == Next(old(Now()), Decide(decision))
      ensures a == Admitted <==> old(consent) != DeniedForcedMinor || decision == ForcedMinor
      ensures a == RefusedMinor <==> a != Admitted && decision == Grant
      ensures tickets == old(tickets) + (if a == Admitted then [Ticket(decision, old(consentEpoch))] else [])
      ensures a == Admitted && decision != Grant ==> consent == LiveOf(decision) && consentEpoch == old(consentEpoch) + 1
      ensures a != Admitted || decision == Grant ==> consent == old(consent) && consentEpoch == old(consentEpoch)
    {
      hide Observe, NextRaw;
      if consent == DeniedForcedMinor && decision != ForcedMinor {
        a := if decision == Grant then RefusedMinor else AlreadyDenied;
      } else {
        a := Admitted;
        tickets := tickets + [Ticket(decision, consentEpoch)];
        if decision != Grant {
          consent := LiveOf(decision);
          consentEpoch := consentEpoch + 1;
        }
      }
      RawDecide(old(Now()), decision);
      Look(NextRaw(old(Now()), Decide(decision)));
    }

    // -------------------------------------------------------------- the sections of a turn

    method TakeTurn(clock: int, purgeOk: bool) returns (at: int)
      requires Valid() && slow == Idle && tickets != []
      modifies this`consent, this`lastStamp, this`slow, this`accepted, this`denials, this`grants
      ensures Valid() && Now() == Next(old(Now()), Begin(clock, purgeOk))
      ensures if tickets[0].decision == Grant && !purgeOk then lastStamp == old(lastStamp)
              else lastStamp == Some(at) && Stamped(old(lastStamp), clock, at)
      ensures consent == if tickets[0].decision == Grant && purgeOk && tickets[0].epoch == consentEpoch then Granted else old(consent)
      ensures slow == if tickets[0].decision != Grant then DenyStamped(tickets[0].decision, at)
                      else if purgeOk then GrantStamped(at) else Served
    {
      hide Observe, NextRaw, MaxStamp, LiveOf, StampAfter, Stamped;
      var t := tickets[0];
      at := 0;
      if t.decision == Grant && !purgeOk {
        slow := Served;
      } else {
        if t.decision == Grant && consentEpoch == t.epoch { consent := Granted; }
        at := StampAfter(lastStamp, clock);
        StampedAfter(lastStamp, clock);
        lastStamp := Some(at);
        accepted := accepted + [t.decision];
        slow := if t.decision == Grant then GrantStamped(at) else DenyStamped(t.decision, at);
      }
      assert outbox.State() == old(outbox.State());
      assert Process() == BeginTurn(old(Process()), clock, purgeOk);
      hide BeginTurn;
      RawBegin(old(Now()), clock, purgeOk);
      Look(NextRaw(old(Now()), Begin(clock, purgeOk)));
    }

    /** mintConsentReceipt and the owed mint: the newest decision replaces an older one's. */
    method MintReceipt(decision: Decision, at: int, key: Option<string>, bytes: nat) returns (r: Option<Receipt>)
      requires Valid() && (key.Some? ==> key.value != "" && key.value !in used)
      requires if decision == Grant then slow == GrantStamped(at) else slow.DenySettled? && slow == DenySettled(decision, at, slow.written)
      modifies this`mintOwed, this`used, this`slow, this`denials, this`grants
      ensures Valid() && Now() == Next(old(Now()), Mint(key, bytes))
      ensures mintOwed == if key.None? then Some(Owed(decision, at)) else None
      ensures r.Some? <==> key.Some?
      ensures r.Some? ==> r.value == ConsentFloor.MintReceipt(cfg, key.value, decision, at, bytes)
      ensures slow == if old(slow).GrantStamped? then (if r.Some? then GrantMinted(r.value) else GrantUnminted(at))
                      else if r.Some? then DenyMinted(r.value, old(slow).written) else Served
    {
      hide Observe, NextRaw;
      if key.None? {
        mintOwed := Some(Owed(decision, at));
        r := None;
        slow := if slow.GrantStamped? then GrantUnminted(at) else Served;
      } else {
        mintOwed := None;
        var minted := ConsentFloor.MintReceipt(cfg, key.value, decision, at, bytes);
        r := Some(minted);
        used := used + {key.value};
        slow := if slow.GrantStamped? then GrantMinted(minted) else DenyMinted(minted, slow.written);
      }
      RawMint(old(Now()), key, bytes);
      Look(NextRaw(old(Now()), Mint(key, bytes)));
    }

    /** The minted receipt joins the trail. */
    method AppendMinted(r: Receipt, writeOk: bool) returns (failed: bool)
      requires Valid() && outbox.durable
      requires slow == GrantMinted(r) || (slow.DenyMinted? && slow.r == r) || slow == RetryMinted(r)
      modifies this`slow, this`denials, this`grants, outbox
      ensures Valid() && Now() == Next(old(Now()), AppendReceipt(writeOk))
      ensures failed == outbox.dirty && outbox.recordOwedKeys <= old(outbox.recordOwedKeys)
      ensures Joined(old(outbox.State()), old(outbox.file), r, writeOk, outbox.receipts, outbox.dirty, outbox.file)
      ensures slow == match old(slow)
                      case GrantMinted(_) => GrantAppended(r, !failed)
                      case DenyMinted(_, written) => DenyAppended(r, written)
                      case _ => RetryAppended(r)
    {
      hide Observe, NextRaw, Append, FailedDurably, Joined;
      AppendJoins(outbox.State(), outbox.file, r, writeOk);
      failed := outbox.AppendReceipt(r, Listed(outbox.file), outbox.file.UnusableTrail?, writeOk);
      slow := match slow
        case GrantMinted(_) => GrantAppended(r, !failed)
        case DenyMinted(_, written) => DenyAppended(r, written)
        case _ => RetryAppended(r);
      RawAppend(old(Now()), writeOk);
      Look(NextRaw(old(Now()), AppendReceipt(writeOk)));
    }

    /** applyRecord: the decision record is replaced, or the old one stays. */
    method ApplyRecord(decision: Decision, at: int, writeOk: bool)
      requires Valid()
      requires if decision == Grant then slow.GrantAppended? && slow.stored && slow.r.at == at
               else slow == DenyStamped(decision, at)
      modifies this`record, this`slow, this`denials, this`grants
      ensures Valid() && Now() == Next(old(Now()), WriteRecord(writeOk))
      ensures record == if writeOk then SaveRecord(decision, cfg.digest, Some(at), true) else old(record)
      ensures slow == if decision == Grant then GrantRecorded(old(slow).r, writeOk) else DenyRecorded(decision, at, writeOk)
    {
      hide Observe, NextRaw;
      if writeOk { record := SaveRecord(decision, cfg.digest, Some(at), true); }
      slow := if decision == Grant then GrantRecorded(slow.r, writeOk) else DenyRecorded(decision, at, writeOk);
      RawRecord(old(Now()), writeOk);
      Look(NextRaw(old(Now()), WriteRecord(writeOk)));
    }

    /** setConsentRecordOwed: a landed record settles every pair, a failed one fills the slot. */
    method SetRecordOwed(o: Owed, persisted: bool)
      requires Valid()
      requires match slow
               case GrantUnminted(at) => o == Owed(Grant, at) && !persisted
               case GrantAppended(r, stored) => o == Owed(Grant, r.at) && !persisted && !stored
               case GrantRecorded(r, written) => o == Owed(Grant, r.at) && persisted == written
               case DenyRecorded(d, at, written) => o == Owed(d, at) && persisted == written
               case RetryRecorded(q, written) => o == q && persisted == written
               case _ => false
      modifies this`recordOwed, this`slow, this`denials, this`grants, outbox`recordOwedKeys
      ensures Valid() && Now() == Next(old(Now()), SettleSlot)
      ensures slow == match old(slow)
                      case GrantUnminted(_) => Served
                      case GrantAppended(r, _) => GrantSettled(r)
                      case GrantRecorded(r, written) => if written then Served else GrantSettled(r)
                      case DenyRecorded(d, at, written) => DenySettled(d, at, written)
                      case _ => Idle
      ensures outbox.State() == old(outbox.State()).(owed := outbox.recordOwedKeys)
      ensures recordOwed == if persisted then None else Some(o)
      ensures outbox.recordOwedKeys == if persisted then {} else old(outbox.recordOwedKeys)
    {
      hide Observe, NextRaw;
      if persisted {
        recordOwed := None;
        outbox.ClearRecordOwedMarks();
      } else {
        recordOwed := Some(o);
      }
      slow := match slow
        case GrantUnminted(_) => Served
        case GrantAppended(r, _) => GrantSettled(r)
        case GrantRecorded(r, written) => if written then Served else GrantSettled(r)
        case DenyRecorded(d, at, written) => DenySettled(d, at, written)
        case _ => Idle;
      RawSettle(old(Now()));
      Look(NextRaw(old(Now()), SettleSlot));
    }

    /** markRecordOwed: the receipt is held until a record lands. */
    method MarkPair(r: Receipt, owed: bool)
      requires Valid()
      requires match slow
               case GrantSettled(q) => q == r && owed
               case DenyAppended(q, written) => q == r && owed == !written
               case RetryAppended(q) => q == r && owed == (recordOwed.Some? && recordOwed.value.at == r.at)
               case _ => false
      modifies this`slow, this`denials, this`grants, outbox`recordOwedKeys
      ensures Valid() && Now() == Next(old(Now()), MarkOwed)
      ensures outbox.recordOwedKeys == old(outbox.recordOwedKeys) + (if owed && r.key != "" then {r.key} else {})
      ensures slow == if old(slow).RetryAppended? then Idle else Served
    {
      hide Observe, NextRaw;
      if owed { outbox.MarkRecordOwed(r.key); }
      slow := if slow.RetryAppended? then Idle else Served;
      RawSettle(old(Now()));
      Look(NextRaw(old(Now()), MarkOwed));
    }

    /** The turn passes to the next ticket. */
    method FinishTurn()
      requires Valid() && slow == Served && tickets != []
      modifies this`tickets, this`slow, this`denials, this`grants
      ensures Valid() && Now() == Next(old(Now()), Finish)
      ensures slow == Idle && tickets == old(tickets[1..])
    {
      hide Observe;
      tickets := tickets[1..];
      slow := Idle;
      Look(NextRaw(old(Now()), Finish));
    }

    // -------------------------------------------------------------- whole turns

    /**
     A grant's slow half: receipt first, its record only over a trail that is safe. Nothing happens
     before a failed purge; without a key both halves are owed; a receipt that did not reach the disk
     keeps the old record, and a record that did not land is owed and holds its receipt.
     */
    method ServeGrant(clock: int, purgeOk: bool, key: Option<string>, bytes: nat, appendOk: bool, recordOk: bool)
      returns (ghost at: int, ghost steps: seq<Step>)
      requires Valid() && outbox.durable && slow == Idle && tickets != [] && tickets[0].decision == Grant
      requires key.Some? ==> key.value != "" && key.value !in used
      modifies this, outbox
      ensures Valid() && Now() == Run(old(Now()), steps)
      ensures steps != [] && steps[0] == Begin(clock, purgeOk)
      ensures slow == Idle && tickets == old(tickets[1..])
      ensures consent == if purgeOk && old(tickets[0].epoch == consentEpoch) then Granted else old(consent)
      ensures if purgeOk then lastStamp == Some(at) && Stamped(old(lastStamp), clock, at) else lastStamp == old(lastStamp)
      ensures !purgeOk ==> mintOwed == old(mintOwed)
      ensures purgeOk ==> mintOwed == if key.None? then Some(Owed(Grant, at)) else None
      ensures !purgeOk || key.None? ==>
                record == old(record) && outbox.State() == old(outbox.State()) && outbox.file == old(outbox.file)
      ensures recordOwed == if !purgeOk then old(recordOwed)
                            else if key.Some? && !outbox.dirty && recordOk then None else Some(Owed(Grant, at))
      ensures purgeOk && key.Some? ==>
                var r := ConsentFloor.MintReceipt(cfg, key.value, Grant, at, bytes);
                && Joined(old(outbox.State()), old(outbox.file), r, appendOk, outbox.receipts, outbox.dirty, outbox.file)
                && record == (if outbox.dirty || !recordOk then old(record) else SaveRecord(Grant, cfg.digest, Some(at), true))
                && if outbox.dirty || !recordOk then key.value in outbox.recordOwedKeys else outbox.recordOwedKeys == {}
    {
      hide Next, Run, Joined, SaveRecord, Stamped, Now, Process, ConsentFloor.MintReceipt;
      ghost var s := Now();
      var stamp := TakeTurn(clock, purgeOk);
      at := stamp;
      steps := Then(s, [], Begin(clock, purgeOk));
      RunNothing(s);
      if purgeOk {
        ghost var more := FollowStamp(stamp, key, bytes, appendOk, recordOk);
        RunConcat(s, steps, more);
        steps := steps + more;
      }
      FinishTurn();
      steps := Then(s, steps, Finish);
    }

    /** The receipt of a grant that has its stamp, and the pair it belongs to. */
    method FollowStamp(at: int, key: Option<string>, bytes: nat, appendOk: bool, recordOk: bool) returns (ghost steps: seq<Step>)
      requires Valid() && outbox.durable && slow == GrantStamped(at)
      requires key.Some? ==> key.value != "" && key.value !in used
      modifies this`mintOwed, this`used, this`record, this`recordOwed, this`slow, this`denials, this`grants, outbox
      ensures Valid() && Now() == Run(old(Now()), steps)
      ensures slow == Served
      ensures mintOwed == if key.None? then Some(Owed(Grant, at)) else None
      ensures key.None? ==>
                record == old(record) && outbox.State() == old(outbox.State()) && outbox.file == old(outbox.file)
      ensures recordOwed == if key.Some? && !outbox.dirty && recordOk then None else Some(Owed(Grant, at))
      ensures key.Some? ==>
                var r := ConsentFloor.MintReceipt(cfg, key.value, Grant, at, bytes);
                && Joined(old(outbox.State()), old(outbox.file), r, appendOk, outbox.receipts, outbox.dirty, outbox.file)
                && record == (if outbox.dirty || !recordOk then old(record) else SaveRecord(Grant, cfg.digest, Some(at), true))
                && if outbox.dirty || !recordOk then key.value in outbox.recordOwedKeys else outbox.recordOwedKeys == {}
    {
      hide Next, Run, Joined, SaveRecord, Now, Process;
      ghost var s := Now();
      var r := MintReceipt(Grant, at, key, bytes);
      steps := Then(s, [], Mint(key, bytes));
      RunNothing(s);
      if r.None? {
        SetRecordOwed(Owed(Grant, at), false);
        steps := Then(s, steps, SettleSlot);
      } else {
        ghost var more := CompletePair(r.value, appendOk, recordOk);
        RunConcat(s, steps, more);
        steps := steps + more;
      }
    }

    /** The minted grant: appended, recorded when that was durable, owed and marked otherwise. */
    method CompletePair(r: Receipt, appendOk: bool, recordOk: bool) returns (ghost steps: seq<Step>)
      requires Valid() && outbox.durable && slow == GrantMinted(r)
      modifies this`record, this`recordOwed, this`slow, this`denials, this`grants, outbox
      ensures Valid() && Now() == Run(old(Now()), steps)
      ensures slow == Served
      ensures Joined(old(outbox.State()), old(outbox.file), r, appendOk, outbox.receipts, outbox.dirty, outbox.file)
      ensures var paired := !outbox.dirty && recordOk;
              && record == (if paired then SaveRecord(Grant, cfg.digest, Some(r.at), true) else old(record))
              && recordOwed == (if paired then None else Some(Owed(Grant, r.at)))
              && if paired then outbox.recordOwedKeys == {} else r.key != "" ==> r.key in outbox.recordOwedKeys
    {
      hide Next, Append, Run, Joined, SaveRecord, Now, Process;
      ghost var s := Now();
      var failed := AppendMinted(r, appendOk);
      steps := Then(s, [], AppendReceipt(appendOk));
      RunNothing(s);
      if !failed {
        ApplyRecord(Grant, r.at, recordOk);
        steps := Then(s, steps, WriteRecord(recordOk));
      }
      SetRecordOwed(Owed(Grant, r.at), !failed && recordOk);
      steps := Then(s, steps, SettleSlot);
      if failed || !recordOk {
        MarkPair(r, true);
        steps := Then(s, steps, MarkOwed);
      }
    }

    /**
     A denial's slow half: record first, then the receipt, marked while the record is owed. Each of its
     three outcomes decides its own half alone.
     */
    method ServeDenial(clock: int, key: Option<string>, bytes: nat, appendOk: bool, recordOk: bool)
      returns (ghost at: int, ghost steps: seq<Step>)
      requires Valid() && outbox.durable && slow == Idle && tickets != [] && tickets[0].decision != Grant
      requires key.Some? ==> key.value != "" && key.value !in used
      modifies this, outbox
      ensures Valid() && Now() == Run(old(Now()), steps)
      ensures steps != [] && steps[0] == Begin(clock, true)
      ensures slow == Idle && tickets == old(tickets[1..]) && consent == old(consent)
      ensures lastStamp == Some(at) && Stamped(old(lastStamp), clock, at)
      ensures record == if recordOk then SaveRecord(old(tickets[0]).decision, cfg.digest, Some(at), true) else old(record)
      ensures recordOwed == if recordOk then None else Some(Owed(old(tickets[0]).decision, at))
      ensures mintOwed == if key.None? then Some(Owed(old(tickets[0]).decision, at)) else None
      ensures key.None? ==> outbox.file == old(outbox.file) && outbox.receipts == old(outbox.receipts) && outbox.dirty == old(outbox.dirty)
      ensures key.Some? ==>
                Joined(old(outbox.State()), old(outbox.file),
                       ConsentFloor.MintReceipt(cfg, key.value, old(tickets[0]).decision, at, bytes), appendOk,
                       outbox.receipts, outbox.dirty, outbox.file)
      ensures if recordOk then outbox.recordOwedKeys == {} else key.Some? ==> key.value in outbox.recordOwedKeys
    {
      hide Next, Run, Joined, SaveRecord, Stamped, Now, Process, ConsentFloor.MintReceipt;
      ghost var s := Now();
      var decision := tickets[0].decision;
      var stamp := TakeTurn(clock, true);
      at := stamp;
      steps := Then(s, [], Begin(clock, true));
      RunNothing(s);
      ghost var more := CompleteDenial(decision, stamp, key, bytes, appendOk, recordOk);
      RunConcat(s, steps, more);
      steps := Then(s, steps + more, Finish);
      FinishTurn();
    }

    /** Record and receipt of a denial that has its stamp. */
    method CompleteDenial(decision: Decision, at: int, key: Option<string>, bytes: nat, appendOk: bool, recordOk: bool)
      returns (ghost steps: seq<Step>)
      requires Valid() && outbox.durable && decision != Grant && slow == DenyStamped(decision, at)
      requires key.Some? ==> key.value != "" && key.value !in used
      modifies this`mintOwed, this`used, this`record, this`recordOwed, this`slow, this`denials, this`grants, outbox
      ensures Valid() && Now() == Run(old(Now()), steps)
      ensures slow == Served
      ensures record == if recordOk then SaveRecord(decision, cfg.digest, Some(at), true) else old(record)
      ensures recordOwed == if recordOk then None else Some(Owed(decision, at))
      ensures mintOwed == if key.None? then Some(Owed(decision, at)) else None
      ensures key.None? ==> outbox.file == old(outbox.file) && outbox.receipts == old(outbox.receipts) && outbox.dirty == old(outbox.dirty)
      ensures key.Some? ==>
                Joined(old(outbox.State()), old(outbox.file), ConsentFloor.MintReceipt(cfg, key.value, decision, at, bytes),
                       appendOk, outbox.receipts, outbox.dirty, outbox.file)
      ensures if recordOk then outbox.recordOwedKeys == {} else key.Some? ==> key.value in outbox.recordOwedKeys
    {
      hide Next, Run, Joined, SaveRecord, Now, Process, ConsentFloor.MintReceipt;
      ghost var s, box := Now(), outbox.State();
      RunNothing(s);
      steps := RecordDenial(decision, at, recordOk);
      ghost var recorded := outbox.State();
      ghost var more := FollowRecord(decision, at, key, bytes, appendOk, recordOk);
      RunConcat(s, steps, more);
      steps := steps + more;
      if key.Some? {
        JoinedUnmarked(box, recorded, old(outbox.file), ConsentFloor.MintReceipt(cfg, key.value, decision, at, bytes),
                       appendOk, outbox.receipts, outbox.dirty, outbox.file);
      }
    }

    /** The record of a denial, before its receipt. */
    method RecordDenial(decision: Decision, at: int, recordOk: bool) returns (ghost steps: seq<Step>)
      requires Valid() && decision != Grant && slow == DenyStamped(decision, at)
      modifies this`record, this`recordOwed, this`slow, this`denials, this`grants, outbox`recordOwedKeys
      ensures Valid() && Now() == Run(old(Now()), steps)
      ensures slow == DenySettled(decision, at, recordOk)
      ensures record == if recordOk then SaveRecord(decision, cfg.digest, Some(at), true) else old(record)
      ensures recordOwed == if recordOk then None else Some(Owed(decision, at))
      ensures outbox.recordOwedKeys == if recordOk then {} else old(outbox.recordOwedKeys)
      ensures outbox.State() == old(outbox.State()).(owed := outbox.recordOwedKeys)
    {
      hide Next, Run, SaveRecord, Now, Process;
      ghost var s := Now();
      RunNothing(s);
      ApplyRecord(decision, at, recordOk);
      steps := Then(s, [], WriteRecord(recordOk));
      SetRecordOwed(Owed(decision, at), recordOk);
      steps := Then(s, steps, SettleSlot);
    }

    /** The receipt of a denial whose record has been written or owed. */
    method FollowRecord(decision: Decision, at: int, key: Option<string>, bytes: nat, appendOk: bool, recordOk: bool)
      returns (ghost steps: seq<Step>)
      requires Valid() && outbox.durable && decision != Grant && slow == DenySettled(decision, at, recordOk)
      requires key.Some? ==> key.value != "" && key.value !in used
      modifies this`mintOwed, this`used, this`slow, this`denials, this`grants, outbox
      ensures Valid() && Now() == Run(old(Now()), steps)
      ensures slow == Served
      ensures mintOwed == if key.None? then Some(Owed(decision, at)) else None
      ensures key.None? ==> outbox.State() == old(outbox.State()) && outbox.file == old(outbox.file)
      ensures key.Some? ==>
                && Joined(old(outbox.State()), old(outbox.file), ConsentFloor.MintReceipt(cfg, key.value, decision, at, bytes),
                          appendOk, outbox.receipts, outbox.dirty, outbox.file)
                && if recordOk then outbox.recordOwedKeys <= old(outbox.recordOwedKeys) else key.value in outbox.recordOwedKeys
    {
      hide Next, Append, Run, Joined, Now, Process;
      ghost var s := Now();
      var r := MintReceipt(decision, at, key, bytes);
      steps := Then(s, [], Mint(key, bytes));
      RunNothing(s);
      if r.Some? {
        var failed := AppendMinted(r.value, appendOk);
        steps := Then(s, steps, AppendReceipt(appendOk));
        MarkPair(r.value, !recordOk);
        steps := Then(s, steps, MarkOwed);
      }
    }

    // -------------------------------------------------------------- owed work

    /** retryOwedConsentMint; `lockFree` is what trying the record-apply lock answers. */
    method RetryOwedMint(lockFree: bool, key: Option<string>, bytes: nat, appendOk: bool) returns (ghost steps: seq<Step>)
      requires Valid() && outbox.durable && lockFree == (slow == Idle)
      requires key.Some? ==> key.value != "" && key.value !in used
      modifies this`mintOwed, this`used, this`slow, this`denials, this`grants, outbox
      ensures Valid() && Now() == Run(old(Now()), steps)
      ensures lockFree ==> slow == Idle
      ensures var mints := lockFree && old(mintOwed).Some? && key.Some?;
              if !mints then Now() == old(Now())
              else
                var o := old(mintOwed).value;
                && mintOwed.None?
                && Joined(old(outbox.State()), old(outbox.file), ConsentFloor.MintReceipt(cfg, key.value, o.decision, o.at, bytes),
                          appendOk, outbox.receipts, outbox.dirty, outbox.file)
                && (recordOwed.Some? && recordOwed.value.at == o.at ==> key.value in outbox.recordOwedKeys)
    {
      hide Next, Append, Run, Joined, Now, Process;
      ghost var s := Now();
      steps := [];
      RunNothing(s);
      if mintOwed.None? || key.None? || !lockFree { return; }
      var r := TakeMint(key.value, bytes);
      steps := Then(s, steps, TakeOwedMint(key, bytes));
      var failed := AppendMinted(r, appendOk);
      steps := Then(s, steps, AppendReceipt(appendOk));
      MarkPair(r, recordOwed.Some? && recordOwed.value.at == r.at);
      steps := Then(s, steps, MarkOwed);
    }

    method TakeMint(key: string, bytes: nat) returns (r: Receipt)
      requires Valid() && slow == Idle && mintOwed.Some? && key != "" && key !in used
      modifies this`mintOwed, this`used, this`slow, this`denials, this`grants
      ensures Valid() && Now() == Next(old(Now()), TakeOwedMint(Some(key), bytes))
      ensures slow == RetryMinted(r) && mintOwed.None?
      ensures r == ConsentFloor.MintReceipt(cfg, key, old(mintOwed).value.decision, old(mintOwed).value.at, bytes)
    {
      hide Observe, NextRaw;
      r := ConsentFloor.MintReceipt(cfg, key, mintOwed.value.decision, mintOwed.value.at, bytes);
      mintOwed := None;
      used := used + {key};
      slow := RetryMinted(r);
      RawTakeMint(old(Now()), Some(key), bytes);
      Look(NextRaw(old(Now()), TakeOwedMint(Some(key), bytes)));
    }

    /** retryOwedConsentRecord: a grant's record waits for its receipt to be durable. */
    method RetryOwedRecord(lockFree: bool, writeOk: bool) returns (ghost steps: seq<Step>)
      requires Valid() && lockFree == (slow == Idle)
      modifies this`record, this`recordOwed, this`slow, this`denials, this`grants, outbox`recordOwedKeys
      ensures Valid() && Now() == Run(old(Now()), steps)
      ensures lockFree ==> slow == Idle
      ensures var o, m := old(recordOwed), old(mintOwed);
              var waits := o.Some? && o.value.decision == Grant && (outbox.dirty || (m.Some? && m.value.at == o.value.at));
              if !lockFree || o.None? || waits then Now() == old(Now())
              else if writeOk then
                && record == SaveRecord(o.value.decision, cfg.digest, Some(o.value.at), true)
                && recordOwed.None? && outbox.recordOwedKeys == {}
              else record == old(record) && recordOwed == o && outbox.recordOwedKeys == old(outbox.recordOwedKeys)
    {
      hide Next, Run, SaveRecord;
      ghost var s := Now();
      steps := [];
      RunNothing(s);
      if recordOwed.None? || !lockFree { return; }
      var o := recordOwed.value;
      if o.decision == Grant {
        if outbox.dirty { return; }
        if mintOwed.Some? && mintOwed.value.at == o.at { return; }
      }
      TakeRecord(o, writeOk);
      steps := Then(s, steps, TakeOwedRecord(writeOk));
      SetRecordOwed(o, writeOk);
      steps := Then(s, steps, SettleSlot);
    }

    method TakeRecord(o: Owed, writeOk: bool)
      requires Valid() && slow == Idle && recordOwed == Some(o)
      requires o.decision == Grant ==> !outbox.dirty && !(mintOwed.Some? && mintOwed.value.at == o.at)
      modifies this`record, this`slow, this`denials, this`grants
      ensures Valid() && Now() == Next(old(Now()), TakeOwedRecord(writeOk))
      ensures slow == RetryRecorded(o, writeOk)
      ensures record == if writeOk then SaveRecord(o.decision, cfg.digest, Some(o.at), true) else old(record)
    {
      hide Observe, NextRaw;
      if writeOk { record := SaveRecord(o.decision, cfg.digest, Some(o.at), true); }
      slow := RetryRecorded(o, writeOk);
      RawRecord(old(Now()), writeOk);
      Look(NextRaw(old(Now()), TakeOwedRecord(writeOk)));
    }

    /** retryPersist. */
    method RetryOwedWrite(writeOk: bool)
      requires Valid() && outbox.durable
      modifies this`denials, this`grants, outbox
      ensures Valid() && Now() == Next(old(Now()), PersistAgain(writeOk))
      ensures !old(outbox.dirty) ==> outbox.State() == old(outbox.State()) && outbox.file == old(outbox.file)
      ensures Resaved(old(outbox.State()), old(outbox.file), writeOk, outbox.receipts, outbox.dirty, outbox.file)
    {
      hide Observe, NextRaw, Save, Resaved;
      SaveAgain(outbox.State(), outbox.file, writeOk);
      var attempted, failed := outbox.RetrySave(Listed(outbox.file), outbox.file.UnusableTrail?, writeOk);
      RawPersist(old(Now()), writeOk);
      Look(NextRaw(old(Now()), PersistAgain(writeOk)));
    }

    // -------------------------------------------------------------- the dispatch pass

    /** consentDenyProofHeld. */
    method ProofHeld(r: Receipt) returns (held: bool)
      requires Valid()
      ensures held == DenyProofHeld(Process(), cfg.me, r)
    {
      if recordOwed.None? || recordOwed.value.decision == Grant { return false; }
      var proof := outbox.LatestMatching(cfg.me);
      return proof.Some? && proof.value.key == r.key;
    }

    /** newerInScopeDenialHeld. */
    method NewerHeld(r: Receipt) returns (held: bool)
      requires Valid()
      ensures held == NewerDenialHeld(Process(), cfg.me, r)
    {
      var rs := outbox.receipts;
      var seen := false;
      for i := 0 to |rs|
        invariant seen <==> exists k :: 0 <= k < i && rs[k].key == r.key
        invariant forall k, j :: 0 <= k < j < i && rs[k].key == r.key ==> !HeldBehind(Process(), cfg.me, r, rs[j])
      {
        if rs[i].key == r.key {
          seen := true;
        } else if seen && !rs[i].granted && InScope(rs[i], cfg.me) {
          var proof := ProofHeld(rs[i]);
          if rs[i].key in outbox.recordOwedKeys || proof {
            assert HeldBehind(Process(), cfg.me, r, rs[i]);
            return true;
          }
        }
      }
      return false;
    }

    /** newerInScopeDenialInTrail. */
    method NewerInTrail(r: Receipt) returns (found: bool)
      requires Valid()
      ensures found == NewerDenialInTrail(Process(), cfg.me, r)
    {
      var rs := outbox.receipts;
      var seen := false;
      for i := 0 to |rs|
        invariant seen <==> exists k :: 0 <= k < i && rs[k].key == r.key
        invariant forall k, j :: 0 <= k < j < i && rs[k].key == r.key ==> !DenialBehind(Process(), cfg.me, r, rs[j])
      {
        if rs[i].key == r.key {
          seen := true;
        } else if seen && !rs[i].granted && InScope(rs[i], cfg.me) {
          assert DenialBehind(Process(), cfg.me, r, rs[i]);
          return true;
        }
      }
      return false;
    }

    /** consentGrantPairIncomplete, with the arming count read off the admitted tickets. */
    method GrantPairIncomplete() returns (incomplete: bool)
      requires Valid()
      ensures incomplete == PairIncomplete(Process())
    {
      if outbox.dirty { return true; }
      for i := 0 to |tickets|
        invariant forall k :: 0 <= k < i ==> tickets[k].decision != Grant
      {
        if tickets[i].decision == Grant { return true; }
      }
      return recordOwed.Some? && recordOwed.value.decision == Grant;
    }

    /** One hold of the pass. */
    method IsHeld(r: Receipt, n: nat, lockFree: bool) returns (held: bool)
      requires Valid() && lockFree == (slow == Idle)
      ensures held == Held(Process(), cfg.me, r, n)
    {
      hide NewerDenialHeld, NewerDenialInTrail, DenyProofHeld, PairIncomplete;
      if n == 0 { return r.key in outbox.recordOwedKeys; }
      if n == 1 { return r.granted && mintOwed.Some? && mintOwed.value.decision != Grant; }
      if n == 2 {
        if !r.granted { return false; }
        held := NewerHeld(r);
      } else if n == 3 {
        held := ProofHeld(r);
      } else if n == 4 {
        held := GrantPairIncomplete();
      } else {
        if !lockFree { return true; }
        if mintOwed.Some? && mintOwed.value.decision != Grant { return true; }
        held := NewerHeld(r);
        if !held && (consent == Denied || consent == DeniedForcedMinor) {
          var behind := NewerInTrail(r);
          held := !behind;
        }
      }
    }

    /** The holds in their order; the first that holds ends the pass. */
    method Judge(r: Receipt, lockFree: bool) returns (cleared: bool, ghost steps: seq<Step>)
      requires Valid() && lockFree == (slow == Idle) && pass == Checking(r, 0)
      modifies this`pass, this`denials, this`grants
      ensures Valid() && Now() == Run(old(Now()), steps) && slow == old(slow)
      ensures pass == if cleared then Cleared(r) else Resting
      ensures cleared <==> old(Unheld(Process(), cfg.me, r))
    {
      hide Next, Run, Held, Now, Process;
      ghost var s, p := Now(), Process().(pass := Resting);
      steps, cleared := [], false;
      RunNothing(s);
      HeldAside(Process(), Resting, cfg.me);
      var n, count := 0, if r.granted then 6 else 4;
      assert count == HoldCount(r) > 0;
      hide HoldCount;
      while !cleared
        invariant Valid() && Now() == Run(s, steps) && slow == old(slow)
        invariant n <= count && cleared == (n == count)
        invariant pass == if cleared then Cleared(r) else Checking(r, n)
        invariant Process().(pass := Resting) == p
        invariant forall k :: 0 <= k < n ==> !Held(p, cfg.me, r, k)
        decreases count - n
      {
        var held := JudgeOne(r, n, lockFree);
        steps := Then(s, steps, Check);
        if held { return; }
        n := n + 1;
        cleared := n == count;
      }
    }

    method JudgeOne(r: Receipt, n: nat, lockFree: bool) returns (held: bool)
      requires Valid() && lockFree == (slow == Idle) && pass == Checking(r, n)
      modifies this`pass, this`denials, this`grants
      ensures Valid() && Now() == Next(old(Now()), Check)
      ensures pass == if held then Resting else if n + 1 < HoldCount(r) then Checking(r, n + 1) else Cleared(r)
      ensures held == old(Held(Process().(pass := Resting), cfg.me, r, n))
      ensures Process().(pass := Resting) == old(Process().(pass := Resting))
    {
      hide Observe, NextRaw, Held;
      HeldAside(Process(), Resting, cfg.me);
      held := IsHeld(r, n, lockFree);
      pass := if held then Resting else if n + 1 < HoldCount(r) then Checking(r, n + 1) else Cleared(r);
      RawPass(old(Now()));
      Look(NextRaw(old(Now()), Check));
    }

    /** nextDispatchable, for the pass. */
    method PickUp() returns (next: Option<Receipt>)
      requires Valid() && pass == Resting
      modifies this`pass, this`denials, this`grants
      ensures Valid() && Now() == Next(old(Now()), Pick)
      ensures pass == if next.Some? then Checking(next.value, 0) else Resting
      ensures next == NextUp(outbox.receipts, HoldsGrants(outbox.State()), cfg.me)
    {
      hide Observe, NextRaw, NextUp;
      next := outbox.NextDispatchable(cfg.me);
      if next.Some? { pass := Checking(next.value, 0); }
      RawPass(old(Now()));
      Look(NextRaw(old(Now()), Pick));
    }

    /** The request and its answer: the server takes a key once, and only an answer settles the receipt. */
    method Post(r: Receipt, x: Exchange)
      requires Valid() && pass == Cleared(r) && Consistent(x)
      modifies this`pass, this`server, this`denials, this`grants
      ensures Valid() && Now() == Next(Next(old(Now()), Send(x.processed)), Answer(x.outcome))
      ensures pass == if Answered(x) then Settling(r) else Resting
      ensures server == old(server) + (if x.processed && !HasKey(old(server), r.key) then [r] else [])
    {
      hide Observe, NextRaw, HasKey;
      if x.processed && !HasKey(server, r.key) { server := server + [r]; }
      pass := InFlight(r, x.processed);
      RawSend(old(Now()), x.processed);
      Look(NextRaw(old(Now()), Send(x.processed)));
      label Sent:
      pass := if x.outcome == Ack || x.outcome == Terminal then Settling(r) else Resting;
      RawAnswer(old@Sent(Now()), x.outcome);
      Look(NextRaw(old@Sent(Now()), Answer(x.outcome)));
    }

    method PruneSettled(r: Receipt, writeOk: bool)
      requires Valid() && outbox.durable && pass == Settling(r)
      modifies this`pass, this`answered, this`denials, this`grants, outbox
      ensures Valid() && Now() == Next(old(Now()), PruneReceipt(writeOk)) && pass == Resting
      ensures DistinctKeys(old(outbox.receipts)) ==> PruneDrops(old(outbox.State()), outbox.State(), r.key)
    {
      hide Observe, NextRaw, Prune, PruneDrops;
      if DistinctKeys(outbox.receipts) { PruneRemoves(outbox.State(), outbox.file, r.key, writeOk); }
      var failed := outbox.PruneReceipt(r.key, Listed(outbox.file), outbox.file.UnusableTrail?, writeOk);
      pass, answered := Resting, answered + {r.key};
      RawPrune(old(Now()), writeOk);
      Look(NextRaw(old(Now()), PruneReceipt(writeOk)));
    }

    /** The post of a cleared receipt, its answer, and the prune of an answered one. */
    method Deliver(r: Receipt, x: Exchange) returns (settled: bool, ghost steps: seq<Step>)
      requires Valid() && outbox.durable && pass == Cleared(r) && Consistent(x)
      modifies this`pass, this`server, this`answered, this`denials, this`grants, outbox
      ensures Valid() && Now() == Run(old(Now()), steps) && pass == Resting
      ensures settled == Answered(x)
      ensures server == old(server) + (if x.processed && !HasKey(old(server), r.key) then [r] else [])
      ensures if settled then DistinctKeys(old(outbox.receipts)) ==> PruneDrops(old(outbox.State()), outbox.State(), r.key)
              else outbox.State() == old(outbox.State()) && outbox.file == old(outbox.file)
    {
      hide Next, Run, PruneDrops, HasKey, DistinctKeys;
      ghost var s := Now();
      RunNothing(s);
      Post(r, x);
      steps := Then(s, [], Send(x.processed));
      steps := Then(s, steps, Answer(x.outcome));
      settled := x.outcome == Ack || x.outcome == Terminal;
      if settled {
        PruneSettled(r, x.pruneOk);
        steps := Then(s, steps, PruneReceipt(x.pruneOk));
      }
    }

    /** One turn of the pass: the next receipt is picked, judged and posted, or the pass ends. */
    method DispatchNext(lockFree: bool, x: Exchange) returns (posted: Option<Receipt>, settled: bool, ghost steps: seq<Step>)
      requires Valid() && outbox.durable && lockFree == (slow == Idle) && pass == Resting && Consistent(x)
      modifies this`pass, this`server, this`answered, this`denials, this`grants, outbox
      ensures Valid() && Now() == Run(old(Now()), steps)
      ensures pass == Resting && slow == old(slow)
      ensures posted == old(Upcoming(Process(), cfg.me)) && (posted.Some? <==> old(Ready(Process(), cfg.me)))
      ensures posted.Some? ==> posted.value in old(outbox.State()).receipts && HasKey(old(outbox.State()).receipts, posted.value.key)
      ensures posted.None? ==> Process() == old(Process()) && outbox.State() == old(outbox.State()) && server == old(server)
      ensures settled == (posted.Some? && Answered(x))
      ensures posted.Some? ==>
                server == old(server) + (if x.processed && !HasKey(old(server), posted.value.key) then [posted.value] else [])
      ensures posted.Some? ==>
                if settled then DistinctKeys(old(outbox.receipts)) ==> PruneDrops(old(outbox.State()), outbox.State(), posted.value.key)
                else outbox.State() == old(outbox.State())
    {
      hide Next, Run, HoldsGrants, HoldCount, NextUp, Consistent, Unheld, Held, DistinctKeys, HasKey, PruneDrops, Answered;
      ghost var s, p := Now(), Process();
      NextUpListed(outbox.receipts, HoldsGrants(outbox.State()), cfg.me);
      settled := false;
      posted := PickUp();
      steps := Then(s, [], Pick);
      RunNothing(s);
      HeldAside(p, pass, cfg.me);
      if posted.None? { return; }
      var r := posted.value;
      var cleared, checks := Judge(r, lockFree);
      RunConcat(s, steps, checks);
      steps := steps + checks;
      if !cleared { return None, false, steps; }
      ghost var exchange;
      settled, exchange := Deliver(r, x);
      RunConcat(s, steps, exchange);
      steps := steps + exchange;
    }

    /**
     One serial dispatch pass, over the exchanges the environment grants it: an answered receipt is
     pruned and chains the next, a hold or an unanswered receipt ends the pass. `posted` are the
     receipts it put on the wire, one an exchange.
     */
    method DispatchPass(lockFree: bool, exchanges: seq<Exchange>)
      returns (handed: set<string>, ghost posted: seq<Receipt>, ghost steps: seq<Step>)
      requires Valid() && outbox.durable && lockFree == (slow == Idle) && pass == Resting
      requires forall i :: 0 <= i < |exchanges| ==> Consistent(exchanges[i])
      modifies this`pass, this`server, this`answered, this`denials, this`grants, outbox
      ensures Valid() && Now() == Run(old(Now()), steps)
      ensures pass == Resting && slow == old(slow)
      // why it starts and why it stops
      ensures posted == [] <==> exchanges == [] || old(Upcoming(Process(), cfg.me)).None?
      ensures posted != [] ==> old(Upcoming(Process(), cfg.me)) == Some(posted[0])
      ensures Answering(posted, exchanges)
      ensures |posted| == |exchanges| || (posted != [] && !Answered(exchanges[|posted| - 1])) || Upcoming(Process(), cfg.me).None?
      // what it did to each receipt it posted
      ensures Handed(posted, exchanges, handed)
      ensures Delivered(posted, exchanges, old(server), server)
      ensures old(DistinctKeys(outbox.receipts)) ==> Pruned(posted, exchanges, outbox.State())
      ensures posted != [] && !Answered(exchanges[|posted| - 1]) ==> posted[|posted| - 1] in outbox.receipts
    {
      hide Next, Run, Upcoming, Ready, Consistent, DistinctKeys, HasKey, PruneDrops, Delivered, Pruned, Handed, Answered, Answering, Accounted;
      ghost var s, tidy, first := Now(), DistinctKeys(outbox.receipts), Upcoming(Process(), cfg.me);
      handed, posted, steps := {}, [], [];
      RunNothing(s);
      NothingPosted(exchanges, server, tidy, outbox.State(), first);
      for i := 0 to |exchanges|
        invariant Valid() && Now() == Run(s, steps) && pass == Resting && slow == old(slow)
        invariant |posted| == i && (i > 0 ==> Answered(exchanges[i - 1])) && (i == 0 ==> Process() == old(Process()))
        invariant Accounted(posted, exchanges, handed, old(server), server, tidy, outbox.State(), first)
      {
        ghost var box, known := outbox.State(), server;
        var next, settled, more := DispatchNext(lockFree, exchanges[i]);
        RunConcat(s, steps, more);
        steps := steps + more;
        if next.None? { break; }
        AccountedOne(posted, next.value, exchanges, handed, old(server), known, server, tidy, box, outbox.State(), first);
        posted := posted + [next.value];
        if exchanges[i].outcome != NoAnswer { handed := handed + {next.value.key}; }
        if !settled { break; }
      }
      AccountedParts(posted, exchanges, handed, old(server), server, tidy, outbox.State(), first);
    }
  }
}
