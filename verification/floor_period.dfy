/**
 How long a withheld grant stays withheld: until a fresh decision stands on disk. A decision whose
 writes fail lifts the holds in memory, and the mirror's newest receipt then keeps the old grants back.
 */
module FloorPeriod {
  import opened Basics
  import opened DecisionRecord
  import opened ConsentReceipts
  import opened ConsentOutbox
  import opened ConsentOutboxLaws
  import opened ConsentFloor
  import opened FloorShape
  import opened FloorEvidence
  import opened FloorMarks
  import opened FloorWithheld
  import Limits = FloorLimits

  /** A receipt the files did not list before is listed, or the record was rewritten otherwise than by a mark. */
  ghost predicate Fresh(cfg: Config, before: Disk, disk: Disk) {
    || Lists(Listed(before.trail), disk.trail)
    || (disk.record != before.record && !Load(disk.record, cfg.digest).info.unwitnessed)
  }

  // ---------------------------------------------------------------- the lock holder while nothing has landed

  /** No write of the decision in hand has landed. */
  predicate Unlanded(slow: Slow) {
    match slow
    case GrantMinted(r) => r.granted
    case GrantAppended(r, stored) => r.granted && !stored
    case GrantSettled(r) => r.granted
    case GrantRecorded(_, _) => false
    case DenyStamped(d, _) => d != Grant
    case DenyRecorded(d, _, written) => d != Grant && !written
    case DenySettled(d, _, written) => d != Grant && !written
    case DenyMinted(r, written) => !r.granted && !written
    case DenyAppended(r, written) => !r.granted && !written
    case RetryRecorded(_, written) => !written
    case _ => true
  }

  predicate SlotOf(p: Proc, r: Receipt) {
    p.recordOwed.Some? && p.recordOwed.value.at == r.at && (p.recordOwed.value.decision == Grant <==> r.granted)
  }

  /** Slot, owed mint and the decision in hand agree. */
  predicate SlotFits(p: Proc) {
    match p.slow
    case GrantUnminted(at) => p.mintOwed == Some(Owed(Grant, at))
    case GrantMinted(_) => p.mintOwed.None?
    case GrantAppended(_, _) => p.mintOwed.None?
    case GrantSettled(_) => p.mintOwed.None?
    case DenySettled(d, at, _) => p.recordOwed == Some(Owed(d, at))
    case DenyMinted(r, _) => p.mintOwed.None? && SlotOf(p, r)
    case DenyAppended(r, _) => p.mintOwed.None? && SlotOf(p, r)
    case RetryMinted(r) => p.mintOwed.None? && SlotOf(p, r)
    case RetryAppended(r) => p.mintOwed.None? && SlotOf(p, r)
    case RetryRecorded(o, _) => p.recordOwed == Some(o) && (p.mintOwed.Some? ==> p.recordOwed == p.mintOwed)
    case _ => p.mintOwed.Some? ==> p.recordOwed == p.mintOwed
  }

  /** Where every grant gets its key, what is owed a receipt is a denial. */
  predicate DenialsOwed(p: Proc) {
    && !IsGrant(p.mintOwed) && !p.slow.GrantUnminted?
    && (p.slow.RetryMinted? || p.slow.RetryAppended? ==> !p.slow.r.granted)
  }

  /** What the process decides is newer than the record it found. */
  predicate Newer(record: RecordFile, p: Proc) {
    RecordAt(record).Some? ==>
      && AtMost(RecordAt(record).value, p.lastStamp)
      && (StampOf(p.slow).Some? ==> StampOf(p.slow).value > RecordAt(record).value)
      && (p.recordOwed.Some? ==> p.recordOwed.value.at > RecordAt(record).value)
      && (p.mintOwed.Some? ==> p.mintOwed.value.at > RecordAt(record).value)
  }

  predicate Ledger(record: RecordFile, p: Proc, mints: bool) {
    Unlanded(p.slow) && SlotFits(p) && (mints ==> DenialsOwed(p)) && Newer(record, p)
  }

  lemma LedgerFast(record: RecordFile, p: Proc, d: Decision, mints: bool)
    requires Ledger(record, p, mints)
    ensures Ledger(record, FastHalf(p, d), mints)
  {
  }

  lemma LedgerBegin(record: RecordFile, p: Proc, clock: int, purgeOk: bool, mints: bool)
    requires Ledger(record, p, mints)
    ensures Ledger(record, BeginTurn(p, clock, purgeOk), mints)
  {
  }

  lemma LedgerSlot(record: RecordFile, p: Proc, mints: bool)
    requires Ledger(record, p, mints)
    ensures Ledger(record, SlotStep(p), mints)
    ensures SlotStep(p).box == p.box
  {
  }

  lemma LedgerMark(record: RecordFile, p: Proc, mints: bool)
    requires Ledger(record, p, mints)
    ensures Ledger(record, MarkStep(p), mints)
    ensures WindowOf(p.slow).Some? && !p.slow.GrantAppended? && WindowOf(p.slow).value.key != "" ==>
              WindowOf(p.slow).value.key in MarkStep(p).box.owed
  {
  }

  lemma LedgerMint(s: State, p: Proc, key: Option<string>, bytes: nat, mints: bool)
    requires s.proc == Some(p) && Ledger(s.disk.record, p, mints)
    requires mints ==> MintsGrant(s, Mint(key, bytes))
    ensures var t := MintStep(s, p, key, bytes); t.proc.Some? && Ledger(s.disk.record, t.proc.value, mints)
    ensures var t := TakeMintStep(s, p, key, bytes); t.proc.Some? && Ledger(s.disk.record, t.proc.value, mints)
  {
  }

  lemma LedgerPass(s: State, p: Proc, processed: bool, outcome: Outcome, mints: bool)
    requires s.proc == Some(p) && Ledger(s.disk.record, p, mints)
    ensures Ledger(s.disk.record, PickStep(s.cfg, p), mints) && Ledger(s.disk.record, CheckStep(s.cfg, p), mints)
    ensures Ledger(s.disk.record, AnswerStep(p, outcome), mints)
    ensures Ledger(s.disk.record, SendStep(s, p, processed).proc.value, mints)
  {
    hide NextUp, Held, SlotFits, Unlanded, Newer, DenialsOwed;
    forall pass ensures Ledger(s.disk.record, p.(pass := pass), mints) { LedgerPassed(s.disk.record, p, pass, mints); }
  }

  lemma LedgerPassed(record: RecordFile, p: Proc, pass: Pass, mints: bool)
    requires Ledger(record, p, mints)
    ensures Ledger(record, p.(pass := pass), mints)
  {
  }

  // ---------------------------------------------------------------- keys

  /** Keys in use are used up, and the receipt to be appended has its own. */
  ghost predicate Named(used: set<string>, base: seq<Receipt>, me: Identity, p: Proc) {
    && (forall e :: e in base || e in p.box.receipts ==> e.key in used)
    && (PassReceipt(p.pass).Some? ==> PassReceipt(p.pass).value.key in used)
    && (MintedIn(p.slow).Some? ==>
          var r := MintedIn(p.slow).value;
          && InScope(r, me) && r.key != "" && r.key in used
          && (forall e :: e in base || e in p.box.receipts ==> e.key != r.key)
          && (PassReceipt(p.pass).Some? ==> PassReceipt(p.pass).value.key != r.key))
  }

  lemma NamedMint(s: State, base: seq<Receipt>, p: Proc, key: Option<string>, bytes: nat)
    requires s.proc == Some(p) && Named(s.used, base, s.cfg.me, p)
    ensures var t := MintStep(s, p, key, bytes); t.proc.Some? && Named(t.used, base, s.cfg.me, t.proc.value)
    ensures var t := TakeMintStep(s, p, key, bytes); t.proc.Some? && Named(t.used, base, s.cfg.me, t.proc.value)
  {
  }

  /** Steps that neither mint nor pick. */
  lemma NamedOn(used: set<string>, base: seq<Receipt>, me: Identity, p: Proc, q: Proc)
    requires Named(used, base, me, p)
    requires forall e :: e in q.box.receipts ==> e in p.box.receipts
    requires PassReceipt(q.pass).Some? ==> PassReceipt(q.pass) == PassReceipt(p.pass)
    requires MintedIn(q.slow).Some? ==> MintedIn(q.slow) == MintedIn(p.slow)
    ensures Named(used, base, me, q)
  {
  }

  lemma {:induction false} NextUpIn(rs: seq<Receipt>, hold: bool, me: Identity)
    ensures var r := NextUp(rs, hold, me); r.Some? ==> r.value in rs
  {
    if rs != [] { NextUpIn(rs[1..], hold, me); }
  }

  lemma NamedPick(cfg: Config, used: set<string>, base: seq<Receipt>, p: Proc)
    requires Named(used, base, cfg.me, p)
    ensures Named(used, base, cfg.me, PickStep(cfg, p))
  {
    NextUpIn(p.box.receipts, HoldsGrants(p.box), cfg.me);
    hide NextUp;
  }

  // ---------------------------------------------------------------- after a decision's append has failed

  /** Fresh decisions are owed to disk: the newest receipt of the mirror is one of them, and its own. */
  ghost predicate Owing(base: seq<Receipt>, me: Identity, p: Proc) {
    && p.box.durable && p.box.dirty && p.box.receipts != []
    && var rs, last := p.box.receipts, p.box.receipts[|p.box.receipts| - 1];
    && InScope(last, me) && last.key != "" && last.key in p.box.own
    && (forall e :: e in base ==> e.key != last.key)
    && (forall i :: 0 <= i < |rs| - 1 ==> rs[i].key != last.key)
  }

  /** No grant gets past the pair hold, and the newest receipt none of its own. */
  predicate Blocked(p: Proc, mints: bool)
    requires p.box.receipts != []
  {
    var last := p.box.receipts[|p.box.receipts| - 1];
    && (WindowOf(p.slow).Some? ==> WindowOf(p.slow).value == last)
    && (!last.granted ==> if mints then IsDenial(p.recordOwed) else last.key in p.box.owed || WindowOf(p.slow) == Some(last))
    && (PassReceipt(p.pass).Some? ==>
          var r := PassReceipt(p.pass).value;
          && (r.granted ==> p.pass.Checking? && p.pass.passed <= 4)
          && (r.key == last.key ==>
                r == last && p.pass.Checking? && (!r.granted ==> p.pass.passed <= if mints then 3 else 0)))
  }

  ghost predicate Opened(base: seq<Receipt>, me: Identity, p: Proc, mints: bool) {
    Owing(base, me, p) && Blocked(p, mints)
  }

  /** Nothing of this process is in the mirror, and an owed grant waits for its receipt. */
  ghost predicate Shut(base: seq<Receipt>, p: Proc) {
    && (forall e :: e in p.box.receipts ==> e in base)
    && WindowOf(p.slow).None?
    && (IsGrant(p.recordOwed) ==> p.mintOwed.Some? || p.slow.GrantMinted? || p.slow.RetryMinted?)
  }

  // ---------------------------------------------------------------- a save that lists

  ghost predicate Lists(base: seq<Receipt>, file: TrailFile) {
    exists r :: r in Listed(file) && r !in base
  }

  lemma ShedLeaves(rs: seq<Receipt>, settled: seq<string>)
    requires rs != [] && Shed(rs, settled).Some?
    ensures Shed(rs, settled).value < |rs|
    decreases |rs|
  {
    if FileBytes(rs) > READ_LIMIT { ShedLeaves(rs[1..], settled); }
  }

  /** What the mirror holds last, and the file does not list, a stored save lists. */
  lemma StoredLists(box: Outbox, file: TrailFile, decisive: bool, ok: bool, last: Receipt)
    requires box.durable && Save(box, file, decisive, ok).error == Stored
    requires box.receipts != [] && box.receipts[|box.receipts| - 1] == last && last.key in box.own
    requires forall i :: 0 <= i < |box.receipts| - 1 ==> box.receipts[i].key != last.key
    requires forall e :: e in Listed(file) ==> e.key != last.key
    ensures last in Listed(Save(box, file, decisive, ok).file)
  {
    var b := Freshened(box, decisive);
    var merged := Merged(b, file, decisive);
    MergedEnds(b, file, decisive, last);
    var over := Overflow(merged);
    assert merged[over..] != [];
    ShedLeaves(merged[over..], b.settled);
    var n := over + Shed(merged[over..], b.settled).value;
    hide Merged, Shed, Overflow, Evict, Written, MergeOwn, MergeDisk;
    WrittenLists(merged[n..]);
    assert merged[n..][|merged| - 1 - n] == last;
  }

  lemma WrittenLists(rs: seq<Receipt>)
    ensures Listed(Written(rs)) == rs
  {
  }

  lemma MergedEnds(box: Outbox, file: TrailFile, decisive: bool, last: Receipt)
    requires box.durable
    requires box.receipts != [] && box.receipts[|box.receipts| - 1] == last && last.key in box.own
    requires forall i :: 0 <= i < |box.receipts| - 1 ==> box.receipts[i].key != last.key
    requires forall e :: e in Listed(file) ==> e.key != last.key
    ensures var merged := Merged(box, file, decisive); merged != [] && merged[|merged| - 1] == last
  {
    var listed := Listed(file);
    var disk := if decisive && file.UnusableTrail? then DropOwn(listed, box.own) else listed;
    DropOwnIn(listed, box.own);
    MergeDiskFacts(disk, box.settled);
    var view := MergeDisk(disk, box.settled);
    var front := box.receipts[..|box.receipts| - 1];
    MergeOwnFacts(view, front, box.own);
    var acc := MergeOwn(view, front, box.own);
    hide MergeDisk;
    assert !HasKey(acc, last.key) by { hide MergeOwn; }
  }

  lemma {:induction false} DropOwnIn(rs: seq<Receipt>, own: set<string>)
    ensures forall e :: e in DropOwn(rs, own) ==> e in rs
  {
    if rs != [] { DropOwnIn(rs[..|rs| - 1], own); }
  }

  // ---------------------------------------------------------------- steps within an open process

  lemma OpenedFast(base: seq<Receipt>, me: Identity, p: Proc, mints: bool, d: Decision)
    requires Opened(base, me, p, mints)
    ensures Opened(base, me, FastHalf(p, d), mints)
  {
    OwingSame(base, me, p, FastHalf(p, d));
    hide Owing;
  }

  lemma OpenedBegin(base: seq<Receipt>, me: Identity, record: RecordFile, p: Proc, mints: bool, clock: int, purgeOk: bool)
    requires Opened(base, me, p, mints) && Ledger(record, p, mints)
    ensures Opened(base, me, BeginTurn(p, clock, purgeOk), mints)
  {
    OwingSame(base, me, p, BeginTurn(p, clock, purgeOk));
    hide Owing, Ledger;
  }

  lemma OwingSame(base: seq<Receipt>, me: Identity, p: Proc, q: Proc)
    requires Owing(base, me, p) && q.box == p.box.(owed := q.box.owed)
    ensures Owing(base, me, q)
  {
  }

  lemma OpenedSlot(base: seq<Receipt>, me: Identity, record: RecordFile, p: Proc, mints: bool)
    requires Opened(base, me, p, mints) && Ledger(record, p, mints)
    ensures Opened(base, me, SlotStep(p), mints)
  {
    LedgerSlot(record, p, mints);
    OwingSame(base, me, p, SlotStep(p));
    hide Owing, Newer;
  }

  lemma OpenedMark(base: seq<Receipt>, me: Identity, record: RecordFile, p: Proc, mints: bool)
    requires Opened(base, me, p, mints) && Ledger(record, p, mints)
    ensures Opened(base, me, MarkStep(p), mints)
  {
    LedgerMark(record, p, mints);
    assert p.box.receipts[|p.box.receipts| - 1].key != "";
    OwingSame(base, me, p, MarkStep(p));
    hide Owing, Newer;
  }

  lemma OpenedMint(base: seq<Receipt>, s: State, p: Proc, key: Option<string>, bytes: nat, mints: bool)
    requires s.proc == Some(p) && Opened(base, s.cfg.me, p, mints) && Ledger(s.disk.record, p, mints)
    ensures var t := MintStep(s, p, key, bytes); t.proc.Some? && Opened(base, s.cfg.me, t.proc.value, mints)
    ensures var t := TakeMintStep(s, p, key, bytes); t.proc.Some? && Opened(base, s.cfg.me, t.proc.value, mints)
  {
    OwingSame(base, s.cfg.me, p, MintStep(s, p, key, bytes).proc.value);
    OwingSame(base, s.cfg.me, p, TakeMintStep(s, p, key, bytes).proc.value);
    hide Owing, Newer, SlotFits;
  }

  lemma OpenedPick(base: seq<Receipt>, cfg: Config, p: Proc, mints: bool)
    requires Opened(base, cfg.me, p, mints)
    ensures Opened(base, cfg.me, PickStep(cfg, p), mints)
  {
    NextUpIn(p.box.receipts, HoldsGrants(p.box), cfg.me);
    hide NextUp;
  }

  lemma OpenedCheck(base: seq<Receipt>, s: State, p: Proc, mints: bool)
    requires s.proc == Some(p) && Opened(base, s.cfg.me, p, mints) && Ledger(s.disk.record, p, mints)
    requires Spared(s, Check, mints)
    ensures Opened(base, s.cfg.me, CheckStep(s.cfg, p), mints)
  {
    if p.pass.Checking? {
      var r, n, last := p.pass.r, p.pass.passed, p.box.receipts[|p.box.receipts| - 1];
      assert r.granted && n == 4 ==> Held(p, s.cfg.me, r, n);
      assert Latest(p.box.receipts, s.cfg.me) == Some(last);
      if r.key == last.key && !r.granted {
        if mints { assert n == 3 ==> Held(p, s.cfg.me, r, n); }
        else { assert Held(p, s.cfg.me, r, 0); }
      }
      hide Held, Ledger, Spared, Latest;
    }
  }

  lemma OpenedAnswer(base: seq<Receipt>, s: State, p: Proc, mints: bool, processed: bool, outcome: Outcome)
    requires s.proc == Some(p) && Opened(base, s.cfg.me, p, mints)
    ensures Opened(base, s.cfg.me, AnswerStep(p, outcome), mints)
    ensures Opened(base, s.cfg.me, SendStep(s, p, processed).proc.value, mints)
  {
    hide Owing;
    OwingSame(base, s.cfg.me, p, AnswerStep(p, outcome));
    OwingSame(base, s.cfg.me, p, SendStep(s, p, processed).proc.value);
  }

  /** A rewrite without a fresh decision fails, or lists the newest receipt. */
  lemma OpenedRewrite(base: seq<Receipt>, me: Identity, p: Proc, box: Outbox, file: TrailFile, ok: bool)
    requires Owing(base, me, p.(box := box)) && !Lists(base, file)
    ensures var saved := Save(box, file, false, ok);
            if saved.error == Stored
            then Lists(base, saved.file)
            else saved.file == file && saved.box == box.(dirty := true)
  {
    var saved, last := Save(box, file, false, ok), box.receipts[|box.receipts| - 1];
    if saved.error == Stored {
      StoredLists(box, file, false, ok, last);
      hide Save;
      assert last in Listed(saved.file) && last !in base;
    } else {
      SaveRefusesWhole(box, file, false, ok);
      hide Save;
    }
  }

  lemma WithoutEnds(front: seq<Receipt>, last: Receipt, key: string)
    requires last.key != key
    ensures Without(front + [last], key) == Without(front, key) + [last]
    decreases |front|
  {
    if front != [] {
      assert (front + [last])[1..] == front[1..] + [last];
      if front[0].key != key { WithoutEnds(front[1..], last, key); }
    }
  }

  /** The pruned receipt is not the newest, so the newest stays. */
  lemma OwingUnlisted(base: seq<Receipt>, me: Identity, p: Proc, key: string)
    requires Owing(base, me, p) && p.box.receipts[|p.box.receipts| - 1].key != key
    ensures var q := p.(box := Unlisted(p.box, key));
            Owing(base, me, q) && q.box.receipts[|q.box.receipts| - 1] == p.box.receipts[|p.box.receipts| - 1]
  {
    var rs := p.box.receipts;
    var front, last := rs[..|rs| - 1], rs[|rs| - 1];
    assert rs == front + [last];
    WithoutEnds(front, last, key);
    WithoutIn(front, key);
    var q := p.(box := Unlisted(p.box, key));
    assert q.box.receipts == Without(front, key) + [last];
    hide Without;
    forall i | 0 <= i < |q.box.receipts| - 1 ensures q.box.receipts[i].key != last.key {
      assert q.box.receipts[i] in Without(front, key);
      assert q.box.receipts[i] in front;
    }
  }

  /** What remains of a pass that settled a receipt other than the newest. */
  lemma BlockedRested(p: Proc, q: Proc, mints: bool, key: string)
    requires p.box.receipts != [] && q.box.receipts != [] && Blocked(p, mints)
    requires q.box.receipts[|q.box.receipts| - 1] == p.box.receipts[|p.box.receipts| - 1]
    requires q.slow == p.slow && q.recordOwed == p.recordOwed && q.pass == Resting
    requires q.box.owed == p.box.owed - {key} && p.box.receipts[|p.box.receipts| - 1].key != key
    ensures Blocked(q, mints)
  {
  }

  lemma OpenedPruned(base: seq<Receipt>, me: Identity, p: Proc, file: TrailFile, ok: bool, mints: bool)
    requires Opened(base, me, p, mints) && p.pass.Settling? && !Lists(base, file) && HasKey(p.box.receipts, p.pass.r.key)
    ensures var saved := Save(Unlisted(p.box, p.pass.r.key), file, false, ok);
            var q := p.(box := saved.box, pass := Resting, answered := p.answered + {p.pass.r.key});
            Lists(base, saved.file) ||
            (saved.file == file && Opened(base, me, q, mints) && forall e :: e in q.box.receipts ==> e in p.box.receipts)
  {
    var key := p.pass.r.key;
    WithoutIn(p.box.receipts, key);
    assert p.box.receipts[|p.box.receipts| - 1].key != key;
    OwingUnlisted(base, me, p, key);
    var box := Unlisted(p.box, key);
    var q := p.(box := box.(dirty := true), pass := Resting, answered := p.answered + {key});
    hide Save, Without, HasKey;
    OpenedRewrite(base, me, p.(box := box), box, file, ok);
    hide Owing, Blocked;
    OwingDirty(base, me, p.(box := box), q);
    BlockedRested(p, q, mints, key);
  }

  lemma OwingDirty(base: seq<Receipt>, me: Identity, p: Proc, q: Proc)
    requires Owing(base, me, p) && q.box == p.box.(dirty := true)
    ensures Owing(base, me, q)
  {
  }

  lemma OpenedPrune(base: seq<Receipt>, me: Identity, p: Proc, file: TrailFile, ok: bool, mints: bool)
    requires Opened(base, me, p, mints) && p.pass.Settling? && !Lists(base, file)
    ensures var saved := Prune(p.box, file, p.pass.r.key, ok);
            var q := p.(box := saved.box, pass := Resting, answered := p.answered + {p.pass.r.key});
            Lists(base, saved.file) ||
            (saved.file == file && Opened(base, me, q, mints) && forall e :: e in q.box.receipts ==> e in p.box.receipts)
  {
    if HasKey(p.box.receipts, p.pass.r.key) {
      OpenedPruned(base, me, p, file, ok, mints);
      hide Save, Unlisted, HasKey, Opened, Lists;
    } else { hide Save, HasKey; }
  }

  lemma OpenedPersist(base: seq<Receipt>, me: Identity, p: Proc, file: TrailFile, ok: bool, mints: bool)
    requires Opened(base, me, p, mints) && !Lists(base, file)
    ensures var saved := RetryPersist(p.box, file, ok);
            Lists(base, saved.file) || (saved.file == file && p.(box := saved.box) == p)
  {
    OpenedRewrite(base, me, p, p.box, file, ok);
    hide Save, Blocked;
  }

  /** A decision's append that does not list its receipt opens the process, or keeps it open. */
  lemma AppendOpens(base: seq<Receipt>, s: State, p: Proc, ok: bool, mints: bool)
    requires s.proc == Some(p) && Named(s.used, base, s.cfg.me, p) && Ledger(s.disk.record, p, mints)
    requires p.box.durable && !Lists(base, s.disk.trail)
    requires MintedIn(p.slow).Some? && PassBlocked(p)
    ensures var t := AppendStep(s, p, ok);
            Lists(base, t.disk.trail) ||
            (t.disk == s.disk && t.proc.Some? && Opened(base, s.cfg.me, t.proc.value, mints) && Ledger(s.disk.record, t.proc.value, mints)
             && Named(s.used, base, s.cfg.me, t.proc.value))
  {
    var r := MintedIn(p.slow).value;
    var box := p.box.(own := p.box.own + {r.key}, receipts := p.box.receipts + [r]);
    var saved := Save(box, s.disk.trail, true, ok);
    if saved.error == Stored {
      StoredLists(box, s.disk.trail, true, ok, r);
      hide Save, Ledger;
      assert r in Listed(saved.file) && r !in base;
    } else {
      SaveRefusesWhole(box, s.disk.trail, true, ok);
      DecisiveFails(box, s.disk.trail, ok);
      hide Save;
      AppendFailed(base, s, p, r, saved.box, mints);
      hide Opened, Named, Ledger, Unlanded;
    }
  }

  lemma DecisiveFails(box: Outbox, file: TrailFile, ok: bool)
    ensures Save(box, file, true, ok).error == Stored || FailedDurably(Save(box, file, true, ok).error)
  {
    hide Merged, Shed, Overflow, Evict;
  }

  /** Grants under judgement have not passed the pair hold. */
  predicate PassBlocked(p: Proc) {
    PassReceipt(p.pass).Some? && PassReceipt(p.pass).value.granted ==> p.pass.Checking? && p.pass.passed <= 4
  }

  function SlowAppended(slow: Slow): Slow
    requires MintedIn(slow).Some?
  {
    match slow
    case GrantMinted(r) => GrantAppended(r, false)
    case DenyMinted(r, written) => DenyAppended(r, written)
    case RetryMinted(r) => RetryAppended(r)
  }

  lemma AppendFailed(base: seq<Receipt>, s: State, p: Proc, r: Receipt, box: Outbox, mints: bool)
    requires Named(s.used, base, s.cfg.me, p) && Ledger(s.disk.record, p, mints)
    requires p.box.durable && MintedIn(p.slow) == Some(r) && PassBlocked(p)
    requires box == p.box.(own := p.box.own + {r.key}, receipts := p.box.receipts + [r], dirty := true, lastRead := ReadParsed,
                           grantsUnprovable := false, preserveUnusable := false)
    ensures var q := p.(box := box, slow := SlowAppended(p.slow));
            Opened(base, s.cfg.me, q, mints) && Ledger(s.disk.record, q, mints) && Named(s.used, base, s.cfg.me, q)
  {
    var q := p.(box := box, slow := SlowAppended(p.slow));
    assert Ledger(s.disk.record, q, mints);
    assert Owing(base, s.cfg.me, q) by {
      assert forall i :: 0 <= i < |p.box.receipts| ==> box.receipts[i] in p.box.receipts;
      hide Ledger;
    }
    hide Owing, Newer;
  }

  // ---------------------------------------------------------------- steps before any append

  lemma ShutLock(base: seq<Receipt>, record: RecordFile, p: Proc, mints: bool, clock: int, purgeOk: bool, d: Decision)
    requires Shut(base, p) && Ledger(record, p, mints)
    ensures Shut(base, FastHalf(p, d)) && Shut(base, BeginTurn(p, clock, purgeOk))
    ensures Shut(base, SlotStep(p)) && Shut(base, MarkStep(p))
  {
    hide Newer;
  }

  lemma ShutMint(base: seq<Receipt>, s: State, p: Proc, key: Option<string>, bytes: nat, mints: bool)
    requires s.proc == Some(p) && Shut(base, p) && Ledger(s.disk.record, p, mints)
    ensures var t := MintStep(s, p, key, bytes); t.proc.Some? && Shut(base, t.proc.value)
    ensures var t := TakeMintStep(s, p, key, bytes); t.proc.Some? && Shut(base, t.proc.value)
  {
    hide Newer;
  }

  lemma ShutPass(base: seq<Receipt>, s: State, p: Proc, processed: bool, outcome: Outcome)
    requires s.proc == Some(p) && Shut(base, p)
    ensures Shut(base, PickStep(s.cfg, p)) && Shut(base, CheckStep(s.cfg, p))
    ensures Shut(base, AnswerStep(p, outcome)) && Shut(base, SendStep(s, p, processed).proc.value)
  {
    hide NextUp, Held;
  }

  // ---------------------------------------------------------------- the period

  ghost predicate Going(s: State, before: Disk, p: Proc, mints: bool) {
    && Ledger(s.disk.record, p, mints)
    && Named(s.used, Listed(before.trail), s.cfg.me, p)
    && (p.live == Granted ==> Grant in p.accepted)
    && ((Withholding(s, p) && Shut(Listed(before.trail), p)) || Opened(Listed(before.trail), s.cfg.me, p, mints))
  }

  ghost predicate Period(s: State, before: Disk, mints: bool) {
    && s.cfg.digest != "" && Load(before.record, s.cfg.digest).info.state == Granted
    && WithheldOnDisk(s.cfg, s.disk) && !Lists(Listed(before.trail), s.disk.trail)
    && (forall e :: e in Listed(before.trail) ==> e.key in s.used)
    && (s.proc.Some? ==> Going(s, before, s.proc.value, mints))
  }

  lemma BootNewer(cfg: Config, disk: Disk, healOk: bool, markOk: bool)
    requires cfg.digest != "" && WithheldOnDisk(cfg, disk)
    ensures var (d, p) := Boot(cfg, disk, healOk, markOk);
            && d.trail == disk.trail && p.recordOwed.None? && p.mintOwed.None? && p.slow == Idle && p.pass == Resting
            && p.box.receipts == Listed(disk.trail) && Newer(d.record, p)
  {
    WithheldConcludes(cfg, disk);
    MarkIsMax(cfg, disk);
    var c := Conclude(cfg, disk);
    hide Conclude, Resolve, WithheldOnDisk, MaxAt, Latest;
  }

  lemma PeriodStart(s: State, before: Disk, healOk: bool, markOk: bool, mints: bool)
    requires Period(s, before, mints) && s.proc.None?
    ensures Period(NextRaw(s, Start(healOk, markOk)), before, mints)
  {
    WithheldStart(s, healOk, markOk);
    BootNewer(s.cfg, s.disk, healOk, markOk);
    var t := NextRaw(s, Start(healOk, markOk));
    assert Withheld(Observe(t));
    hide Boot, WithheldOnDisk, Load, Opened, Newer;
    StartGoing(t, before, mints);
  }

  lemma StartGoing(t: State, before: Disk, mints: bool)
    requires t.proc.Some? && Withholding(t, t.proc.value) && Newer(t.disk.record, t.proc.value)
    requires !Lists(Listed(before.trail), t.disk.trail) && forall e :: e in Listed(before.trail) ==> e.key in t.used
    requires var p := t.proc.value;
             p.recordOwed.None? && p.mintOwed.None? && p.slow == Idle && p.pass == Resting && p.box.receipts == Listed(t.disk.trail)
    ensures Going(t, before, t.proc.value, mints)
  {
    hide Newer, Opened, Load;
  }

  /** A landed denial is not the grant that was on record, nor a mark. */
  lemma DenialIsFresh(cfg: Config, before: Disk, trail: TrailFile, d: Decision, at: int)
    requires cfg.digest != "" && d != Grant && Load(before.record, cfg.digest).info.state == Granted
    ensures Fresh(cfg, before, Disk(trail, SaveRecord(d, cfg.digest, Some(at), true)))
  {
    hide Lists;
  }

  /** A record write fails, or puts a denial on record; no grant is written. */
  lemma RecordFails(s: State, before: Disk, p: Proc, step: Step, mints: bool)
    requires s.proc == Some(p) && (step.WriteRecord? || step.TakeOwedRecord?)
    requires s.cfg.digest != "" && Load(before.record, s.cfg.digest).info.state == Granted
    requires Ledger(s.disk.record, p, mints) && (p.box.dirty || Shut(Listed(before.trail), p))
    requires !Fresh(s.cfg, before, NextRaw(s, step).disk)
    ensures var t := NextRaw(s, step);
            && t.disk == s.disk && t.used == s.used && t.cfg == s.cfg && t.proc.Some?
            && Settled(p, t.proc.value) && Ledger(s.disk.record, t.proc.value, mints)
  {
    if step.WriteRecord? {
      if p.slow.DenyStamped? { DenialIsFresh(s.cfg, before, s.disk.trail, p.slow.d, p.slow.at); }
      WriteFails(s, p, step.ok, mints);
    } else {
      if p.recordOwed.Some? && p.recordOwed.value.decision != Grant {
        DenialIsFresh(s.cfg, before, s.disk.trail, p.recordOwed.value.decision, p.recordOwed.value.at);
      }
      RetryFails(s, before, p, step.ok, mints);
    }
    hide NextRaw, Settled, Ledger;
  }

  lemma WriteFails(s: State, p: Proc, ok: bool, mints: bool)
    requires s.proc == Some(p) && Ledger(s.disk.record, p, mints)
    requires ok ==> !p.slow.DenyStamped?
    ensures var t := NextRaw(s, WriteRecord(ok));
            && t.disk == s.disk && t.used == s.used && t.cfg == s.cfg && t.proc.Some?
            && Settled(p, t.proc.value) && Ledger(s.disk.record, t.proc.value, mints)
  {
  }

  lemma RetryFails(s: State, before: Disk, p: Proc, ok: bool, mints: bool)
    requires s.proc == Some(p) && Ledger(s.disk.record, p, mints) && (p.box.dirty || Shut(Listed(before.trail), p))
    requires ok && p.slow == Idle ==> !IsDenial(p.recordOwed)
    ensures var t := NextRaw(s, TakeOwedRecord(ok));
            && t.disk == s.disk && t.used == s.used && t.cfg == s.cfg && t.proc.Some?
            && Settled(p, t.proc.value) && Ledger(s.disk.record, t.proc.value, mints)
  {
    hide Newer;
    assert Newer(s.disk.record, p);
    assert forall o :: p.recordOwed == Some(o) ==> Newer(s.disk.record, p.(slow := RetryRecorded(o, false))) by { NewerRetried(s.disk.record, p); }
  }

  lemma NewerRetried(record: RecordFile, p: Proc)
    requires Newer(record, p)
    ensures forall o :: p.recordOwed == Some(o) ==> Newer(record, p.(slow := RetryRecorded(o, false)))
  {
  }

  /** Only the lock holder's place moved, outside every window. */
  predicate Settled(p: Proc, q: Proc) {
    q == p || (q == p.(slow := q.slow) && WindowOf(p.slow).None? && WindowOf(q.slow).None? && MintedIn(q.slow).None?
               && !p.slow.GrantMinted? && !p.slow.RetryMinted?)
  }

  lemma SettledKeeps(s: State, before: Disk, p: Proc, q: Proc, mints: bool)
    requires s.proc == Some(p) && Going(s, before, p, mints) && Settled(p, q) && Ledger(s.disk.record, q, mints)
    ensures Going(s.(proc := Some(q)), before, q, mints)
  {
    NamedOn(s.used, Listed(before.trail), s.cfg.me, p, q);
    hide Ledger, Named, Load;
    if Opened(Listed(before.trail), s.cfg.me, p, mints) {
      OwingSame(Listed(before.trail), s.cfg.me, p, q);
      hide Owing;
    }
  }

  // ---------------------------------------------------------------- one step

  /** The steps that leave the disk alone and write nothing. */
  predicate Aside(step: Step) {
    !Records(step) && !step.PersistAgain? && !step.PruneReceipt? && !step.Crash?
  }

  lemma LedgerAside(s: State, p: Proc, step: Step, mints: bool)
    requires s.proc == Some(p) && Aside(step) && Ledger(s.disk.record, p, mints) && Spared(s, step, mints)
    ensures var t := NextRaw(s, step); t.proc.Some? && Ledger(s.disk.record, t.proc.value, mints)
  {
    hide Ledger, BeginTurn, FastHalf, SlotStep, MarkStep, MintStep, TakeMintStep, PickStep, CheckStep, AnswerStep;
    match step
    case Decide(d) => LedgerFast(s.disk.record, p, d, mints);
    case Begin(clock, purgeOk) => LedgerBegin(s.disk.record, p, clock, purgeOk, mints);
    case SettleSlot => LedgerSlot(s.disk.record, p, mints);
    case MarkOwed => LedgerMark(s.disk.record, p, mints);
    case Mint(key, bytes) => LedgerMint(s, p, key, bytes, mints);
    case TakeOwedMint(key, bytes) => assert mints ==> MintsGrant(s, Mint(Some(""), 0)); LedgerTake(s, p, key, bytes, mints);
    case Pick => LedgerPass(s, p, false, Ack, mints);
    case Check => LedgerPass(s, p, false, Ack, mints);
    case Send(processed) => LedgerPass(s, p, processed, Ack, mints);
    case Answer(outcome) => LedgerPass(s, p, false, outcome, mints);
    case Finish => LedgerFinish(s.disk.record, p, mints);
    case _ =>
  }

  lemma LedgerTake(s: State, p: Proc, key: Option<string>, bytes: nat, mints: bool)
    requires s.proc == Some(p) && Ledger(s.disk.record, p, mints)
    ensures var t := TakeMintStep(s, p, key, bytes); t.proc.Some? && Ledger(s.disk.record, t.proc.value, mints)
  {
  }

  lemma LedgerFinish(record: RecordFile, p: Proc, mints: bool)
    requires Ledger(record, p, mints)
    ensures forall tickets :: p.slow == Served ==> Ledger(record, p.(tickets := tickets, slow := Idle), mints)
  {
  }

  lemma NamedAside(s: State, base: seq<Receipt>, p: Proc, step: Step)
    requires s.proc == Some(p) && Aside(step) && Named(s.used, base, s.cfg.me, p)
    ensures var t := NextRaw(s, step); t.proc.Some? && Named(t.used, base, s.cfg.me, t.proc.value)
  {
    hide Named, MintStep, TakeMintStep, PickStep;
    match step
    case Mint(key, bytes) => NamedMint(s, base, p, key, bytes);
    case TakeOwedMint(key, bytes) => NamedMint(s, base, p, key, bytes);
    case Pick => NamedPick(s.cfg, s.used, base, p);
    case _ => NamedSame(s, base, p, step);
  }

  /** The mirror stays, and neither a receipt nor a key is taken up. */
  predicate Idly(p: Proc, q: Proc) {
    && q.box.receipts == p.box.receipts
    && (PassReceipt(q.pass).Some? ==> PassReceipt(q.pass) == PassReceipt(p.pass))
    && (MintedIn(q.slow).Some? ==> MintedIn(q.slow) == MintedIn(p.slow))
  }

  lemma LockIdly(p: Proc, d: Decision, clock: int, purgeOk: bool)
    ensures Idly(p, FastHalf(p, d)) && Idly(p, BeginTurn(p, clock, purgeOk)) && Idly(p, SlotStep(p)) && Idly(p, MarkStep(p))
  {
    SettleIdly(p);
    hide SlotStep, MarkStep;
  }

  lemma SettleIdly(p: Proc)
    ensures Idly(p, SlotStep(p)) && Idly(p, MarkStep(p))
  {
  }

  lemma PassIdly(s: State, p: Proc, processed: bool, outcome: Outcome)
    requires s.proc == Some(p)
    ensures Idly(p, CheckStep(s.cfg, p)) && Idly(p, AnswerStep(p, outcome)) && Idly(p, SendStep(s, p, processed).proc.value)
  {
    hide Held;
  }

  lemma NamedSame(s: State, base: seq<Receipt>, p: Proc, step: Step)
    requires s.proc == Some(p) && Aside(step) && !step.Mint? && !step.TakeOwedMint? && !step.Pick?
    requires Named(s.used, base, s.cfg.me, p)
    ensures var t := NextRaw(s, step); t.proc.Some? && Named(t.used, base, s.cfg.me, t.proc.value)
  {
    hide Named, FastHalf, BeginTurn, SlotStep, MarkStep, CheckStep, AnswerStep;
    LockIdly(p, if step.Decide? then step.decision else Deny, if step.Begin? then step.clock else 0, !step.Begin? || step.purgeOk);
    PassIdly(s, p, step.Send? && step.processed, if step.Answer? then step.outcome else Ack);
    var t := NextRaw(s, step);
    assert t.used == s.used && t.proc.Some? && Idly(p, t.proc.value);
    NamedOn(s.used, base, s.cfg.me, p, t.proc.value);
  }

  lemma OpenedAside(s: State, base: seq<Receipt>, p: Proc, step: Step, mints: bool)
    requires s.proc == Some(p) && Aside(step) && Opened(base, s.cfg.me, p, mints)
    requires Ledger(s.disk.record, p, mints) && Spared(s, step, mints)
    ensures var t := NextRaw(s, step); t.proc.Some? && Opened(base, s.cfg.me, t.proc.value, mints)
  {
    hide Ledger, Opened, BeginTurn, FastHalf, SlotStep, MarkStep, MintStep, TakeMintStep, PickStep, CheckStep, AnswerStep;
    match step
    case Decide(d) => OpenedFast(base, s.cfg.me, p, mints, d);
    case Begin(clock, purgeOk) => OpenedBegin(base, s.cfg.me, s.disk.record, p, mints, clock, purgeOk);
    case SettleSlot => OpenedSlot(base, s.cfg.me, s.disk.record, p, mints);
    case MarkOwed => OpenedMark(base, s.cfg.me, s.disk.record, p, mints);
    case Mint(key, bytes) => OpenedMint(base, s, p, key, bytes, mints);
    case TakeOwedMint(key, bytes) => OpenedMint(base, s, p, key, bytes, mints);
    case Pick => OpenedPick(base, s.cfg, p, mints);
    case Check => OpenedCheck(base, s, p, mints);
    case Send(processed) => OpenedAnswer(base, s, p, mints, processed, Ack);
    case Answer(outcome) => OpenedAnswer(base, s, p, mints, false, outcome);
    case Finish => OpenedFinish(base, s.cfg.me, p, mints);
    case _ =>
  }

  lemma OpenedFinish(base: seq<Receipt>, me: Identity, p: Proc, mints: bool)
    requires Opened(base, me, p, mints)
    ensures forall tickets :: p.slow == Served ==> Opened(base, me, p.(tickets := tickets, slow := Idle), mints)
  {
    forall tickets | p.slow == Served ensures Opened(base, me, p.(tickets := tickets, slow := Idle), mints) {
      OwingSame(base, me, p, p.(tickets := tickets, slow := Idle));
      hide Owing;
    }
  }

  lemma ShutAside(s: State, base: seq<Receipt>, p: Proc, step: Step, mints: bool)
    requires s.proc == Some(p) && Aside(step) && Shut(base, p) && Ledger(s.disk.record, p, mints)
    ensures var t := NextRaw(s, step); t.proc.Some? && Shut(base, t.proc.value)
  {
    hide Ledger, BeginTurn, FastHalf, SlotStep, MarkStep, MintStep, TakeMintStep, PickStep, CheckStep, AnswerStep;
    match step
    case Decide(d) => ShutLock(base, s.disk.record, p, mints, 0, true, d);
    case Begin(clock, purgeOk) => ShutLock(base, s.disk.record, p, mints, clock, purgeOk, Deny);
    case SettleSlot => ShutLock(base, s.disk.record, p, mints, 0, true, Deny);
    case MarkOwed => ShutLock(base, s.disk.record, p, mints, 0, true, Deny);
    case Mint(key, bytes) => ShutMint(base, s, p, key, bytes, mints);
    case TakeOwedMint(key, bytes) => ShutMint(base, s, p, key, bytes, mints);
    case Pick => ShutPass(base, s, p, false, Ack);
    case Check => ShutPass(base, s, p, false, Ack);
    case Send(processed) => ShutPass(base, s, p, processed, Ack);
    case Answer(outcome) => ShutPass(base, s, p, false, outcome);
    case _ =>
  }

  /** The used keys only grow. */
  lemma UsedGrows(s: State, step: Step)
    ensures s.used <= NextRaw(s, step).used
  {
    hide Boot, BeginTurn, FastHalf, SlotStep, MarkStep, Append, RetryPersist, PickStep, CheckStep, AnswerStep, Prune;
  }

  lemma GoingAside(s: State, before: Disk, p: Proc, step: Step, mints: bool)
    requires s.cfg.digest != "" && WithheldOnDisk(s.cfg, s.disk)
    requires s.proc == Some(p) && Aside(step) && Going(s, before, p, mints) && Spared(s, step, mints)
    ensures var t := NextRaw(s, step); t.cfg == s.cfg && t.disk == s.disk && t.proc.Some? && Going(t, before, t.proc.value, mints)
  {
    var base, t := Listed(before.trail), NextRaw(s, step);
    LedgerAside(s, p, step, mints);
    NamedAside(s, base, p, step);
    OtherHarmless(s, step);
    if Opened(base, s.cfg.me, p, mints) { OpenedAside(s, base, p, step, mints); }
    else {
      ShutAside(s, base, p, step, mints);
      assert Withheld(s);
      WithheldOther(s, step);
      assert Withholding(t, t.proc.value);
    }
    hide NextRaw, Ledger, Named, Opened, Shut, Withholding, WithheldOnDisk;
  }

  lemma OpenedRewriting(s: State, before: Disk, p: Proc, step: Step, mints: bool)
    requires !Lists(Listed(before.trail), s.disk.trail) && !Lists(Listed(before.trail), NextRaw(s, step).disk.trail)
    requires s.proc == Some(p) && (step.PersistAgain? || step.PruneReceipt?) && Opened(Listed(before.trail), s.cfg.me, p, mints)
    ensures var t := NextRaw(s, step);
            && t.disk.trail == s.disk.trail && t.proc.Some? && Opened(Listed(before.trail), s.cfg.me, t.proc.value, mints)
            && (forall e :: e in t.proc.value.box.receipts ==> e in p.box.receipts)
  {
    var base := Listed(before.trail);
    if step.PersistAgain? { OpenedPersist(base, s.cfg.me, p, s.disk.trail, step.ok, mints); }
    else if p.pass.Settling? { OpenedPrune(base, s.cfg.me, p, s.disk.trail, step.ok, mints); }
    hide Prune, RetryPersist, Opened, Lists;
  }

  lemma GoingRewrite(s: State, before: Disk, p: Proc, step: Step, mints: bool)
    requires s.cfg.digest != "" && WithheldOnDisk(s.cfg, s.disk) && !Lists(Listed(before.trail), s.disk.trail)
    requires s.proc == Some(p) && (step.PersistAgain? || step.PruneReceipt?) && Going(s, before, p, mints)
    requires !Lists(Listed(before.trail), NextRaw(s, step).disk.trail)
    ensures var t := NextRaw(s, step);
            t.cfg == s.cfg && WithheldOnDisk(s.cfg, t.disk) && t.disk.record == s.disk.record && t.used == s.used
            && t.proc.Some? && Going(t, before, t.proc.value, mints)
  {
    var base, t := Listed(before.trail), NextRaw(s, step);
    RewriteFrame(s, p, step);
    var q := t.proc.value;
    assert Ledger(s.disk.record, q, mints) by { LedgerBox(s.disk.record, p, q, mints); }
    if Opened(base, s.cfg.me, p, mints) {
      OpenedRewriting(s, before, p, step, mints);
      assert t.disk == s.disk;
      hide *;
      NamedOn(s.used, base, s.cfg.me, p, q);
    } else {
      ShutRewriting(s, base, p, step);
      NamedOn(s.used, base, s.cfg.me, p.(box := p.box.(receipts := p.box.receipts + q.box.receipts)), q) by {
        NamedMore(s.used, base, s.cfg.me, p, q.box.receipts);
      }
      hide NextRaw, WithheldOnDisk, Withholding, Opened, Shut, Named, Ledger;
    }
  }

  /** Receipts the files listed before may come into the mirror. */
  lemma NamedMore(used: set<string>, base: seq<Receipt>, me: Identity, p: Proc, rs: seq<Receipt>)
    requires Named(used, base, me, p) && forall e :: e in rs ==> e in base
    ensures Named(used, base, me, p.(box := p.box.(receipts := p.box.receipts + rs)))
  {
  }

  lemma ShutRewriting(s: State, base: seq<Receipt>, p: Proc, step: Step)
    requires s.cfg.digest != "" && WithheldOnDisk(s.cfg, s.disk) && !Lists(base, s.disk.trail)
    requires s.proc == Some(p) && (step.PersistAgain? || step.PruneReceipt?) && Withholding(s, p) && Shut(base, p)
    ensures var t := NextRaw(s, step);
            && WithheldOnDisk(s.cfg, t.disk) && t.proc.Some? && Withholding(t, t.proc.value) && Shut(base, t.proc.value)
            && (forall e :: e in t.proc.value.box.receipts ==> e in base)
  {
    assert Withheld(s);
    WithheldHousekeeping(s, step);
    RewriteWithin(s, base, p, step);
    RewriteFrame(s, p, step);
    hide NextRaw, WithheldOnDisk, Withholding;
  }

  lemma LedgerBox(record: RecordFile, p: Proc, q: Proc, mints: bool)
    requires Ledger(record, p, mints)
    requires q.slow == p.slow && q.recordOwed == p.recordOwed && q.mintOwed == p.mintOwed && q.lastStamp == p.lastStamp
    ensures Ledger(record, q, mints)
  {
  }

  lemma RewriteFrame(s: State, p: Proc, step: Step)
    requires s.proc == Some(p) && (step.PersistAgain? || step.PruneReceipt?)
    ensures var t := NextRaw(s, step);
            && t.cfg == s.cfg && t.disk.record == s.disk.record && t.used == s.used && t.proc.Some?
            && var q := t.proc.value;
            && q.slow == p.slow && q.recordOwed == p.recordOwed && q.mintOwed == p.mintOwed && q.lastStamp == p.lastStamp
            && q.live == p.live && q.accepted == p.accepted
            && (PassReceipt(q.pass).Some? ==> q.pass == p.pass)
  {
    hide Prune, RetryPersist;
  }

  lemma RewriteWithin(s: State, base: seq<Receipt>, p: Proc, step: Step)
    requires s.proc == Some(p) && (step.PersistAgain? || step.PruneReceipt?) && p.box.durable
    requires !Lists(base, s.disk.trail) && forall e :: e in p.box.receipts ==> e in base
    ensures forall e :: e in NextRaw(s, step).proc.value.box.receipts ==> e in base
  {
    if step.PersistAgain? {
      SaveKeepsWithin(p.box, s.disk.trail, step.ok);
    } else if p.pass.Settling? {
      WithoutIn(p.box.receipts, p.pass.r.key);
      SaveKeepsWithin(Unlisted(p.box, p.pass.r.key), s.disk.trail, step.ok);
    }
    hide Save, Without, HasKey;
  }

  lemma GoingAppend(s: State, before: Disk, p: Proc, ok: bool, mints: bool)
    requires !Lists(Listed(before.trail), s.disk.trail)
    requires s.proc == Some(p) && Going(s, before, p, mints)
    requires !Lists(Listed(before.trail), NextRaw(s, AppendReceipt(ok)).disk.trail)
    ensures var t := NextRaw(s, AppendReceipt(ok));
            t.cfg == s.cfg && t.disk == s.disk && t.used == s.used && t.proc.Some? && Going(t, before, t.proc.value, mints)
  {
    if MintedIn(p.slow).Some? {
      assert PassBlocked(p) && p.box.durable;
      AppendOpens(Listed(before.trail), s, p, ok, mints);
      AppendFrame(s, p, ok);
      hide AppendStep, Lists, Opened, Named, Ledger, Withholding, Shut;
    } else { AppendsNothing(s, p, ok); hide *; }
  }

  lemma AppendsNothing(s: State, p: Proc, ok: bool)
    requires s.proc == Some(p) && MintedIn(p.slow).None?
    ensures NextRaw(s, AppendReceipt(ok)) == s
  {
    hide Append;
  }

  lemma AppendFrame(s: State, p: Proc, ok: bool)
    requires s.proc == Some(p)
    ensures var t := AppendStep(s, p, ok);
            t.cfg == s.cfg && t.used == s.used && t.proc.Some? && t.proc.value.live == p.live && t.proc.value.accepted == p.accepted
  {
    hide Append;
  }

  lemma PeriodStep(s: State, before: Disk, step: Step, mints: bool)
    requires Period(s, before, mints) && Spared(s, step, mints) && !Fresh(s.cfg, before, NextRaw(s, step).disk)
    ensures Period(NextRaw(s, step), before, mints) && NextRaw(s, step).cfg == s.cfg
  {
    UsedGrows(s, step);
    if s.proc.None? {
      if step.Start? { PeriodStart(s, before, step.healOk, step.markOk, mints); }
    } else if !step.Crash? {
      var p := s.proc.value;
      if step.AppendReceipt? { GoingAppend(s, before, p, step.ok, mints); }
      else if step.WriteRecord? || step.TakeOwedRecord? {
        assert p.box.dirty || Shut(Listed(before.trail), p);
        RecordFails(s, before, p, step, mints);
        SettledKeeps(s, before, p, NextRaw(s, step).proc.value, mints);
        assert Going(NextRaw(s, step), before, NextRaw(s, step).proc.value, mints);
      }
      else if step.PersistAgain? || step.PruneReceipt? { GoingRewrite(s, before, p, step, mints); }
      else { GoingAside(s, before, p, step, mints); }
      hide NextRaw, Going, WithheldOnDisk, Load;
    }
  }

  lemma PeriodObserved(s: State, before: Disk, mints: bool)
    requires Period(s, before, mints)
    ensures Period(Observe(s), before, mints)
  {
    hide Ledger, Named, WithheldOnDisk, Load, Shut, Opened, Lists;
    if s.proc.Some? && Withholding(s, s.proc.value) { assert Withholding(Observe(s), s.proc.value); }
  }

  // ---------------------------------------------------------------- the theorem

  /** A fresh decision stood on disk at some point of the run. */
  ghost predicate FreshDuring(s: State, steps: seq<Step>) {
    exists i :: 0 <= i <= |steps| && Fresh(s.cfg, s.disk, Run(s, steps[..i]).disk)
  }

  lemma NotFreshBefore(s: State, steps: seq<Step>)
    requires steps != [] && !FreshDuring(s, steps)
    ensures !FreshDuring(s, steps[..|steps| - 1]) && !Fresh(s.cfg, s.disk, Run(s, steps).disk)
  {
    hide Fresh, Run;
    var front := steps[..|steps| - 1];
    forall i | 0 <= i <= |front| ensures front[..i] == steps[..i] {}
    assert steps[..|steps|] == steps;
  }

  lemma {:induction false} PeriodRun(s: State, steps: seq<Step>, mints: bool)
    requires Period(s, s.disk, mints) && SparedRun(s, steps, mints) && !FreshDuring(s, steps)
    ensures Period(Run(s, steps), s.disk, mints) && Run(s, steps).cfg == s.cfg
  {
    if steps != [] {
      NotFreshBefore(s, steps);
      hide Period, Spared, Fresh, NextRaw, FreshDuring;
      var front, step := steps[..|steps| - 1], steps[|steps| - 1];
      PeriodRun(s, front, mints);
      var m := Run(s, front);
      assert Run(s, steps).disk == NextRaw(m, step).disk;
      PeriodStep(m, s.disk, step, mints);
      PeriodObserved(NextRaw(m, step), s.disk, mints);
    }
  }

  /** What a state of the period lets happen: no grant is cleared for posting. */
  lemma PeriodHolds(s: State, before: Disk, mints: bool)
    requires Period(s, before, mints)
    ensures Resolve(s.cfg, s.disk) == Unknown
    ensures s.proc.Some? && s.proc.value.live == Granted ==> Grant in s.proc.value.accepted
    ensures s.proc.Some? && s.proc.value.pass.Cleared? ==> !s.proc.value.pass.r.granted
  {
    WithheldConcludes(s.cfg, s.disk);
    hide Resolve, Ledger, Named, WithheldOnDisk, Load, Shut, Lists;
  }

  lemma ServerGrows(s: State, step: Step)
    ensures var t := Next(s, step);
            t.server == s.server || (s.proc.Some? && s.proc.value.pass.Cleared? && t.server == s.server + [s.proc.value.pass.r])
  {
    hide Boot, BeginTurn, FastHalf, SlotStep, MarkStep, Append, RetryPersist, PickStep, CheckStep, AnswerStep, Prune;
  }

  lemma {:induction false} NothingGrantedPosted(s: State, steps: seq<Step>, mints: bool)
    requires Period(s, s.disk, mints) && SparedRun(s, steps, mints) && !FreshDuring(s, steps)
    ensures forall r :: r in Run(s, steps).server ==> r in s.server || !r.granted
  {
    if steps != [] {
      NotFreshBefore(s, steps);
      var front, step := steps[..|steps| - 1], steps[|steps| - 1];
      NothingGrantedPosted(s, front, mints);
      PeriodRun(s, front, mints);
      PeriodHolds(Run(s, front), s.disk, mints);
      ServerGrows(Run(s, front), step);
      hide Next, Period, Spared, Fresh, FreshDuring, Resolve;
    }
  }

  /**
   Withheld stays withheld. The record holds a grant, and the trail beside it cannot be read or the record
   bears the mark. Through any number of starts, failed writes of marks, records and receipts, refused
   rewrites, posted and pruned denials, decisions and crashes, until a fresh decision stands on disk, as a
   receipt the files did not list or as a record: no start resolves to granted, a process serves as granted
   only on a grant decided in that very process, and no grant reaches the server. Except where a failed
   grant mint and an early judgement of a denial come together in one run. Keys in the file count as used:
   no key is minted twice.
   */
  lemma WithheldStaysWithheld(s: State, steps: seq<Step>)
    requires s.proc.None? && s.cfg.digest != "" && WithheldOnDisk(s.cfg, s.disk)
    requires forall e :: e in Listed(s.disk.trail) ==> e.key in s.used
    requires GrantsMint(s, steps) || DenialsUnraced(s, steps)
    requires !FreshDuring(s, steps)
    ensures var e := Run(s, steps);
            && e.cfg == s.cfg && WithheldOnDisk(s.cfg, e.disk) && Resolve(s.cfg, e.disk) == Unknown
            && (e.proc.Some? && e.proc.value.live == Granted ==> Grant in e.proc.value.accepted)
            && (forall r :: r in e.server ==> r in s.server || !r.granted)
  {
    var mints: bool :| SparedRun(s, steps, mints);
    assert Period(s, s.disk, mints) by { hide Load; }
    hide SparedRun, Run, FreshDuring;
    PeriodRun(s, steps, mints);
    PeriodHolds(Run(s, steps), s.disk, mints);
    NothingGrantedPosted(s, steps, mints);
  }

  // ---------------------------------------------------------------- where it stops

  const CFG := Limits.CFG
  const DENIAL := Limits.Denial()

  /** A recorded grant beside a trail that cannot be read. */
  function Unread(): State {
    State(CFG, Disk(UnusableTrail([]), Limits.OldGrant()), None, [], {}, {}, {})
  }

  /**
   The mark cannot be written; a denial's record and receipt cannot either, a pass judges the receipt before
   its mark, a grant without a key takes the slot, and the denial is delivered and pruned.
   */
  function Lost(): seq<Step> {
    [Start(true, false), Decide(Deny), Begin(1, true), WriteRecord(false), SettleSlot, Mint(Some("d"), 10), AppendReceipt(false),
    Pick, Check, MarkOwed, Finish, Decide(Grant), Begin(2, true), Mint(None, 0), SettleSlot,
    Check, Check, Check, Send(true), Answer(Ack), PruneReceipt(true), Crash]
  }

  lemma LostBegins()
    ensures |Lost()| == 22 && Lost()[0] == Start(true, false) && Lost()[1] == Decide(Deny) && Lost()[2] == Begin(1, true)
    ensures Lost()[3] == WriteRecord(false) && Lost()[4] == SettleSlot && Lost()[5] == Mint(Some("d"), 10)
    ensures Lost()[6] == AppendReceipt(false) && Lost()[7] == Pick && Lost()[8] == Check && Lost()[9] == MarkOwed && Lost()[10] == Finish
  {
  }

  lemma LostEnds()
    ensures |Lost()| == 22
    ensures Lost()[11] == Decide(Grant) && Lost()[12] == Begin(2, true) && Lost()[13] == Mint(None, 0) && Lost()[14] == SettleSlot
    ensures Lost()[15] == Check && Lost()[16] == Check && Lost()[17] == Check && Lost()[18] == Send(true) && Lost()[19] == Answer(Ack)
    ensures Lost()[20] == PruneReceipt(true) && Lost()[21] == Crash
  {
  }

  predicate Stale(disk: Disk) {
    Listed(disk.trail) == [] && disk.record == Unread().disk.record
  }

  ghost predicate Come(i: nat, t: State) {
    i <= |Lost()| && Limits.Looks(Run(Unread(), Lost()[..i]), t) && forall j :: 0 <= j <= i ==> Stale(Run(Unread(), Lost()[..j]).disk)
  }

  lemma SameNext(s: State, t: State, step: Step)
    requires Limits.Looks(s, t)
    ensures Limits.Looks(Next(s, step), NextRaw(t, step))
  {
    hide Boot, BeginTurn, FastHalf, SlotStep, MarkStep, Append, RetryPersist, PickStep, CheckStep, AnswerStep, Prune;
  }

  lemma Go(i: nat, t: State) returns (u: State)
    requires i < |Lost()| && Come(i, t) && Stale(NextRaw(t, Lost()[i]).disk)
    ensures u == NextRaw(t, Lost()[i]) && Come(i + 1, u)
  {
    hide Lost, Unread, Next, NextRaw;
    u := NextRaw(t, Lost()[i]);
    SameNext(Run(Unread(), Lost()[..i]), t, Lost()[i]);
    RunTo(i);
    hide Run;
  }

  lemma RunTo(i: nat)
    requires i < |Lost()|
    ensures Run(Unread(), Lost()[..i + 1]) == Next(Run(Unread(), Lost()[..i]), Lost()[i])
  {
    hide Lost, Unread, Next;
    assert Lost()[..i + 1][..i] == Lost()[..i];
  }

  /** A step within the process. */
  lemma GoIn(i: nat, t: State) returns (u: State)
    requires i < |Lost()| && Come(i, t) && t.proc.Some? && t.cfg == CFG && Limits.Inner(Lost()[i])
    ensures u == t.(proc := Some(Limits.ProcAfter(CFG, t.proc.value, Lost()[i]))) && Come(i + 1, u)
  {
    hide Lost, Limits.Inner;
    InnerIs(t, Lost()[i]);
    assert Stale(t.disk) by { assert Stale(Run(Unread(), Lost()[..i]).disk); hide Unread, Run; }
    hide Limits.ProcAfter, NextRaw, Come, Unread;
    u := Go(i, t);
  }

  lemma InnerIs(t: State, step: Step)
    requires t.proc.Some? && Limits.Inner(step)
    ensures NextRaw(t, step) == t.(proc := Some(Limits.ProcAfter(t.cfg, t.proc.value, step)))
  {
    hide FastHalf, BeginTurn, SlotStep, MarkStep, PickStep, CheckStep, AnswerStep;
  }

  function Box0(): Outbox {
    Empty(true).(lastRead := ReadUnusable, grantsUnprovable := true, preserveUnusable := true)
  }

  function Box1(): Outbox {
    Empty(true).(receipts := [DENIAL], own := {"d"}, dirty := true, lastRead := ReadParsed)
  }

  function Started(): Proc {
    Proc(Unknown, 0, Box0(), Some(-10), None, None, [], Idle, Resting, Unknown, [], {})
  }

  function Denying(slow: Slow): Proc {
    Started().(live := Denied, epoch := 1, tickets := [Ticket(Deny, 0)], accepted := [Deny], lastStamp := Some(1), slow := slow)
  }

  function InWindow(pass: Pass): State {
    Unread().(used := {"d"}, proc := Some(Denying(DenyAppended(DENIAL, false)).(recordOwed := Some(Owed(Deny, 1)), box := Box1(), pass := pass)))
  }

  lemma ToStarted() returns (t: State)
    ensures t == Unread().(proc := Some(Started())) && Come(1, t)
  {
    assert Lost()[..0] == [];
    assert Come(0, Unread());
    Boots();
    LostBegins();
    hide Lost, Come, Boot;
    t := Go(0, Unread());
  }

  lemma Boots()
    ensures Boot(CFG, Unread().disk, true, false) == (Unread().disk, Started())
  {
    assert LoadBox(UnusableTrail([]), Limits.ME) == Empty(true).(lastRead := ReadUnusable);
  }

  lemma Denies()
    ensures BeginTurn(FastHalf(Started(), Deny), 1, true) == Denying(DenyStamped(Deny, 1))
  {
    assert [] + [Ticket(Deny, 0)] == [Ticket(Deny, 0)];
  }

  /** The record write fails and fills the slot; the receipt gets its key. */
  function Minted(): Proc {
    Denying(DenyMinted(DENIAL, false)).(recordOwed := Some(Owed(Deny, 1)))
  }

  lemma ToDenying() returns (t: State)
    ensures t == Unread().(proc := Some(Denying(DenyStamped(Deny, 1)))) && Come(3, t)
  {
    t := ToStarted();
    LostBegins();
    hide Lost;
    Denies();
    hide Come, FastHalf, BeginTurn, Started;
    t := GoIn(1, t);
    t := GoIn(2, t);
    assert t == Unread().(proc := Some(Denying(DenyStamped(Deny, 1))));
  }

  lemma Fills()
    ensures SlotStep(Denying(DenyRecorded(Deny, 1, false))) == Denying(DenySettled(Deny, 1, false)).(recordOwed := Some(Owed(Deny, 1)))
  {
  }

  lemma ToMinted() returns (t: State)
    ensures t == Unread().(used := {"d"}, proc := Some(Minted())) && Come(6, t)
  {
    t := ToDenying();
    Fills();
    LostBegins();
    hide Lost, Come, SlotStep;
    t := GoIn(3, t);
    t := GoIn(4, t);
    assert {} + {"d"} == {"d"};
    t := Go(5, t);
  }

  lemma ToWindow() returns (t: State)
    ensures t == InWindow(Resting) && Come(7, t)
  {
    t := ToMinted();
    SaveMissed();
    LostBegins();
    hide Lost, Come, NextRaw;
    t := Go(6, t);
  }

  lemma SaveMissed()
    ensures NextRaw(Unread().(used := {"d"}, proc := Some(Minted())), AppendReceipt(false)) == InWindow(Resting)
  {
    SaveFails();
    hide Append;
  }

  lemma SaveFails()
    ensures var s := Append(Box0(), UnusableTrail([]), DENIAL, false);
            s.box == Box1() && s.file == UnusableTrail([]) && FailedDurably(s.error)
  {
    var box := Box0().(own := {"d"}, receipts := [DENIAL]);
    assert Box0().own + {"d"} == {"d"} && Box0().receipts + [DENIAL] == [DENIAL];
    hide Merged, Shed, Evict, Overflow;
  }

  /** The pass has judged the first hold; the denial is marked and served, and a grant without a key takes the slot. */
  function Overtaken(pass: Pass): State {
    Unread().(used := {"d"}, proc := Some(
      Denying(Served).(live := Granted, tickets := [Ticket(Grant, 1)], accepted := [Deny, Grant], lastStamp := Some(2),
                       recordOwed := Some(Owed(Grant, 2)), mintOwed := Some(Owed(Grant, 2)),
                       box := Box1().(owed := {"d"}), pass := pass)))
  }

  lemma ToJudged() returns (t: State)
    ensures t == InWindow(Checking(DENIAL, 1)) && Come(9, t)
  {
    t := ToWindow();
    JudgedFirst();
    LostBegins();
    hide Lost, Come, PickStep, CheckStep;
    t := GoIn(7, t);
    t := GoIn(8, t);
  }

  lemma JudgedFirst()
    ensures PickStep(CFG, InWindow(Resting).proc.value) == InWindow(Checking(DENIAL, 0)).proc.value
    ensures CheckStep(CFG, InWindow(Checking(DENIAL, 0)).proc.value) == InWindow(Checking(DENIAL, 1)).proc.value
  {
    assert NextUp([DENIAL], false, Limits.ME) == Some(DENIAL);
  }

  lemma Overtakes()
    ensures var p := InWindow(Checking(DENIAL, 1)).proc.value;
            var m := MarkStep(p);
            && m.slow == Served && m.tickets != []
            && var q := BeginTurn(FastHalf(m.(tickets := m.tickets[1..], slow := Idle), Grant), 2, true);
               q == Overtaken(Checking(DENIAL, 1)).proc.value.(slow := GrantStamped(2), recordOwed := Some(Owed(Deny, 1)), mintOwed := None)
  {
    assert [Deny] + [Grant] == [Deny, Grant] && {} + {"d"} == {"d"};
    assert [Ticket(Deny, 0)][1..] == [] && [] + [Ticket(Grant, 1)] == [Ticket(Grant, 1)];
  }

  lemma Unminted()
    ensures var q := Overtaken(Checking(DENIAL, 1)).proc.value;
            SlotStep(q.(slow := GrantUnminted(2), recordOwed := Some(Owed(Deny, 1)))) == q
  {
  }

  /** The grant is at the lock, its key not yet minted. */
  function Granting(): State {
    var t := Overtaken(Checking(DENIAL, 1));
    t.(proc := Some(t.proc.value.(slow := GrantStamped(2), recordOwed := Some(Owed(Deny, 1)), mintOwed := None)))
  }

  lemma ToGranting() returns (t: State)
    ensures t == Granting() && Come(13, t)
  {
    t := ToJudged();
    Overtakes();
    LostBegins();
    LostEnds();
    hide Lost, Come, MarkStep, FastHalf, BeginTurn;
    t := GoIn(9, t);
    t := GoIn(10, t);
    t := GoIn(11, t);
    t := GoIn(12, t);
  }

  lemma ToOvertaken() returns (t: State)
    ensures t == Overtaken(Checking(DENIAL, 1)) && Come(15, t)
  {
    t := ToGranting();
    Unminted();
    LostEnds();
    hide Lost, Come, SlotStep;
    t := GoIn(13, t);
    t := GoIn(14, t);
  }

  lemma OtherHolds(n: nat)
    requires 1 <= n <= 3
    ensures var t := Overtaken(Checking(DENIAL, n));
            t.proc.Some? && t.cfg == CFG &&
            t.(proc := Some(CheckStep(CFG, t.proc.value))) == Overtaken(if n < 3 then Checking(DENIAL, n + 1) else Cleared(DENIAL))
  {
  }

  lemma Delivers()
    ensures NextRaw(Overtaken(Cleared(DENIAL)), Send(true)) == Overtaken(InFlight(DENIAL, true)).(server := [DENIAL])
    ensures AnswerStep(Overtaken(InFlight(DENIAL, true)).proc.value, Ack) == Overtaken(Settling(DENIAL)).proc.value
  {
    assert [] + [DENIAL] == [DENIAL];
  }

  lemma OneHold(n: nat, t: State) returns (u: State)
    requires 1 <= n <= 3 && 14 + n < |Lost()| && Lost()[14 + n] == Check
    requires t == Overtaken(Checking(DENIAL, n)) && Come(14 + n, t)
    ensures u == Overtaken(if n < 3 then Checking(DENIAL, n + 1) else Cleared(DENIAL)) && Come(15 + n, u)
  {
    OtherHolds(n);
    hide *;
    Limits.CheckInner(CFG, t.proc.value);
    u := GoIn(14 + n, t);
  }

  lemma ToCleared() returns (t: State)
    ensures t == Overtaken(Cleared(DENIAL)) && Come(18, t)
  {
    t := ToOvertaken();
    LostEnds();
    hide *;
    t := OneHold(1, t);
    t := OneHold(2, t);
    t := OneHold(3, t);
  }

  lemma ToSettling() returns (t: State)
    ensures t == Overtaken(Settling(DENIAL)).(server := [DENIAL]) && Come(20, t)
  {
    t := ToCleared();
    Delivers();
    LostEnds();
    hide Lost, Come, AnswerStep, NextRaw;
    t := Go(18, t);
    t := GoIn(19, t);
  }

  lemma PruneEmpties()
    ensures Prune(Box1().(owed := {"d"}), UnusableTrail([]), "d", true).file == ParsedTrail([])
  {
    var box := Box1().(owed := {"d"});
    assert box.receipts[0].key == "d" && Without(box.receipts, "d") == [];
    var b := Unlisted(box, "d");
    assert Merged(b, UnusableTrail([]), false) == [];
    assert FileBytes([]) <= READ_LIMIT;
    hide Unlisted, Merged;
  }

  /**
   Without the conditions on mints and on races together a withheld grant is released by an empty trail:
   in no state of the run a fresh decision is on disk, a denial was processed by the server, and the next
   start resolves to granted.
   */
  lemma KeylessGrantReleases()
    ensures WithheldOnDisk(CFG, Unread().disk) && Unread().proc.None? && !FreshDuring(Unread(), Lost())
    ensures var e := Run(Unread(), Lost()); e.proc.None? && e.server == [DENIAL] && Resolve(CFG, e.disk) == Granted
  {
    var t := ToPruned();
    t := ToEnd(t);
    StaleIsNotFresh(t);
    ReleasedIs();
    hide Lost, Resolve, Unread, Run, FreshDuring, WithheldOnDisk;
  }

  lemma ToEnd(t: State) returns (u: State)
    requires Come(21, t) && t.proc.Some? && t.disk == Disk(ParsedTrail([]), Unread().disk.record)
    ensures Come(|Lost()|, u) && u == t.(proc := None)
    ensures var e := Run(Unread(), Lost()); e.proc.None? && e.server == t.server && e.disk == t.disk
  {
    LostEnds();
    assert Lost()[..22] == Lost();
    hide Lost, Unread;
    assert NextRaw(t, Crash) == t.(proc := None);
    hide NextRaw, Run;
    u := Go(21, t);
  }

  lemma ReleasedIs()
    ensures Resolve(CFG, Disk(ParsedTrail([]), Unread().disk.record)) == Granted
    ensures WithheldOnDisk(CFG, Unread().disk) && Unread().proc.None?
  {
  }

  lemma ToPruned() returns (t: State)
    ensures t.disk == Disk(ParsedTrail([]), Unread().disk.record) && t.server == [DENIAL] && t.proc.Some? && t.cfg == CFG && Come(21, t)
  {
    t := ToSettling();
    Prunes();
    LostEnds();
    hide Lost, Come, NextRaw;
    t := Go(20, t);
  }

  lemma Prunes()
    ensures var t := NextRaw(Overtaken(Settling(DENIAL)).(server := [DENIAL]), PruneReceipt(true));
            t.disk == Disk(ParsedTrail([]), Unread().disk.record) && t.server == [DENIAL] && t.proc.Some? && t.cfg == CFG
  {
    PruneEmpties();
    hide Prune;
  }

  lemma StaleIsNotFresh(t: State)
    requires Come(|Lost()|, t)
    ensures !FreshDuring(Unread(), Lost())
  {
    forall i | 0 <= i <= |Lost()| ensures !Fresh(CFG, Unread().disk, Run(Unread(), Lost()[..i]).disk) {
      assert Stale(Run(Unread(), Lost()[..i]).disk);
      hide Run;
    }
    hide Run, Fresh;
  }
}
