/**
 One scope, one process: how mirror and file move together through the reloading,
 merging and evicting save, whatever fails and whatever the settled memory forgets.
 */
module ConsentMirror {
  import opened Basics
  import opened ConsentReceipts
  import opened ConsentOutbox
  import opened ConsentOutboxLaws

  /** One scope's trail in decision order. */
  ghost predicate Trail(rs: seq<Receipt>, me: Identity) {
    && (forall i :: 0 <= i < |rs| ==> InScope(rs[i], me) && rs[i].key != "")
    && (forall i, j :: 0 <= i < j < |rs| ==> rs[i].at < rs[j].at && rs[i].key != rs[j].key)
  }

  /** A key names one receipt in both lists, and what one list has beyond the other is newer than all the other has. */
  ghost predicate Agree(listed: seq<Receipt>, rs: seq<Receipt>) {
    forall d, m :: d in listed && m in rs ==> (d.key == m.key ==> d == m) && (HasKey(listed, m.key) || d.at < m.at)
  }

  /** What the mirror does not own the file lists, and nothing in the mirror is settled. */
  ghost predicate Sourced(box: Outbox, listed: seq<Receipt>) {
    && (forall k :: k in box.own ==> HasKey(box.receipts, k))
    && (forall m :: m in box.receipts ==> (m.key in box.own || m in listed) && m.key !in box.settled)
  }

  ghost predicate Linked(box: Outbox, file: TrailFile, me: Identity, used: set<string>) {
    && box.durable && !file.UnusableTrail? && !box.grantsUnprovable && !box.preserveUnusable && box.lastRead != ReadUnusable
    && Trail(box.receipts, me) && Trail(Listed(file), me)
    && Agree(Listed(file), box.receipts)
    && Sourced(box, Listed(file))
    && (!box.dirty ==> Listed(file) == box.receipts)
    && (forall k :: k in box.settled || HasKey(box.receipts, k) || HasKey(Listed(file), k) ==> k in used)
  }

  /**
   What a save may make of the list it starts from: it keeps every receipt, or cuts the oldest down
   to the cap; what else appears in it the file listed.
   */
  ghost predicate Sifted(base: seq<Receipt>, listed: seq<Receipt>, out: seq<Receipt>) {
    && (forall e :: e in out ==> e in base || e in listed)
    && (forall e :: e in base ==> e in out || (|out| >= CAP && e.at < out[0].at))
  }

  // ---------------------------------------------------------------- trails

  lemma TrailIsOrdered(rs: seq<Receipt>, me: Identity)
    requires Trail(rs, me)
    ensures DistinctKeys(rs) && ScopeOrdered(rs)
  {
  }

  lemma OrderedIsTrail(rs: seq<Receipt>, me: Identity)
    requires DistinctKeys(rs) && ScopeOrdered(rs)
    requires forall e :: e in rs ==> InScope(e, me) && e.key != ""
    ensures Trail(rs, me)
  {
    forall i | 0 <= i < |rs| ensures InScope(rs[i], me) && rs[i].key != "" { assert rs[i] in rs; }
    forall i, j | 0 <= i < j < |rs| ensures rs[i].at < rs[j].at && rs[i].key != rs[j].key {
      assert rs[i] in rs && rs[j] in rs;
    }
  }

  /** In a trail the stamp and the key each tell the receipt, and the last one is the newest. */
  lemma TrailTells(rs: seq<Receipt>, me: Identity, a: Receipt, b: Receipt)
    requires Trail(rs, me) && a in rs && b in rs
    ensures a.at == b.at || a.key == b.key ==> a == b
    ensures b.at <= rs[|rs| - 1].at && rs[0].at <= b.at && InScope(b, me) && b.key != ""
  {
    var i :| 0 <= i < |rs| && rs[i] == a;
    var j :| 0 <= j < |rs| && rs[j] == b;
  }

  lemma CutIsTrail(rs: seq<Receipt>, me: Identity, n: nat)
    requires Trail(rs, me) && n <= |rs|
    ensures Trail(rs[n..], me)
    ensures forall e :: e in rs ==> e in rs[n..] || (n < |rs| ==> e.at < rs[n..][0].at)
    ensures forall e :: e in rs[n..] ==> e in rs
  {
    forall e | e in rs ensures e in rs[n..] || (n < |rs| ==> e.at < rs[n..][0].at) {
      var i :| 0 <= i < |rs| && rs[i] == e;
      if i >= n { assert rs[n..][i - n] == e; }
    }
  }

  lemma HasKeyIn(rs: seq<Receipt>, k: string)
    ensures HasKey(rs, k) <==> exists e :: e in rs && e.key == k
  {
    if HasKey(rs, k) {
      var i :| 0 <= i < |rs| && rs[i].key == k;
      assert rs[i] in rs;
    }
    if e :| e in rs && e.key == k {
      var i :| 0 <= i < |rs| && rs[i] == e;
      assert rs[i].key == k;
    }
  }

  // ---------------------------------------------------------------- the merge

  lemma LinkedDisjoint(box: Outbox, file: TrailFile, me: Identity, used: set<string>)
    requires Linked(box, file, me, used)
    ensures Disjoint(box) && box.durable && !file.UnusableTrail?
  {
    forall k | k in box.own ensures k !in box.settled {
      var i :| 0 <= i < |box.receipts| && box.receipts[i].key == k;
      assert box.receipts[i] in box.receipts;
    }
  }

  /** The merged view has every receipt of the mirror, what else it has the file lists, and nothing in it is settled. */
  lemma MergedHas(box: Outbox, file: TrailFile, me: Identity, used: set<string>, decisive: bool)
    requires Linked(box, file, me, used)
    ensures var x := Merged(box, file, decisive);
            && x == MergeOwn(MergeDisk(Listed(file), box.settled), box.receipts, box.own)
            && Merges(box, Listed(file), x) && DistinctKeys(x)
  {
    var rs, listed := box.receipts, Listed(file);
    LinkedDisjoint(box, file, me, used);
    MergedExactly(box, file, decisive);
    var view := MergeDisk(listed, box.settled);
    MergeDiskFacts(listed, box.settled);
    MergeOwnFacts(view, rs, box.own);
    var x := Merged(box, file, decisive);
    hide MergeOwn, MergeDisk, DistinctKeys;
    forall e | e in x ensures (e in rs || e in listed) && e.key !in box.settled { HasKeyIn(x, e.key); }
    forall m | m in rs ensures m in x {
      HasKeyIn(rs, m.key);
      HasKeyIn(listed, m.key);
      HasKeyIn(x, m.key);
      var e :| e in x && e.key == m.key;
      hide HasKey;
      if e in rs { TrailTells(rs, me, e, m); }
    }
  }

  lemma MergedOrdered(box: Outbox, file: TrailFile, me: Identity, used: set<string>, decisive: bool)
    requires Linked(box, file, me, used)
    ensures ScopeOrdered(Merged(box, file, decisive))
  {
    var rs, listed := box.receipts, Listed(file);
    TrailIsOrdered(rs, me);
    TrailIsOrdered(listed, me);
    var view := MergeDisk(listed, box.settled);
    MergeDiskFacts(listed, box.settled);
    MergeDiskOrdered(listed, box.settled);
    MergedHas(box, file, me, used, decisive);
    assert JoinsNewer(view, rs, box.own) by {
      forall d, r | d in view && r in rs && r.key in box.own && d.scope == r.scope && !HasKey(view, r.key)
        ensures d.at < r.at
      {
        assert !HasKey(listed, r.key);
      }
    }
    MergeOwnOrdered(view, rs, box.own);
  }

  lemma MergedTrail(box: Outbox, file: TrailFile, me: Identity, used: set<string>, decisive: bool)
    requires Linked(box, file, me, used)
    ensures Trail(Merged(box, file, decisive), me)
  {
    MergedHas(box, file, me, used, decisive);
    MergedOrdered(box, file, me, used, decisive);
    var x := Merged(box, file, decisive);
    forall e | e in x ensures InScope(e, me) && e.key != "" {
      if e in box.receipts { TrailTells(box.receipts, me, e, e); } else { TrailTells(Listed(file), me, e, e); }
    }
    hide Linked, Merged, Trail;
    OrderedIsTrail(x, me);
  }

  // ---------------------------------------------------------------- the save

  /** What a save of a linked mirror does, as the run properties need it. */
  ghost predicate SaveOutcome(base: Outbox, file: TrailFile, s: Saved, me: Identity, used: set<string>) {
    && Linked(s.box, s.file, me, used)
    && s.error != EvidenceHeld
    && Sifted(base.receipts, Listed(file), s.box.receipts)
    && (s.error == Stored ==> Listed(s.file) == s.box.receipts && !s.box.dirty)
    && (s.error != Stored ==> s.file == file && s.box.dirty && s.box.receipts == base.receipts && s.box.owed == base.owed)
    && MarksCut(base, s.box)
    && (forall k :: k in s.box.settled ==> k in base.settled || HasKey(base.receipts, k) || HasKey(Listed(file), k))
  }

  /** Marks go with the receipts the cut takes, and only then; the counter tells whether it took any. */
  ghost predicate MarksCut(base: Outbox, box: Outbox) {
    && (forall k :: k in box.owed ==> k in base.owed)
    && (forall e :: e in box.receipts && e.key in base.owed ==> e.key in box.owed)
    && (forall e :: e in base.receipts && e !in box.receipts ==> e.key !in box.owed)
    && box.evicted >= base.evicted
    && (box.evicted == base.evicted ==> box.owed == base.owed && forall e :: e in base.receipts ==> e in box.receipts)
  }

  /** `x` is the merged view. */
  ghost predicate Merges(box: Outbox, listed: seq<Receipt>, x: seq<Receipt>) {
    && (forall e :: e in x ==> (e in box.receipts || e in listed) && e.key !in box.settled)
    && (forall m :: m in box.receipts ==> m in x)
  }

  lemma SaveLinked(box: Outbox, file: TrailFile, me: Identity, used: set<string>, decisive: bool, ok: bool)
    requires Linked(box, file, me, used)
    ensures SaveOutcome(box, file, Save(box, file, decisive, ok), me, used)
  {
    LinkedDisjoint(box, file, me, used);
    var s := Save(box, file, decisive, ok);
    if s.error == Stored { StoredLinked(box, file, me, used, decisive, ok); }
    else { RefusedLinked(box, file, me, used, decisive, ok); }
  }

  lemma RefusedLinked(box: Outbox, file: TrailFile, me: Identity, used: set<string>, decisive: bool, ok: bool)
    requires Linked(box, file, me, used) && Save(box, file, decisive, ok).error != Stored
    ensures SaveOutcome(box, file, Save(box, file, decisive, ok), me, used)
  {
    SaveRefusesWhole(box, file, decisive, ok);
    NotHeld(box, file, decisive, ok);
    var s := Save(box, file, decisive, ok);
    hide Save, Trail, Agree;
    assert Sourced(s.box, Listed(file));
  }

  lemma NotHeld(box: Outbox, file: TrailFile, decisive: bool, ok: bool)
    requires !file.UnusableTrail?
    ensures Save(box, file, decisive, ok).error != EvidenceHeld
    ensures Save(box, file, decisive, ok) == SaveMerged(Freshened(box, decisive), file, Merged(box, file, decisive), ok)
  {
    assert Merged(Freshened(box, decisive), file, decisive) == Merged(box, file, decisive);
    hide Merged, Shed;
  }

  lemma StoredLinked(box: Outbox, file: TrailFile, me: Identity, used: set<string>, decisive: bool, ok: bool)
    requires Linked(box, file, me, used) && Save(box, file, decisive, ok).error == Stored
    ensures SaveOutcome(box, file, Save(box, file, decisive, ok), me, used)
  {
    LinkedDisjoint(box, file, me, used);
    StoredIs(box, file, decisive, ok);
    MergedHas(box, file, me, used, decisive);
    MergedTrail(box, file, me, used, decisive);
    var x := Merged(box, file, decisive);
    StoredOutcome(box, file, me, used, Freshened(box, decisive), x);
    hide Save, Merged, Linked, Trail, SaveOutcome, Written;
  }

  /** The merged view, cut down to the cap and written. */
  lemma StoredOutcome(box: Outbox, file: TrailFile, me: Identity, used: set<string>, b: Outbox, x: seq<Receipt>)
    requires Linked(box, file, me, used) && Trail(x, me)
    requires b == box.(lastRead := b.lastRead, grantsUnprovable := false, preserveUnusable := false) && b.lastRead != ReadUnusable
    requires Merges(box, Listed(file), x)
    ensures var n := Overflow(x);
            Written(x[n..]) == ParsedTrail(x[n..]) &&
            SaveOutcome(box, file, Saved(Evict(b, x, n).(dirty := false), ParsedTrail(x[n..]), Stored), me, used)
  {
    var n := Overflow(x);
    CutWritten(x, me, n);
    StoredSifted(box, Listed(file), me, x, n);
    CutLinked(box, file, me, used, b, x, n);
    CutOwed(box, file, me, b, x, n);
    CutSettled(box, file, me, b, x, n);
    hide Linked, Trail, MarksCut, Merges, Sifted, Evict, Written;
    assert Evict(b, x, n).receipts == x[n..] by { EvictLists(b, x, n); }
  }

  lemma EvictLists(b: Outbox, x: seq<Receipt>, n: nat)
    requires n <= |x|
    ensures Evict(b, x, n).receipts == x[n..]
  {
  }

  lemma CutWritten(x: seq<Receipt>, me: Identity, n: nat)
    requires Trail(x, me) && n <= |x|
    ensures Written(x[n..]) == ParsedTrail(x[n..])
  {
    CutIsTrail(x, me, n);
    TrailIsOrdered(x[n..], me);
  }

  lemma CutLinked(box: Outbox, file: TrailFile, me: Identity, used: set<string>, b: Outbox, x: seq<Receipt>, n: nat)
    requires Linked(box, file, me, used) && Trail(x, me) && n <= |x| && Merges(box, Listed(file), x)
    requires b == box.(lastRead := b.lastRead, grantsUnprovable := false, preserveUnusable := false) && b.lastRead != ReadUnusable
    ensures Linked(Evict(b, x, n).(dirty := false), ParsedTrail(x[n..]), me, used)
  {
    var out, gone := x[n..], KeysOf(x[..n]);
    CutIsTrail(x, me, n);
    CutKeys(x, me, n);
    OwnAgrees(out, me);
    StoredSourced(box, file, me, used, b, x, out, gone);
    var t := Evict(b, x, n).(dirty := false);
    StoredUsed(box, file, me, used, x, out, gone, t);
    SourcedBy(b.(own := b.own - (set k | k in gone), settled := SettleAll(b.settled, gone), receipts := out), t, out);
    hide Trail, HasKey, SettleAll, KeysOf, Sourced, Agree, Merges, CutApart;
  }

  lemma SourcedBy(a: Outbox, b: Outbox, listed: seq<Receipt>)
    requires Sourced(a, listed) && b.own == a.own && b.receipts == a.receipts && b.settled == a.settled
    ensures Sourced(b, listed)
  {
  }

  lemma CutOwed(box: Outbox, file: TrailFile, me: Identity, b: Outbox, x: seq<Receipt>, n: nat)
    requires Trail(x, me) && n <= |x| && Merges(box, Listed(file), x) && b.owed == box.owed && b.evicted == box.evicted
    ensures MarksCut(box, Evict(b, x, n).(dirty := false))
  {
    var out, gone := x[n..], KeysOf(x[..n]);
    CutKeys(x, me, n);
    StoredOwed(box, Listed(file), b, x, out, gone, n);
    hide Trail, KeysOf, Merges, CutApart, SettleAll;
  }

  lemma StoredSifted(box: Outbox, listed: seq<Receipt>, me: Identity, x: seq<Receipt>, n: nat)
    requires n == Overflow(x) && Merges(box, listed, x) && Trail(x, me)
    ensures Sifted(box.receipts, listed, x[n..])
  {
    CutIsTrail(x, me, n);
    hide Trail;
  }

  lemma OwnAgrees(rs: seq<Receipt>, me: Identity)
    requires Trail(rs, me)
    ensures Agree(rs, rs)
  {
    forall d, m | d in rs && m in rs ensures (d.key == m.key ==> d == m) && HasKey(rs, m.key) {
      TrailTells(rs, me, d, m);
      HasKeyIn(rs, m.key);
    }
  }

  lemma CutSettled(box: Outbox, file: TrailFile, me: Identity, b: Outbox, x: seq<Receipt>, n: nat)
    requires Trail(x, me) && n <= |x| && Merges(box, Listed(file), x) && b.settled == box.settled
    ensures forall k :: k in Evict(b, x, n).settled ==>
              k in box.settled || HasKey(box.receipts, k) || HasKey(Listed(file), k)
  {
    SettleAllFrom(box.settled, KeysOf(x[..n]));
    CutKeys(x, me, n);
    hide Trail, SettleAll, KeysOf;
    forall k | HasKey(x, k) ensures HasKey(box.receipts, k) || HasKey(Listed(file), k) {
      HasKeyIn(x, k);
      HasKeyIn(box.receipts, k);
      HasKeyIn(Listed(file), k);
    }
  }

  ghost predicate CutApart(x: seq<Receipt>, out: seq<Receipt>, gone: seq<string>) {
    && (forall e :: e in out ==> e in x && e.key !in gone && HasKey(out, e.key))
    && (forall e :: e in x && e !in out ==> e.key in gone)
    && (forall k :: k in gone ==> HasKey(x, k))
  }

  /** The keys of what the cut takes are exactly those it does not leave. */
  lemma CutKeys(x: seq<Receipt>, me: Identity, n: nat)
    requires Trail(x, me) && n <= |x|
    ensures CutApart(x, x[n..], KeysOf(x[..n]))
  {
    var out, gone := x[n..], KeysOf(x[..n]);
    TrailIsOrdered(x, me);
    KeysSplit(x, n);
    forall e | e in out ensures HasKey(out, e.key) && e.key !in gone { HasKeyIn(out, e.key); }
    forall e | e in x && e !in out ensures e.key in gone {
      var i :| 0 <= i < |x| && x[i] == e;
      assert i < n;
      assert x[..n][i] == e && gone[i] == e.key;
    }
  }

  lemma StoredOwed(box: Outbox, listed: seq<Receipt>, b: Outbox, x: seq<Receipt>, out: seq<Receipt>, gone: seq<string>, n: nat)
    requires b.owed == box.owed && b.evicted == box.evicted && Merges(box, listed, x) && CutApart(x, out, gone)
    requires n == 0 ==> out == x && gone == []
    ensures MarksCut(box, b.(receipts := out, owed := b.owed - (set k | k in gone), evicted := b.evicted + n))
  {
    if n == 0 { NothingGone(b, gone); }
  }

  lemma NothingGone(b: Outbox, gone: seq<string>)
    requires gone == []
    ensures b.owed - (set k | k in gone) == b.owed
  {
  }

  lemma StoredSourced(box: Outbox, file: TrailFile, me: Identity, used: set<string>, b: Outbox, x: seq<Receipt>,
                      out: seq<Receipt>, gone: seq<string>)
    requires Linked(box, file, me, used) && b.own == box.own && b.settled == box.settled
    requires Merges(box, Listed(file), x) && CutApart(x, out, gone)
    ensures Sourced(b.(own := b.own - (set k | k in gone), settled := SettleAll(b.settled, gone), receipts := out), out)
  {
    SettleAllFrom(box.settled, gone);
    hide SettleAll, Trail, Agree;
    forall k | k in box.own && k !in gone ensures HasKey(out, k) {
      HasKeyIn(box.receipts, k);
      var m :| m in box.receipts && m.key == k;
      assert m in x;
    }
  }

  lemma StoredUsed(box: Outbox, file: TrailFile, me: Identity, used: set<string>, x: seq<Receipt>, out: seq<Receipt>,
                   gone: seq<string>, t: Outbox)
    requires Linked(box, file, me, used)
    requires Merges(box, Listed(file), x) && CutApart(x, out, gone)
    requires t.receipts == out && t.settled == SettleAll(box.settled, gone)
    ensures forall k :: k in t.settled || HasKey(out, k) ==> k in used
  {
    SettleAllFrom(box.settled, gone);
    hide SettleAll, Trail, Agree, Sourced;
    forall k | HasKey(x, k) || HasKey(out, k) ensures k in used {
      HasKeyIn(x, k);
      HasKeyIn(out, k);
      HasKeyIn(box.receipts, k);
      HasKeyIn(Listed(file), k);
    }
  }

  /** A save's result does not depend on whether one was already owed. */
  lemma SaveIgnoresDebt(box: Outbox, file: TrailFile, decisive: bool, ok: bool)
    requires box.durable
    ensures Save(box, file, decisive, ok) == Save(box.(dirty := true), file, decisive, ok)
  {
    hide Shed, FileBytes, MergeDisk, MergeOwn, DropOwn;
  }

  // ---------------------------------------------------------------- append, prune, retry, load

  /** The mirror with a new receipt at its end, its save still owed, is linked. */
  lemma LongerLinked(box: Outbox, file: TrailFile, me: Identity, used: set<string>, r: Receipt)
    requires Linked(box, file, me, used)
    requires InScope(r, me) && r.key != "" && r.key in used && r.key !in box.settled
    requires !HasKey(box.receipts, r.key) && !HasKey(Listed(file), r.key)
    requires forall e :: e in box.receipts || e in Listed(file) ==> e.at < r.at
    ensures Linked(box.(own := box.own + {r.key}, receipts := box.receipts + [r], dirty := true), file, me, used)
  {
    var b := box.(own := box.own + {r.key}, receipts := box.receipts + [r], dirty := true);
    LongerTrail(box.receipts, me, r);
    LongerAgrees(Listed(file), box.receipts, r);
    LongerSourced(box, Listed(file), r);
    HasKeyAfter(box.receipts, r);
    hide Trail, Agree, HasKey;
    assert Sourced(b, Listed(file)) by { SourcedBy(box.(own := box.own + {r.key}, receipts := box.receipts + [r]), b, Listed(file)); }
    hide Sourced;
  }

  lemma LongerTrail(rs: seq<Receipt>, me: Identity, r: Receipt)
    requires Trail(rs, me) && InScope(r, me) && r.key != "" && !HasKey(rs, r.key)
    requires forall e :: e in rs ==> e.at < r.at
    ensures Trail(rs + [r], me)
  {
    var w := rs + [r];
    forall i, j | 0 <= i < j < |w| ensures w[i].at < w[j].at && w[i].key != w[j].key {
      if j == |rs| { assert w[i] in rs && rs[i].key != r.key; }
    }
  }

  lemma LongerAgrees(listed: seq<Receipt>, rs: seq<Receipt>, r: Receipt)
    requires Agree(listed, rs) && !HasKey(listed, r.key) && forall e :: e in listed ==> e.at < r.at
    ensures Agree(listed, rs + [r])
  {
    forall d, m | d in listed && m in rs + [r] ensures (d.key == m.key ==> d == m) && (HasKey(listed, m.key) || d.at < m.at) {
      if m == r { HasKeyIn(listed, r.key); } else { assert m in rs; }
    }
  }

  lemma LongerSourced(box: Outbox, listed: seq<Receipt>, r: Receipt)
    requires Sourced(box, listed) && r.key !in box.settled
    ensures Sourced(box.(own := box.own + {r.key}, receipts := box.receipts + [r]), listed)
  {
    HasKeyAfter(box.receipts, r);
  }

  lemma AppendLinked(box: Outbox, file: TrailFile, me: Identity, used: set<string>, r: Receipt, ok: bool)
    requires Linked(box, file, me, used)
    requires InScope(r, me) && r.key != "" && r.key in used && r.key !in box.settled
    requires !HasKey(box.receipts, r.key) && !HasKey(Listed(file), r.key)
    requires forall e :: e in box.receipts || e in Listed(file) ==> e.at < r.at
    ensures SaveOutcome(box.(own := box.own + {r.key}, receipts := box.receipts + [r]), file, Append(box, file, r, ok), me, used)
  {
    var base := box.(own := box.own + {r.key}, receipts := box.receipts + [r]);
    LongerLinked(box, file, me, used, r);
    SaveLinked(base.(dirty := true), file, me, used, true, ok);
    assert box.durable;
    hide Linked, Save, SaveOutcome;
    SaveIgnoresDebt(base, file, true, ok);
    OutcomeIgnoresDebt(base, file, Save(base, file, true, ok), me, used);
  }

  lemma OutcomeIgnoresDebt(base: Outbox, file: TrailFile, s: Saved, me: Identity, used: set<string>)
    requires SaveOutcome(base.(dirty := true), file, s, me, used)
    ensures SaveOutcome(base, file, s, me, used)
  {
    hide Linked, Sifted;
  }

  lemma KeyFurtherOn(rs: seq<Receipt>, key: string)
    requires HasKey(rs, key) && rs[0].key != key
    ensures HasKey(rs[1..], key)
  {
    var k :| 0 <= k < |rs| && rs[k].key == key;
    assert rs[1..][k - 1].key == key;
  }

  lemma CutFurtherOn(rs: seq<Receipt>, k: nat)
    requires k + 1 < |rs|
    ensures [rs[0]] + (rs[1..][..k] + rs[1..][k + 1..]) == rs[..k + 1] + rs[k + 2..]
  {
    assert [rs[0]] + rs[1..][..k] == rs[..k + 1] && rs[1..][k + 1..] == rs[k + 2..];
  }

  lemma {:induction false} WithoutKeeps(rs: seq<Receipt>, key: string) returns (i: nat)
    requires HasKey(rs, key)
    ensures i < |rs| && rs[i].key == key && Without(rs, key) == rs[..i] + rs[i + 1..]
  {
    if rs[0].key == key {
      i := 0;
    } else {
      KeyFurtherOn(rs, key);
      hide HasKey;
      var k := WithoutKeeps(rs[1..], key);
      i := k + 1;
      CutFurtherOn(rs, k);
    }
  }

  /** The one receipt of the key goes, the others keep their order. */
  lemma WithoutIs(rs: seq<Receipt>, me: Identity, key: string)
    requires Trail(rs, me) && HasKey(rs, key)
    ensures Trail(Without(rs, key), me)
    ensures forall e :: e in Without(rs, key) <==> e in rs && e.key != key
  {
    var i := WithoutKeeps(rs, key);
    hide Without;
    OneLessTrail(rs, me, i);
    OneLess(rs, me, i);
  }

  lemma OneLessTrail(rs: seq<Receipt>, me: Identity, i: nat)
    requires Trail(rs, me) && i < |rs|
    ensures Trail(rs[..i] + rs[i + 1..], me)
  {
    var w := rs[..i] + rs[i + 1..];
    forall k | 0 <= k < |w| ensures w[k] == rs[if k < i then k else k + 1] {}
  }

  lemma OneLess(rs: seq<Receipt>, me: Identity, i: nat)
    requires Trail(rs, me) && i < |rs|
    ensures forall e :: e in rs[..i] + rs[i + 1..] <==> e in rs && e.key != rs[i].key
  {
    var w := rs[..i] + rs[i + 1..];
    forall e ensures e in w <==> e in rs && e.key != rs[i].key {
      if e in rs && e.key != rs[i].key {
        var k :| 0 <= k < |rs| && rs[k] == e;
        assert w[if k < i then k else k - 1] == e;
      }
      if e in w {
        var k :| 0 <= k < |w| && w[k] == e;
        var at := if k < i then k else k + 1;
        assert rs[at] == e && at != i;
      }
    }
  }

  /** The mirror without one receipt, the rewrite still owed, is linked. */
  lemma UnlistedLinked(box: Outbox, file: TrailFile, me: Identity, used: set<string>, key: string)
    requires Linked(box, file, me, used) && HasKey(box.receipts, key)
    ensures Linked(Unlisted(box, key).(dirty := true), file, me, used)
  {
    var w := Without(box.receipts, key);
    var b := Unlisted(box, key).(dirty := true);
    hide Without, Settle;
    WithoutIs(box.receipts, me, key);
    UnlistedSourced(box, Listed(file), key, b, w);
    FewerAgree(Listed(file), box.receipts, w);
    UnlistedUsed(box.receipts, w, key);
    OneSettled(box.settled, key);
    hide Trail, Agree, Sourced, Without, HasKey, Settle;
  }

  lemma FewerAgree(listed: seq<Receipt>, rs: seq<Receipt>, w: seq<Receipt>)
    requires Agree(listed, rs) && forall e :: e in w ==> e in rs
    ensures Agree(listed, w)
  {
    hide HasKey;
  }

  lemma OneSettled(settled: seq<string>, key: string)
    ensures forall k :: k in Settle(settled, key) ==> k in settled || k == key
  {
  }

  lemma UnlistedUsed(rs: seq<Receipt>, w: seq<Receipt>, key: string)
    requires forall e :: e in w <==> e in rs && e.key != key
    ensures forall k :: HasKey(w, k) <==> HasKey(rs, k) && k != key
  {
    forall k ensures HasKey(w, k) <==> HasKey(rs, k) && k != key { HasKeyIn(w, k); HasKeyIn(rs, k); }
  }

  lemma UnlistedSourced(box: Outbox, listed: seq<Receipt>, key: string, b: Outbox, w: seq<Receipt>)
    requires Sourced(box, listed) && b.own == box.own - {key} && b.settled == Settle(box.settled, key) && b.receipts == w
    requires forall e :: e in w <==> e in box.receipts && e.key != key
    ensures Sourced(b, listed)
  {
    UnlistedUsed(box.receipts, w, key);
    assert forall k :: k in b.settled ==> k in box.settled || k == key;
    hide HasKey, Settle;
  }

  lemma PruneLinked(box: Outbox, file: TrailFile, me: Identity, used: set<string>, key: string, ok: bool)
    requires Linked(box, file, me, used) && HasKey(box.receipts, key)
    ensures SaveOutcome(Unlisted(box, key), file, Prune(box, file, key, ok), me, used)
  {
    var base := Unlisted(box, key);
    UnlistedLinked(box, file, me, used, key);
    SaveLinked(base.(dirty := true), file, me, used, false, ok);
    assert base.durable;
    hide Linked, Save, SaveOutcome, Unlisted, HasKey;
    SaveIgnoresDebt(base, file, false, ok);
    OutcomeIgnoresDebt(base, file, Save(base, file, false, ok), me, used);
  }

  lemma RetryLinked(box: Outbox, file: TrailFile, me: Identity, used: set<string>, ok: bool)
    requires Linked(box, file, me, used)
    ensures SaveOutcome(box, file, RetryPersist(box, file, ok), me, used)
  {
    if box.dirty { SaveLinked(box, file, me, used, false, ok); }
    hide Linked, Save, Sifted;
    assert Sifted(box.receipts, Listed(file), box.receipts) by { SiftedSelf(box.receipts, Listed(file)); }
    assert !box.dirty ==> Listed(file) == box.receipts by { LinkedTrails(box, file, me, used); }
  }

  lemma SiftedSelf(rs: seq<Receipt>, listed: seq<Receipt>)
    ensures Sifted(rs, listed, rs)
  {
  }

  /** A fresh process adopts the file as its mirror. */
  lemma LoadLinked(file: TrailFile, me: Identity, used: set<string>, owed: set<string>)
    requires !file.UnusableTrail? && Trail(Listed(file), me)
    requires forall k :: HasKey(Listed(file), k) ==> k in used
    ensures Linked(LoadBox(file, me).(owed := owed), file, me, used)
  {
    OwnAgrees(Listed(file), me);
    var box := LoadBox(file, me);
    forall m | m in box.receipts ensures m.key in box.own {
      var i :| 0 <= i < |box.receipts| && box.receipts[i] == m;
      assert InScope(box.receipts[i], me);
    }
  }

  // ---------------------------------------------------------------- what the rest needs to know

  lemma LinkedTrails(box: Outbox, file: TrailFile, me: Identity, used: set<string>)
    requires Linked(box, file, me, used)
    ensures Trail(box.receipts, me) && Trail(Listed(file), me) && Agree(Listed(file), box.receipts) && !HoldsGrants(box)
    ensures box.durable && !file.UnusableTrail?
    ensures forall k :: HasKey(Listed(file), k) || HasKey(box.receipts, k) ==> k in used
    ensures !box.dirty ==> Listed(file) == box.receipts
  {
  }

  lemma LinkedFresh(box: Outbox, file: TrailFile, me: Identity, used: set<string>, key: string)
    requires Linked(box, file, me, used) && key !in used
    ensures Linked(box, file, me, used + {key})
    ensures key !in box.settled && !HasKey(box.receipts, key) && !HasKey(Listed(file), key)
  {
  }

  /** Marks play no part in the link. */
  lemma LinkedMarks(box: Outbox, file: TrailFile, me: Identity, used: set<string>, owed: set<string>)
    requires Linked(box, file, me, used)
    ensures Linked(box.(owed := owed), file, me, used)
  {
  }

  lemma LatestIsLast(rs: seq<Receipt>, me: Identity)
    requires Trail(rs, me)
    ensures Latest(rs, me) == if rs == [] then None else Some(rs[|rs| - 1])
    ensures forall hold :: !hold ==> NextUp(rs, hold, me) == if rs == [] then None else Some(rs[0])
  {
  }

  lemma {:induction false} MaxAtIsLast(rs: seq<Receipt>, me: Identity)
    requires Trail(rs, me)
    ensures MaxAt(rs) == if rs == [] then None else Some(rs[|rs| - 1].at)
  {
    if rs != [] {
      MaxAtIsLast(rs[..|rs| - 1], me);
    }
  }
}
