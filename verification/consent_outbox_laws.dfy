/** What the merging save promises: conservation, its bounds, and reading back what it wrote. */
module ConsentOutboxLaws {
  import opened Basics
  import opened ConsentReceipts
  import opened ConsentOutbox

  /** No receipt is at once this process's own and settled. */
  ghost predicate Disjoint(box: Outbox) {
    forall k :: k in box.own ==> k !in box.settled
  }

  // ---------------------------------------------------------------- the merge

  lemma {:induction false} MergeDiskFacts(rs: seq<Receipt>, settled: seq<string>)
    ensures DistinctKeys(MergeDisk(rs, settled))
    ensures forall k :: HasKey(MergeDisk(rs, settled), k) <==> HasKey(rs, k) && k !in settled
    ensures forall e :: e in MergeDisk(rs, settled) ==> e in rs
  {
    if rs != [] {
      var front, e := rs[..|rs| - 1], rs[|rs| - 1];
      MergeDiskFacts(front, settled);
      HasKeyAfter(front, e);
      assert front + [e] == rs;
      HasKeyAfter(MergeDisk(front, settled), e);
    }
  }

  lemma {:induction false} MergeOwnFacts(disk: seq<Receipt>, rs: seq<Receipt>, own: set<string>)
    requires DistinctKeys(disk)
    ensures DistinctKeys(MergeOwn(disk, rs, own))
    ensures disk <= MergeOwn(disk, rs, own)
    ensures forall k :: HasKey(MergeOwn(disk, rs, own), k) <==> HasKey(disk, k) || (HasKey(rs, k) && k in own)
    ensures forall e :: e in MergeOwn(disk, rs, own) ==> e in disk || e in rs
  {
    if rs != [] {
      var front, e := rs[..|rs| - 1], rs[|rs| - 1];
      MergeOwnFacts(disk, front, own);
      HasKeyAfter(front, e);
      assert front + [e] == rs;
      HasKeyAfter(MergeOwn(disk, front, own), e);
    }
  }

  lemma {:induction false} DropOwnFacts(rs: seq<Receipt>, own: set<string>)
    ensures forall k :: HasKey(DropOwn(rs, own), k) <==> HasKey(rs, k) && k !in own
    ensures forall e :: e in DropOwn(rs, own) ==> e in rs
  {
    if rs != [] {
      var front, e := rs[..|rs| - 1], rs[|rs| - 1];
      DropOwnFacts(front, own);
      HasKeyAfter(front, e);
      assert front + [e] == rs;
      HasKeyAfter(DropOwn(front, own), e);
    }
  }

  /**
   The merged view holds exactly: every unsettled receipt on disk (a sibling's
   included, and nothing of a sibling's that left the disk), and every receipt
   this process owns.
   */
  lemma MergedExactly(box: Outbox, file: TrailFile, decisive: bool)
    requires box.durable && Disjoint(box)
    ensures var m := Merged(box, file, decisive);
            && DistinctKeys(m)
            && (forall k :: HasKey(m, k) <==>
                  || (HasKey(Listed(file), k) && k !in box.settled && !(decisive && file.UnusableTrail? && k in box.own))
                  || (HasKey(box.receipts, k) && k in box.own))
            && (forall k :: HasKey(m, k) ==> k !in box.settled)
  {
    var listed := Listed(file);
    var disk := if decisive && file.UnusableTrail? then DropOwn(listed, box.own) else listed;
    DropOwnFacts(listed, box.own);
    MergeDiskFacts(disk, box.settled);
    MergeOwnFacts(MergeDisk(disk, box.settled), box.receipts, box.own);
  }

  /** With no settled key among the entries the size rule has nothing it may shed. */
  lemma NeverSheds(rs: seq<Receipt>, settled: seq<string>)
    requires forall k :: HasKey(rs, k) ==> k !in settled
    ensures Shed(rs, settled) == if FileBytes(rs) <= READ_LIMIT then Some(0) else None
  {
    if rs != [] {
      assert HasKey(rs, rs[0].key);
    }
  }

  lemma {:induction false} SettleAllFrom(settled: seq<string>, keys: seq<string>)
    ensures forall k :: k in SettleAll(settled, keys) ==> k in settled || k in keys
  {
    if keys != [] {
      SettleAllFrom(settled, keys[..|keys| - 1]);
    }
  }

  /**
   A successful save: mirror and file agree and are within every bound, and what is
   missing from them left by the cap alone, oldest first and counted.
   */
  lemma SaveStores(box: Outbox, file: TrailFile, decisive: bool, writeOk: bool)
    requires box.durable && Disjoint(box)
    requires Save(box, file, decisive, writeOk).error == Stored
    ensures var s := Save(box, file, decisive, writeOk);
            && Listed(s.file) == s.box.receipts
            && |s.box.receipts| <= CAP
            && FileBytes(s.box.receipts) <= READ_LIMIT
            && DistinctKeys(s.box.receipts)
            && (forall k :: HasKey(s.box.receipts, k) ==> k !in box.settled)
            && !s.box.dirty
            && Disjoint(s.box)
    ensures var s := Save(box, file, decisive, writeOk);
            var merged := Merged(box, file, decisive);
            var gone := Overflow(merged);
            && merged == merged[..gone] + s.box.receipts
            && s.box.evicted == box.evicted + gone
            && (gone > 0 ==> |s.box.receipts| == CAP)
            && (forall r :: r in box.receipts && r.key in box.own ==>
                  HasKey(s.box.receipts, r.key) != (r.key in KeysOf(merged[..gone])))
            && (forall k :: k in KeysOf(merged[..gone]) ==> k !in s.box.own && k !in s.box.owed)
  {
    MergedExactly(box, file, decisive);
    StoredIs(box, file, decisive, writeOk);
    var merged := Merged(box, file, decisive);
    var over := Overflow(merged);
    KeysSplit(merged, over);
    EvictDisjoint(Freshened(box, decisive), merged, over);
    WrittenLists(merged[over..]);
    OwnMerged(box, file, decisive);
    assert merged == merged[..over] + merged[over..];
    hide Save, Merged, SettleAll, DistinctKeys, HasKey, FileBytes, Written, KeysOf, Disjoint;
  }

  /** What an eviction settles it no longer owns. */
  lemma EvictDisjoint(box: Outbox, merged: seq<Receipt>, n: nat)
    requires Disjoint(box) && n <= |merged|
    ensures Disjoint(Evict(box, merged, n)) && Disjoint(Evict(box, merged, n).(dirty := false))
  {
    SettleAllFrom(box.settled, KeysOf(merged[..n]));
    hide SettleAll;
  }

  /** Every receipt this process owns is in the merged view. */
  lemma OwnMerged(box: Outbox, file: TrailFile, decisive: bool)
    requires box.durable && Disjoint(box)
    ensures forall r :: r in box.receipts && r.key in box.own ==> HasKey(Merged(box, file, decisive), r.key)
  {
    MergedExactly(box, file, decisive);
    forall r | r in box.receipts && r.key in box.own ensures HasKey(Merged(box, file, decisive), r.key) { InHasKey(box.receipts, r); }
    hide Merged, HasKey;
  }

  lemma WrittenLists(rs: seq<Receipt>)
    ensures Listed(Written(rs)) == rs
  {
  }

  /** A stored save is the cap's eviction of the merged view, written out. */
  lemma StoredIs(box: Outbox, file: TrailFile, decisive: bool, writeOk: bool)
    requires box.durable && Disjoint(box)
    requires Save(box, file, decisive, writeOk).error == Stored
    ensures var s, merged := Save(box, file, decisive, writeOk), Merged(box, file, decisive);
            var over := Overflow(merged);
            && s.box == Evict(Freshened(box, decisive), merged, over).(dirty := false)
            && s.file == Written(merged[over..])
            && FileBytes(merged[over..]) <= READ_LIMIT
  {
    var b := Freshened(box, decisive);
    var merged := Merged(box, file, decisive);
    assert Merged(b, file, decisive) == merged;
    MergedExactly(box, file, decisive);
    var over := Overflow(merged);
    KeysSplit(merged, over);
    NeverSheds(merged[over..], box.settled);
    ShedFits(merged[over..], box.settled);
    hide Merged, Evict, Written, DistinctKeys, HasKey, FileBytes, Shed;
    assert over + 0 == over;
  }

  lemma KeysSplit(rs: seq<Receipt>, n: nat)
    requires n <= |rs| && DistinctKeys(rs)
    ensures DistinctKeys(rs[n..])
    ensures forall k :: HasKey(rs, k) <==> (HasKey(rs[n..], k) || k in KeysOf(rs[..n]))
    ensures forall k :: !(HasKey(rs[n..], k) && k in KeysOf(rs[..n]))
  {
    forall k ensures HasKey(rs, k) <==> (HasKey(rs[n..], k) || k in KeysOf(rs[..n])) {
      if HasKey(rs, k) {
        var i :| 0 <= i < |rs| && rs[i].key == k;
        if i < n { assert KeysOf(rs[..n])[i] == k; } else { assert rs[n..][i - n].key == k; }
      }
      if HasKey(rs[n..], k) {
        var i :| 0 <= i < |rs[n..]| && rs[n..][i].key == k;
        assert rs[i + n].key == k;
      }
      if k in KeysOf(rs[..n]) {
        var i :| 0 <= i < n && KeysOf(rs[..n])[i] == k;
        assert rs[i].key == k;
      }
    }
  }

  /** A failed, refused or withheld save evicts nothing, settles nothing and leaves the file alone. */
  lemma SaveRefusesWhole(box: Outbox, file: TrailFile, decisive: bool, writeOk: bool)
    requires Save(box, file, decisive, writeOk).error != Stored
    ensures var s := Save(box, file, decisive, writeOk);
            && s.file == file
            && s.box == Freshened(box, decisive).(dirty := true)
            && box.durable
  {
  }

  /**
   A trail written from ordered parts reads back as parsed, as the same list: the
   disk view is in order, and whatever this process adds is newer than it.
   */
  lemma SaveReadsBack(box: Outbox, file: TrailFile, decisive: bool, writeOk: bool)
    requires box.durable && Disjoint(box)
    requires !file.UnusableTrail? && ScopeOrdered(Listed(file)) && ScopeOrdered(box.receipts)
    requires forall d, r :: d in Listed(file) && r in box.receipts && NewToDisk(box, file, d, r) ==> d.at < r.at
    ensures var s := Save(box, file, decisive, writeOk);
            s.error == Stored ==> s.file == ParsedTrail(s.box.receipts)
  {
    var s := Save(box, file, decisive, writeOk);
    if s.error == Stored {
      SaveStores(box, file, decisive, writeOk);
      StoredIs(box, file, decisive, writeOk);
      MergeDiskOrdered(Listed(file), box.settled);
      MergeDiskFacts(Listed(file), box.settled);
      var view := MergeDisk(Listed(file), box.settled);
      ViewNewer(box, file);
      MergeOwnOrdered(view, box.receipts, box.own);
      assert Merged(box, file, decisive) == MergeOwn(view, box.receipts, box.own);
      TailOrdered(Merged(box, file, decisive), Overflow(Merged(box, file, decisive)));
      hide Save, Merged, DistinctKeys, ScopeOrdered, FileBytes, HasKey, KeysOf;
    }
  }

  lemma ViewNewer(box: Outbox, file: TrailFile)
    requires Disjoint(box)
    requires forall d, r :: d in Listed(file) && r in box.receipts && NewToDisk(box, file, d, r) ==> d.at < r.at
    ensures JoinsNewer(MergeDisk(Listed(file), box.settled), box.receipts, box.own)
  {
    MergeDiskFacts(Listed(file), box.settled);
    var view := MergeDisk(Listed(file), box.settled);
    forall d, r | d in view && r in box.receipts && r.key in box.own && d.scope == r.scope && !HasKey(view, r.key)
      ensures d.at < r.at
    {
      InHasKey(view, d);
      assert NewToDisk(box, file, d, r);
    }
  }

  /** `d` stays on disk and `r`, of the same scope, is not there yet. */
  predicate NewToDisk(box: Outbox, file: TrailFile, d: Receipt, r: Receipt) {
    d.scope == r.scope && d.key !in box.settled && r.key in box.own && !HasKey(Listed(file), r.key)
  }

  lemma TailOrdered(rs: seq<Receipt>, n: nat)
    requires n <= |rs| && ScopeOrdered(rs)
    ensures ScopeOrdered(rs[n..])
  {
  }

  lemma InHasKey(rs: seq<Receipt>, r: Receipt)
    requires r in rs
    ensures HasKey(rs, r.key)
  {
  }

  lemma {:induction false} MergeDiskOrdered(rs: seq<Receipt>, settled: seq<string>)
    requires ScopeOrdered(rs)
    ensures ScopeOrdered(MergeDisk(rs, settled))
  {
    if rs != [] {
      var front, e := rs[..|rs| - 1], rs[|rs| - 1];
      MergeDiskOrdered(front, settled);
      MergeDiskFacts(front, settled);
      var acc := MergeDisk(front, settled);
      forall i | 0 <= i < |acc| && acc[i].scope == e.scope ensures acc[i].at < e.at {
        assert acc[i] in acc;
        var j :| 0 <= j < |front| && front[j] == acc[i];
        assert rs[j] == acc[i];
      }
    }
  }

  /** Whatever of `rs` joins the disk view is newer than what it finds there. */
  ghost predicate JoinsNewer(disk: seq<Receipt>, rs: seq<Receipt>, own: set<string>) {
    forall d, r :: d in disk && r in rs && r.key in own && d.scope == r.scope && !HasKey(disk, r.key) ==> d.at < r.at
  }

  lemma {:induction false} MergeOwnOrdered(disk: seq<Receipt>, rs: seq<Receipt>, own: set<string>)
    requires DistinctKeys(disk) && ScopeOrdered(disk) && ScopeOrdered(rs) && JoinsNewer(disk, rs, own)
    ensures ScopeOrdered(MergeOwn(disk, rs, own))
  {
    if rs != [] {
      var front, e := rs[..|rs| - 1], rs[|rs| - 1];
      assert JoinsNewer(disk, front, own);
      MergeOwnOrdered(disk, front, own);
      MergeOwnFacts(disk, front, own);
      var acc := MergeOwn(disk, front, own);
      if e.key in own && !HasKey(acc, e.key) { JoinedNewer(disk, rs, own, acc); }
    }
  }

  lemma JoinedNewer(disk: seq<Receipt>, rs: seq<Receipt>, own: set<string>, acc: seq<Receipt>)
    requires rs != [] && ScopeOrdered(rs) && JoinsNewer(disk, rs, own)
    requires forall r :: r in acc ==> r in disk || r in rs[..|rs| - 1]
    requires rs[|rs| - 1].key in own && !HasKey(disk, rs[|rs| - 1].key)
    ensures forall i :: 0 <= i < |acc| && acc[i].scope == rs[|rs| - 1].scope ==> acc[i].at < rs[|rs| - 1].at
  {
    hide HasKey;
    var front, e := rs[..|rs| - 1], rs[|rs| - 1];
    forall i | 0 <= i < |acc| && acc[i].scope == e.scope ensures acc[i].at < e.at {
      assert acc[i] in acc && e in rs;
      if acc[i] in front {
        var j :| 0 <= j < |front| && front[j] == acc[i];
        assert rs[j] == acc[i];
      }
    }
  }

  // ---------------------------------------------------------------- one receipt in, one receipt out

  /** What is left of the merged view under the cap may be written. */
  predicate Room(box: Outbox, file: TrailFile, decisive: bool) {
    var merged := Merged(box, file, decisive);
    FileBytes(merged[Overflow(merged)..]) <= READ_LIMIT
  }

  /** A save is held only without a fresh decision, over evidence; otherwise room and the write decide. */
  lemma SaveSucceedsExactly(box: Outbox, file: TrailFile, decisive: bool, writeOk: bool)
    requires box.durable && Disjoint(box)
    ensures var s := Save(box, file, decisive, writeOk);
            var evidence := !decisive && box.preserveUnusable && file.UnusableTrail?;
            && (s.error == EvidenceHeld <==> evidence)
            && (s.error == TooLarge <==> !evidence && !Room(box, file, decisive))
            && (s.error == Stored <==> !evidence && Room(box, file, decisive) && writeOk)
            && (s.box.dirty <==> s.error != Stored)
  {
    MergedExactly(box, file, decisive);
    var merged := Merged(box, file, decisive);
    assert Merged(Freshened(box, decisive), file, decisive) == merged;
    var over := Overflow(merged);
    KeysSplit(merged, over);
    NeverSheds(merged[over..], box.settled);
    ShedFits(merged[over..], box.settled);
    hide Merged, Evict, Written, DistinctKeys, HasKey, FileBytes, Shed;
  }

  lemma {:induction false} SettledLength(settled: seq<string>, keys: seq<string>)
    ensures |SettleAll(settled, keys)| >= |settled|
    ensures |SettleAll(settled, keys)| < SETTLED_MEMORY ==> forall k :: k in settled ==> k in SettleAll(settled, keys)
  {
    if keys != [] { SettledLength(settled, keys[..|keys| - 1]); }
  }

  lemma SettleHolds(settled: seq<string>, key: string)
    ensures key != "" ==> key in Settle(settled, key)
  {
    assert (settled + [key])[|settled|] == key;
  }

  lemma {:induction false} WithoutDistinct(rs: seq<Receipt>, key: string)
    requires DistinctKeys(rs)
    ensures DistinctKeys(Without(rs, key))
    ensures forall k :: HasKey(Without(rs, key), k) <==> HasKey(rs, k) && k != key
  {
    if rs != [] {
      var tail := rs[1..];
      assert rs == [rs[0]] + tail;
      KeysSplit(rs, 1);
      WithoutDistinct(tail, key);
      HeadKey(rs[0], tail);
      if rs[0].key != key {
        HeadKey(rs[0], Without(tail, key));
        HeadDistinct(rs[0], Without(tail, key));
      }
    }
  }

  lemma HeadKey(r: Receipt, rs: seq<Receipt>)
    ensures forall k :: HasKey([r] + rs, k) <==> HasKey(rs, k) || k == r.key
  {
    forall k ensures HasKey([r] + rs, k) <==> HasKey(rs, k) || k == r.key {
      assert ([r] + rs)[0] == r;
      if HasKey(rs, k) {
        var i :| 0 <= i < |rs| && rs[i].key == k;
        assert ([r] + rs)[i + 1].key == k;
      }
    }
  }

  lemma HeadDistinct(r: Receipt, rs: seq<Receipt>)
    requires DistinctKeys(rs) && !HasKey(rs, r.key)
    ensures DistinctKeys([r] + rs)
  {
  }

  /**
   A pruned receipt is gone from the mirror whether or not the rewrite lands, and while the settled
   memory is not full nothing settled before comes back with it.
   */
  lemma PruneRemoves(box: Outbox, file: TrailFile, key: string, writeOk: bool)
    requires box.durable && DistinctKeys(box.receipts)
    ensures PruneDrops(box, Prune(box, file, key, writeOk).box, key)
  {
    if HasKey(box.receipts, key) {
      var b := Unlisted(box, key);
      WithoutDistinct(box.receipts, key);
      SettledLength(box.settled, [key]);
      assert [key][..0] == [];
      assert Settle(box.settled, key) == SettleAll(box.settled, [key]);
      SettleHolds(box.settled, key);
      SaveDrops(b, file, writeOk);
      hide Save, Without, SettleAll, Settle, DistinctKeys, HasKey;
    }
  }

  /** What a prune of `key` leaves of the mirror and of the settled keys. */
  predicate PruneDrops(box: Outbox, after: Outbox, key: string) {
    && DistinctKeys(after.receipts)
    && |after.settled| >= |box.settled|
    && (key != "" ==> !HasKey(after.receipts, key))
    && (|after.settled| < SETTLED_MEMORY ==>
          && (forall k :: k in box.settled && !HasKey(box.receipts, k) ==> k in after.settled && !HasKey(after.receipts, k))
          && (HasKey(box.receipts, key) && key != "" ==> key in after.settled))
  }

  /** A save without a fresh decision brings nothing settled into the mirror. */
  lemma SaveDrops(b: Outbox, file: TrailFile, writeOk: bool)
    requires b.durable && DistinctKeys(b.receipts)
    ensures var s := Save(b, file, false, writeOk);
            && DistinctKeys(s.box.receipts)
            && |s.box.settled| >= |b.settled|
            && (|s.box.settled| < SETTLED_MEMORY ==> forall k :: k in b.settled ==> k in s.box.settled)
            && (forall k :: k in b.settled && !HasKey(b.receipts, k) ==> !HasKey(s.box.receipts, k))
  {
    var s, merged := Save(b, file, false, writeOk), Merged(b, file, false);
    MergeDiskFacts(Listed(file), b.settled);
    MergeOwnFacts(MergeDisk(Listed(file), b.settled), b.receipts, b.own);
    if s.error == Stored {
      var n := StoredCut(b, file, writeOk);
      KeysSplit(merged, n);
      SettledLength(b.settled, KeysOf(merged[..n]));
    } else { SaveRefusesWhole(b, file, false, writeOk); }
    hide Save, Merged, MergeDisk, MergeOwn, SettleAll, DistinctKeys, HasKey;
  }

  lemma StoredCut(b: Outbox, file: TrailFile, writeOk: bool) returns (n: nat)
    requires b.durable && Save(b, file, false, writeOk).error == Stored
    ensures var s, merged := Save(b, file, false, writeOk), Merged(b, file, false);
            && n <= |merged| && s.box.receipts == merged[n..] && Listed(s.file) == merged[n..]
            && s.box.settled == SettleAll(b.settled, KeysOf(merged[..n])) && writeOk && !s.box.dirty
  {
    var merged := Merged(b, file, false);
    assert Save(b, file, false, writeOk) == SaveMerged(b, file, merged, writeOk) by { hide Merged, SaveMerged; }
    n := WrittenCut(b, file, merged, writeOk);
    hide Merged, Save, SaveMerged, SettleAll;
  }

  /** Where a write that landed cut the merged view. */
  lemma WrittenCut(b: Outbox, file: TrailFile, merged: seq<Receipt>, writeOk: bool) returns (n: nat)
    requires b.durable && SaveMerged(b, file, merged, writeOk).error == Stored
    ensures var s := SaveMerged(b, file, merged, writeOk);
            && n <= |merged| && s.box.receipts == merged[n..] && Listed(s.file) == merged[n..]
            && s.box.settled == SettleAll(b.settled, KeysOf(merged[..n])) && writeOk && !s.box.dirty
            && (n == |merged| ==> merged == [])
  {
    var over := Overflow(merged);
    ShedFits(merged[over..], b.settled);
    ShedLeavesOne(merged[over..], b.settled);
    n := over + Shed(merged[over..], b.settled).value;
    hide Shed, SettleAll, DistinctKeys, ScopeOrdered, FileBytes;
  }

  /** The mirror a fresh receipt is saved from. */
  function Owning(box: Outbox, r: Receipt): Outbox {
    box.(own := box.own + {r.key}, receipts := box.receipts + [r])
  }

  /**
   What an append of `r` leaves: a failed save keeps the file and parks the receipt in the mirror, a
   stored one leaves file and mirror the same list with a new key at its end; room and the write decide.
   */
  ghost predicate Joined(box: Outbox, file: TrailFile, r: Receipt, writeOk: bool, receipts: seq<Receipt>, dirty: bool, after: TrailFile) {
    && (dirty ==> after == file && receipts == box.receipts + [r])
    && (!dirty ==> writeOk && Listed(after) == receipts)
    && (!dirty && !HasKey(box.receipts, r.key) && !HasKey(Listed(file), r.key) && r.key !in box.settled
        ==> receipts != [] && receipts[|receipts| - 1] == r)
    && (Disjoint(box) && r.key !in box.settled ==> (dirty <==> !writeOk || !Room(Owning(box, r), file, true)))
  }

  lemma AppendJoins(box: Outbox, file: TrailFile, r: Receipt, writeOk: bool)
    requires box.durable
    ensures var s := Append(box, file, r, writeOk);
            && (FailedDurably(s.error) <==> s.box.dirty)
            && s.box.owed <= box.owed
            && Joined(box, file, r, writeOk, s.box.receipts, s.box.dirty, s.file)
  {
    var b := Owning(box, r);
    var s := Save(b, file, true, writeOk);
    if s.error != Stored { SaveRefusesWhole(b, file, true, writeOk); }
    else { StoredLast(box, file, r, writeOk); }
    if Disjoint(box) && r.key !in box.settled { SaveSucceedsExactly(b, file, true, writeOk); }
    assert b.durable;
    DecisiveNotHeld(b, file, writeOk);
    hide Save, HasKey, Room, Disjoint;
  }

  lemma DecisiveNotHeld(b: Outbox, file: TrailFile, writeOk: bool)
    requires b.durable
    ensures var s := Save(b, file, true, writeOk);
            s.error != EvidenceHeld && (s.box.dirty <==> s.error != Stored) && s.box.owed <= b.owed
            && (s.error == Stored ==> writeOk)
  {
    hide Merged, Shed, SettleAll, Written;
  }

  /** A stored fresh receipt is the newest of the list on disk. */
  lemma StoredLast(box: Outbox, file: TrailFile, r: Receipt, writeOk: bool)
    requires box.durable && Save(Owning(box, r), file, true, writeOk).error == Stored
    ensures var s := Save(Owning(box, r), file, true, writeOk);
            && Listed(s.file) == s.box.receipts
            && (!HasKey(box.receipts, r.key) && !HasKey(Listed(file), r.key) && r.key !in box.settled
                ==> s.box.receipts != [] && s.box.receipts[|s.box.receipts| - 1] == r)
  {
    var b := Owning(box, r);
    var merged := Merged(b, file, true);
    var disk := if file.UnusableTrail? then DropOwn(Listed(file), b.own) else Listed(file);
    var view := MergeDisk(disk, b.settled);
    DropOwnFacts(Listed(file), b.own);
    MergeDiskFacts(disk, b.settled);
    MergeOwnFacts(view, box.receipts, b.own);
    assert (box.receipts + [r])[..|box.receipts|] == box.receipts;
    var n := DecisiveCut(b, file, writeOk);
    if !HasKey(box.receipts, r.key) && !HasKey(Listed(file), r.key) {
      assert merged == MergeOwn(view, box.receipts, b.own) + [r];
    }
    hide Save, Merged, MergeDisk, MergeOwn, DropOwn, HasKey;
  }

  lemma DecisiveCut(b: Outbox, file: TrailFile, writeOk: bool) returns (n: nat)
    requires b.durable && Save(b, file, true, writeOk).error == Stored
    ensures var s, merged := Save(b, file, true, writeOk), Merged(b, file, true);
            n <= |merged| && s.box.receipts == merged[n..] && Listed(s.file) == merged[n..] && (n == |merged| ==> merged == [])
  {
    var box, merged := Freshened(b, true), Merged(b, file, true);
    assert Merged(box, file, true) == merged by { hide MergeOwn, MergeDisk, DropOwn; }
    assert Save(b, file, true, writeOk) == SaveMerged(box, file, merged, writeOk) by { hide Merged, SaveMerged; }
    n := WrittenCut(box, file, merged, writeOk);
    hide Merged, Save, SaveMerged;
  }

  lemma {:induction false} ShedLeavesOne(rs: seq<Receipt>, settled: seq<string>)
    ensures Shed(rs, settled).Some? && rs != [] ==> Shed(rs, settled).value < |rs|
    decreases |rs|
  {
    if FileBytes(rs) > READ_LIMIT && |rs| > 1 && rs[0].key in settled { ShedLeavesOne(rs[1..], settled); }
  }

  /** Marks of owed records are nothing an append looks at. */
  lemma JoinedUnmarked(box: Outbox, unmarked: Outbox, file: TrailFile, r: Receipt, writeOk: bool,
                       receipts: seq<Receipt>, dirty: bool, after: TrailFile)
    requires unmarked == box.(owed := unmarked.owed)
    ensures Joined(unmarked, file, r, writeOk, receipts, dirty, after) == Joined(box, file, r, writeOk, receipts, dirty, after)
  {
    assert Merged(Owning(unmarked, r), file, true) == Merged(Owning(box, r), file, true) by { hide MergeOwn, MergeDisk, DropOwn; }
    assert Room(Owning(unmarked, r), file, true) == Room(Owning(box, r), file, true) by { hide Merged; }
    assert Disjoint(unmarked) == Disjoint(box);
    hide Room, Disjoint, HasKey, Owning;
  }

  /**
   What retrying an owed write leaves: what is still owed has changed nothing, and with no evidence
   to keep, room and the write decide whether it is.
   */
  ghost predicate Resaved(box: Outbox, file: TrailFile, writeOk: bool, receipts: seq<Receipt>, dirty: bool, after: TrailFile) {
    && (dirty ==> after == file && receipts == box.receipts)
    && (box.dirty && !dirty ==> writeOk && Listed(after) == receipts)
    && (box.dirty && Disjoint(box) ==>
          (dirty <==> (box.preserveUnusable && file.UnusableTrail?) || !writeOk || !Room(box, file, false)))
  }

  lemma SaveAgain(box: Outbox, file: TrailFile, writeOk: bool)
    requires box.durable
    ensures var s := RetryPersist(box, file, writeOk);
            Resaved(box, file, writeOk, s.box.receipts, s.box.dirty, s.file)
  {
    if box.dirty {
      var s := Save(box, file, false, writeOk);
      if s.error != Stored { SaveRefusesWhole(box, file, false, writeOk); }
      else { var n := StoredCut(box, file, writeOk); }
      if Disjoint(box) { SaveSucceedsExactly(box, file, false, writeOk); }
      hide Save, Room, Disjoint;
    }
  }
}
