/**
 The handle in place: declarations, withdrawals and the bounded list of owed records,
 loop by loop, against the handle's value-level functions.
 */
module SubjectRecords {
  import opened Basics
  import opened SubjectHandle
  import opened SubjectHandoff

  /** The bound holds per experiment, and making room never touches another experiment's records. */
  lemma AppendOwedKeeps(owed: seq<Owed>, record: Owed)
    requires CountKey(owed, record.key) <= OWED_BOUND
    ensures var after := AppendOwed(owed, record);
            && CountKey(after, record.key) <= OWED_BOUND
            && after[|after| - 1] == record
            && (forall k :: k != record.key ==> WithoutOthers(after, k) == WithoutOthers(owed, k))
  {
    var room := if CountKey(owed, record.key) >= OWED_BOUND then DropFirst(owed, record.key) else owed;
    DropFirstCounts(owed, record.key);
    assert (room + [record])[..|room|] == room;
    forall k | k != record.key ensures WithoutOthers(room + [record], k) == WithoutOthers(owed, k) {
      DropFirstOthers(owed, record.key, k);
      assert (room + [record])[..|room|] == room;
    }
  }

  /** The records of one experiment, in order. */
  function WithoutOthers(owed: seq<Owed>, key: string): seq<Owed> {
    if owed == [] then []
    else
      var front := WithoutOthers(owed[..|owed| - 1], key);
      if owed[|owed| - 1].key == key then front + [owed[|owed| - 1]] else front
  }

  lemma {:induction false} CountKeyConcat(a: seq<Owed>, b: seq<Owed>, key: string)
    ensures CountKey(a + b, key) == CountKey(a, key) + CountKey(b, key)
  {
    if b == [] { assert a + b == a; }
    else {
      assert (a + b)[..|a + b| - 1] == a + b[..|b| - 1];
      CountKeyConcat(a, b[..|b| - 1], key);
    }
  }

  lemma {:induction false} OthersConcat(a: seq<Owed>, b: seq<Owed>, key: string)
    ensures WithoutOthers(a + b, key) == WithoutOthers(a, key) + WithoutOthers(b, key)
  {
    if b == [] { assert a + b == a; }
    else {
      assert (a + b)[..|a + b| - 1] == a + b[..|b| - 1];
      OthersConcat(a, b[..|b| - 1], key);
    }
  }

  lemma One(x: Owed, key: string)
    ensures CountKey([x], key) == (if x.key == key then 1 else 0)
    ensures WithoutOthers([x], key) == if x.key == key then [x] else []
  {
    assert [x][..0] == [];
  }

  lemma {:induction false} DropFirstCounts(owed: seq<Owed>, key: string)
    ensures CountKey(DropFirst(owed, key), key) == if CountKey(owed, key) > 0 then CountKey(owed, key) - 1 else 0
  {
    if owed != [] {
      assert owed == [owed[0]] + owed[1..];
      CountKeyConcat([owed[0]], owed[1..], key);
      One(owed[0], key);
      if owed[0].key != key {
        DropFirstCounts(owed[1..], key);
        CountKeyConcat([owed[0]], DropFirst(owed[1..], key), key);
      }
    }
  }

  /** The record found at `i` is the one that goes. */
  lemma {:induction false} DropFirstAt(owed: seq<Owed>, i: nat, key: string)
    requires i <= |owed| && forall k :: 0 <= k < i ==> owed[k].key != key
    requires i < |owed| ==> owed[i].key == key
    ensures DropFirst(owed, key) == if i < |owed| then owed[..i] + owed[i + 1..] else owed
  {
    if i > 0 {
      var tail := owed[1..];
      forall k | 0 <= k < i - 1 ensures tail[k].key != key { assert tail[k] == owed[k + 1]; }
      DropFirstAt(tail, i - 1, key);
      assert owed == [owed[0]] + tail;
      if i < |owed| {
        assert tail[i..] == owed[i + 1..];
        assert [owed[0]] + (tail[..i - 1] + tail[i..]) == owed[..i] + owed[i + 1..];
      }
    }
  }

  lemma {:induction false} DropFirstOthers(owed: seq<Owed>, key: string, other: string)
    requires other != key
    ensures WithoutOthers(DropFirst(owed, key), other) == WithoutOthers(owed, other)
  {
    if owed != [] {
      assert owed == [owed[0]] + owed[1..];
      OthersConcat([owed[0]], owed[1..], other);
      One(owed[0], other);
      if owed[0].key != key {
        DropFirstOthers(owed[1..], key, other);
        OthersConcat([owed[0]], DropFirst(owed[1..], key), other);
      }
    }
  }

  lemma ElsewhereIn(exposed: set<(string, string)>, key: string)
    ensures forall t :: t in ExposedElsewhere(exposed, key) <==> t in exposed && t.0 != key
  {
  }

  lemma {:induction false} Partitioned(owed: seq<Owed>, key: string)
    ensures multiset(WithoutKey(owed, key)) + multiset(WithoutOthers(owed, key)) == multiset(owed)
    ensures |WithoutKey(owed, key)| + |WithoutOthers(owed, key)| == |owed|
  {
    if owed != [] {
      Partitioned(owed[..|owed| - 1], key);
      assert owed == owed[..|owed| - 1] + [owed[|owed| - 1]];
    }
  }

  class ExperimentSubject {
    var granted: bool
    var rejected: bool
    var fetchSeq: nat
    var fetches: map<nat, Fetch>
    var settled: map<string, nat>
    var entries: map<string, Entry>
    var declaring: map<string, Declaration>
    var exposed: set<(string, string)>
    var owed: seq<Owed>
    var lastApplied: map<string, Entry>
    var serials: nat
    var withdrawSeq: nat
    var deniedAt: nat
    var ageWithdrawnAt: map<string, nat>
    var out: Outgoing

    constructor (granted: bool)
      ensures Value() == Handle(granted, false, 0, map[], map[], map[], map[], {}, [], map[], 0, 0, 0, map[],
                                Outgoing(None, [], [], []))
    {
      this.granted, rejected, fetchSeq, fetches, settled := granted, false, 0, map[], map[];
      entries, declaring, exposed, owed, lastApplied := map[], map[], {}, [], map[];
      serials, withdrawSeq, deniedAt, ageWithdrawnAt, out := 0, 0, 0, map[], Outgoing(None, [], [], []);
    }

    ghost function Value(): Handle
      reads this
    {
      Handle(granted, rejected, fetchSeq, fetches, settled, entries, declaring, exposed, owed, lastApplied,
             serials, withdrawSeq, deniedAt, ageWithdrawnAt, out)
    }

    method PartitionOwed(key: string) returns (kept: seq<Owed>, dropped: seq<Owed>)
      ensures kept == WithoutKey(owed, key) && dropped == WithoutOthers(owed, key)
      ensures forall r :: r in kept <==> r in owed && r.key != key
      ensures multiset(kept) + multiset(dropped) == multiset(owed) && |kept| + |dropped| == |owed|
    {
      kept, dropped := [], [];
      for i := 0 to |owed|
        invariant kept == WithoutKey(owed[..i], key) && dropped == WithoutOthers(owed[..i], key)
      {
        assert owed[..i + 1][..i] == owed[..i];
        if owed[i].key == key { dropped := dropped + [owed[i]]; } else { kept := kept + [owed[i]]; }
      }
      assert owed[..|owed|] == owed;
      WithoutKeyIn(owed, key);
      Partitioned(owed, key);
    }

    /** withdrawAgeLocked. */
    method WithdrawAgeLocked(key: string, dropEntry: bool) returns (dropped: seq<Owed>)
      modifies this`entries, this`lastApplied, this`exposed, this`owed, this`withdrawSeq, this`ageWithdrawnAt
      ensures Value() == WithdrawAge(old(Value()), key, dropEntry)
      ensures dropped == WithoutOthers(old(owed), key)
      ensures entries == (if dropEntry then old(entries) - {key} else old(entries)) && lastApplied == old(lastApplied) - {key}
      ensures forall t :: t in exposed <==> t in old(exposed) && t.0 != key
      ensures forall r :: r in owed <==> r in old(owed) && r.key != key
      ensures |owed| + |dropped| == |old(owed)|
      ensures withdrawSeq == old(withdrawSeq) + 1 && ageWithdrawnAt == old(ageWithdrawnAt)[key := withdrawSeq]
    {
      hide WithoutKey, WithoutOthers, ExposedElsewhere;
      ElsewhereIn(exposed, key);
      if dropEntry { entries := entries - {key}; }
      var kept;
      kept, dropped := PartitionOwed(key);
      lastApplied, exposed, owed := lastApplied - {key}, ExposedElsewhere(exposed, key), kept;
      withdrawSeq, ageWithdrawnAt := withdrawSeq + 1, ageWithdrawnAt[key := withdrawSeq + 1];
    }

    method CountOf(key: string) returns (count: nat)
      ensures count == CountKey(owed, key)
    {
      count := 0;
      for i := 0 to |owed|
        invariant count == CountKey(owed[..i], key)
      {
        assert owed[..i + 1][..i] == owed[..i];
        if owed[i].key == key { count := count + 1; }
      }
      assert owed[..|owed|] == owed;
    }

    method RemoveFirst(key: string)
      modifies this`owed
      ensures owed == DropFirst(old(owed), key)
    {
      var i := 0;
      while i < |owed| && owed[i].key != key
        invariant i <= |owed| && owed == old(owed)
        invariant forall k :: 0 <= k < i ==> owed[k].key != key
      {
        i := i + 1;
      }
      DropFirstAt(owed, i, key);
      if i < |owed| { owed := owed[..i] + owed[i + 1..]; }
    }

    /** appendOwedLocked. */
    method AppendOwedLocked(record: Owed)
      modifies this`owed
      ensures Value() == old(Value()).(owed := AppendOwed(old(owed), record))
      ensures owed != [] && owed[|owed| - 1] == record
      ensures CountKey(old(owed), record.key) < OWED_BOUND ==> owed == old(owed) + [record]
      ensures CountKey(old(owed), record.key) >= OWED_BOUND ==> owed == DropFirst(old(owed), record.key) + [record]
    {
      hide CountKey, DropFirst;
      var count := CountOf(record.key);
      if count >= OWED_BOUND { RemoveFirst(record.key); }
      owed := owed + [record];
    }

    /** beginDeclarationLocked, for a fetch just numbered. */
    method BeginDeclarationLocked(key: string, band: Band, seqNo: nat)
      requires seqNo > 0
      modifies this`declaring, this`settled
      ensures Value() == BeginDeclaration(old(Value()), key, band, seqNo)
      ensures declaring == match band
                           case NoBand => old(declaring)
                           case Adult => old(declaring) - {key}
                           case NonAdult => old(declaring)[key := Declaration(seqNo - 1, seqNo, false)]
      ensures if band == Adult then SettledAt(Value(), key) == Max(seqNo - 1, SettledAt(old(Value()), key)) else settled == old(settled)
      ensures forall k :: k != key ==> SettledAt(Value(), k) == SettledAt(old(Value()), k)
    {
      if band == Adult {
        declaring := declaring - {key};
        if (if key in settled then settled[key] else 0) < seqNo - 1 { settled := settled[key := seqNo - 1]; }
      } else if band == NonAdult {
        declaring := declaring[key := Declaration(seqNo - 1, seqNo, false)];
      }
    }

    /** endDeclaration: an unanswered declaration withdraws what only a confirmed age could keep. */
    method EndDeclarationOf(key: string, n: nat)
      modifies this`declaring, this`settled, this`entries, this`lastApplied, this`exposed, this`owed, this`withdrawSeq, this`ageWithdrawnAt
      ensures Value() == EndDeclaration(old(Value()), key, n)
      ensures var mine := key in old(declaring) && old(declaring)[key].seqNo == n;
              && declaring == (if mine then old(declaring) - {key} else old(declaring))
              && if mine && !old(declaring)[key].decided then
                   && entries == (if key in old(entries) && !old(entries)[key].gated then old(entries) else old(entries) - {key})
                   && key !in lastApplied && (forall t :: t in exposed ==> t.0 != key)
                   && (forall r :: r in owed <==> r in old(owed) && r.key != key)
                   && withdrawSeq == old(withdrawSeq) + 1 && ageWithdrawnAt == old(ageWithdrawnAt)[key := withdrawSeq]
                   && SettledAt(Value(), key) >= old(declaring)[key].fence
                 else Value() == old(Value()).(declaring := declaring)
    {
      hide WithdrawAge;
      if key !in declaring || declaring[key].seqNo != n { return; }
      var d := declaring[key];
      declaring := declaring - {key};
      if d.decided { return; }
      if (if key in settled then settled[key] else 0) < d.fence { settled := settled[key := d.fence]; }
      assert Value() == Raise(old(Value()).(declaring := declaring), key, d.fence);
      hide Raise;
      var _ := WithdrawAgeLocked(key, key !in entries || entries[key].gated);
    }

    /** withdrawAllLocked. */
    method WithdrawAllLocked()
      modifies this`owed, this`entries, this`exposed, this`lastApplied
      ensures Value() == WithdrawAll(old(Value()))
      ensures owed == [] && entries == map[] && exposed == {} && lastApplied == map[]
    {
      owed := [];
      entries := map[];
      exposed := {};
      lastApplied := map[];
    }

    /** SetConsent: anything but a grant withdraws everything and stamps the denial. */
    method SetConsent(grant: bool)
      modifies this`granted, this`owed, this`entries, this`exposed, this`lastApplied, this`withdrawSeq, this`deniedAt
      ensures Value() == SetGranted(old(Value()), grant)
      ensures granted == grant
      ensures !grant ==> owed == [] && entries == map[] && exposed == {} && lastApplied == map[]
      ensures !grant ==> deniedAt == withdrawSeq == old(withdrawSeq) + 1
      ensures !grant ==> forall f: Fact :: f.stamp <= old(withdrawSeq) ==> FactWithdrawn(Value(), f)
      ensures grant ==> Value() == old(Value()).(granted := true)
    {
      granted := grant;
      if !grant {
        WithdrawAllLocked();
        withdrawSeq := withdrawSeq + 1;
        deniedAt := withdrawSeq;
      }
    }

    /** commit's first section: the head check and the stamp, under the handle's lock. */
    method CheckOldest() returns (passed: bool)
      requires Stamped(Value()) && out.handing.None?
      modifies this`out
      ensures Value() == Next(old(Value()), Check)
      ensures passed <==> Passes(old(Value()))
      ensures passed ==> out.handing.Some? && !FactWithdrawn(Value(), FactOf(out.handing.value)) && owed[0].key !in declaring
    {
      var stamp := withdrawSeq;
      passed := granted && owed != [] && owed[0].key !in declaring;
      if passed { out := out.(handing := Some(Handing(owed[0], stamp, false))); }
    }

    /** The queue's verdict on the checked fact, with the handle's lock free; a refusal keeps the record. */
    method Hand(v: Verdict) returns (kept: bool)
      requires out.handing.Some? && !out.handing.value.judged
      modifies this`out
      ensures Value() == Next(old(Value()), Enqueue(v))
      ensures kept <==> out.handing.None?
      ensures out.queued == old(out.queued) + if v == Accepted then [FactOf(old(out.handing.value))] else []
    {
      var g := out.handing.value;
      if v == Accepted { out := out.(queued := out.queued + [Fact(g.record.key, g.stamp, g.record.serial)]); }
      kept := v == QueueRefused;
      out := out.(handing := if kept then None else Some(g.(judged := true)));
    }

    /** commit's last section, and retire: the record handed off or too large goes, if a withdrawal has not removed it. */
    method RemoveHanded()
      requires out.handing.Some? && out.handing.value.judged
      modifies this`owed, this`out
      ensures Value() == Next(old(Value()), Remove)
      ensures out == old(out).(handing := None)
      ensures old(owed) != [] && old(owed)[0] == old(out.handing.value.record) ==> owed == old(owed)[1..]
      ensures old(owed) == [] || old(owed)[0] != old(out.handing.value.record) ==> owed == old(owed)
    {
      if owed != [] && owed[0] == out.handing.value.record { owed := owed[1..]; }
      out := out.(handing := None);
    }
  }
}
