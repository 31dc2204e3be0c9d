/**
 The durable consent-receipt outbox: the in-memory mirror, the keys it has
 settled, and the reload-and-merge save.

 `Outbox` and the functions on it say what each operation does; the class
 `ConsentOutbox` does it in place, step by step.
 */
module ConsentOutbox {
  import opened Basics
  import opened ConsentReceipts

  const CAP := 32
  const SETTLED_MEMORY := 256

  /** The trail on disk, as the reader classifies it. */
  datatype TrailFile = MissingTrail | UnusableTrail(survivors: seq<Receipt>) | ParsedTrail(list: seq<Receipt>)

  function Listed(file: TrailFile): seq<Receipt> {
    match file
    case MissingTrail => []
    case UnusableTrail(rs) => rs
    case ParsedTrail(rs) => rs
  }

  function ClassOf(file: TrailFile): ReadClass {
    match file
    case MissingTrail => ReadAbsent
    case UnusableTrail(_) => ReadUnusable
    case ParsedTrail(_) => ReadParsed
  }

  /** A list written out and read again: in order it parses, out of order it does not. */
  function Written(rs: seq<Receipt>): TrailFile {
    if DistinctKeys(rs) && ScopeOrdered(rs) then ParsedTrail(rs) else UnusableTrail(rs)
  }

  /** The identity one client speaks for; the receipt's anonymous id is part of it. */
  datatype Identity = Identity(scope: Scope, anonymousID: string)

  predicate InScope(r: Receipt, me: Identity) {
    r.scope == me.scope && r.anonymousID == me.anonymousID
  }

  datatype Outbox = Outbox(
    durable: bool,
    receipts: seq<Receipt>,
    settled: seq<string>,
    own: set<string>,
    owed: set<string>,
    dirty: bool,
    evicted: nat,
    lastRead: ReadClass,
    grantsUnprovable: bool,
    preserveUnusable: bool)

  function Empty(durable: bool): Outbox {
    Outbox(durable, [], [], {}, {}, false, 0, ReadParsed, false, false)
  }

  function KeysOf(rs: seq<Receipt>): (ks: seq<string>)
    ensures |ks| == |rs| && forall i :: 0 <= i < |rs| ==> ks[i] == rs[i].key
  {
    seq(|rs|, i requires 0 <= i < |rs| => rs[i].key)
  }

  // ---------------------------------------------------------------- settled keys

  /** recordSettledLocked: a bounded first-in first-out memory. */
  function Settle(settled: seq<string>, key: string): seq<string> {
    if key == "" || key in settled then settled
    else if |settled| + 1 > SETTLED_MEMORY then (settled + [key])[1..]
    else settled + [key]
  }

  function SettleAll(settled: seq<string>, keys: seq<string>): seq<string> {
    if keys == [] then settled else Settle(SettleAll(settled, keys[..|keys| - 1]), keys[|keys| - 1])
  }

  // ---------------------------------------------------------------- the merging save

  datatype SaveError = Stored | EvidenceHeld | TooLarge | WriteFailed

  /** consentSaveFailedDurably: a held write is owed, but it is not a disk failure. */
  predicate FailedDurably(e: SaveError) {
    e == TooLarge || e == WriteFailed
  }

  datatype Saved = Saved(box: Outbox, file: TrailFile, error: SaveError)

  /** A fresh decision replaces an unusable trail for its own scope only. */
  function DropOwn(rs: seq<Receipt>, own: set<string>): seq<Receipt> {
    if rs == [] then []
    else
      var front := DropOwn(rs[..|rs| - 1], own);
      if rs[|rs| - 1].key in own then front else front + [rs[|rs| - 1]]
  }

  /** The disk view: entries this process settled are left out, repeated keys too. */
  function MergeDisk(rs: seq<Receipt>, settled: seq<string>): seq<Receipt> {
    if rs == [] then []
    else
      var acc := MergeDisk(rs[..|rs| - 1], settled);
      var e := rs[|rs| - 1];
      if e.key in settled || HasKey(acc, e.key) then acc else acc + [e]
  }

  /** Then this process's own receipts the disk view does not have. */
  function MergeOwn(disk: seq<Receipt>, rs: seq<Receipt>, own: set<string>): seq<Receipt> {
    if rs == [] then disk
    else
      var acc := MergeOwn(disk, rs[..|rs| - 1], own);
      var e := rs[|rs| - 1];
      if e.key !in own || HasKey(acc, e.key) then acc else acc + [e]
  }

  function SumBytes(rs: seq<Receipt>): nat {
    if rs == [] then 0 else rs[0].bytes + SumBytes(rs[1..])
  }

  /** Length of the serialized record: the frame, the receipts, the commas between them. */
  function FileBytes(rs: seq<Receipt>): nat {
    EMPTY_RECORD_BYTES + SumBytes(rs) + if rs == [] then 0 else |rs| - 1
  }

  /** How many oldest entries the size rule sheds, or None when it refuses the write. */
  function Shed(rs: seq<Receipt>, settled: seq<string>): Option<nat>
    decreases |rs|
  {
    if FileBytes(rs) <= READ_LIMIT then Some(0)
    else if |rs| <= 1 || rs[0].key !in settled then None
    else
      var rest := Shed(rs[1..], settled);
      if rest.None? then None else Some(rest.value + 1)
  }

  function Evict(box: Outbox, merged: seq<Receipt>, n: nat): Outbox
    requires n <= |merged|
  {
    var keys := KeysOf(merged[..n]);
    box.(receipts := merged[n..],
         settled := SettleAll(box.settled, keys),
         own := box.own - (set k | k in keys),
         owed := box.owed - (set k | k in keys),
         evicted := box.evicted + n)
  }

  function Overflow(merged: seq<Receipt>): (n: nat)
    ensures n <= |merged| && |merged[n..]| <= CAP
  {
    if |merged| > CAP then |merged| - CAP else 0
  }

  /** What a save would write, before the cap. */
  function Merged(box: Outbox, file: TrailFile, decisive: bool): seq<Receipt> {
    var listed := if box.durable then Listed(file) else [];
    var disk := if decisive && box.durable && file.UnusableTrail? then DropOwn(listed, box.own) else listed;
    MergeOwn(MergeDisk(disk, box.settled), box.receipts, box.own)
  }

  function Freshened(box: Outbox, decisive: bool): Outbox {
    if decisive then box.(lastRead := ReadParsed, grantsUnprovable := false, preserveUnusable := false) else box
  }

  /** saveLocked. `writeOk` is the outcome of the atomic file replacement. */
  function Save(box0: Outbox, file: TrailFile, decisive: bool, writeOk: bool): Saved {
    var box := Freshened(box0, decisive);
    if box.durable && box.preserveUnusable && file.UnusableTrail? then
      Saved(box.(dirty := true), file, EvidenceHeld)
    else
      SaveMerged(box, file, Merged(box, file, decisive), writeOk)
  }

  /** The cap, the size rule and the write, once the entries are merged. */
  function SaveMerged(box: Outbox, file: TrailFile, merged: seq<Receipt>, writeOk: bool): Saved {
    var over := Overflow(merged);
    if !box.durable then
      Saved(Evict(box, merged, over), file, Stored)
    else
      var shed := Shed(merged[over..], box.settled);
      if shed.None? then Saved(box.(dirty := true), file, TooLarge)
      else if !writeOk then Saved(box.(dirty := true), file, WriteFailed)
      else
        ShedFits(merged[over..], box.settled);
        Saved(Evict(box, merged, over + shed.value).(dirty := false),
              Written(merged[over + shed.value..]), Stored)
  }

  lemma ShedFits(rs: seq<Receipt>, settled: seq<string>)
    ensures Shed(rs, settled).Some? ==>
              Shed(rs, settled).value <= |rs| && FileBytes(rs[Shed(rs, settled).value..]) <= READ_LIMIT
    decreases |rs|
  {
    if FileBytes(rs) > READ_LIMIT && |rs| > 1 && rs[0].key in settled {
      ShedFits(rs[1..], settled);
      if Shed(rs[1..], settled).Some? {
        var n := Shed(rs[1..], settled).value;
        assert rs[1..][n..] == rs[n + 1..];
      }
    } else {
      assert rs[0..] == rs;
    }
  }

  // ---------------------------------------------------------------- the other operations

  function Append(box: Outbox, file: TrailFile, r: Receipt, writeOk: bool): Saved {
    Save(box.(own := box.own + {r.key}, receipts := box.receipts + [r]), file, true, writeOk)
  }

  function Without(rs: seq<Receipt>, key: string): seq<Receipt> {
    if rs == [] then []
    else if rs[0].key == key then rs[1..]
    else [rs[0]] + Without(rs[1..], key)
  }

  /** The mirror after a settled receipt leaves it, before the rewrite. */
  function Unlisted(box: Outbox, key: string): Outbox {
    box.(settled := Settle(box.settled, key), owed := box.owed - {key}, own := box.own - {key},
         receipts := Without(box.receipts, key))
  }

  function Prune(box: Outbox, file: TrailFile, key: string, writeOk: bool): Saved {
    if !HasKey(box.receipts, key) then Saved(box, file, Stored)
    else Save(Unlisted(box, key), file, false, writeOk)
  }

  function RetryPersist(box: Outbox, file: TrailFile, writeOk: bool): Saved {
    if !box.dirty then Saved(box, file, Stored) else Save(box, file, false, writeOk)
  }

  predicate HoldsGrants(box: Outbox) {
    box.durable && (box.lastRead == ReadUnusable || box.grantsUnprovable)
  }

  /** In scope, and no grant while grants are held. */
  predicate Dispatchable(r: Receipt, hold: bool, me: Identity) {
    InScope(r, me) && !(hold && r.granted)
  }

  /** nextDispatchable: the oldest receipt of this scope that is not a held grant. */
  function NextUp(rs: seq<Receipt>, hold: bool, me: Identity): Option<Receipt> {
    if rs == [] then None
    else if Dispatchable(rs[0], hold, me) then Some(rs[0])
    else NextUp(rs[1..], hold, me)
  }

  /** latestMatching: the trail's tail as this scope sees it. */
  function Latest(rs: seq<Receipt>, me: Identity): Option<Receipt> {
    if rs == [] then None
    else if InScope(rs[|rs| - 1], me) then Some(rs[|rs| - 1])
    else Latest(rs[..|rs| - 1], me)
  }

  /** maxDecidedAt. */
  function MaxAt(rs: seq<Receipt>): Option<int> {
    if rs == [] then None else MaxStamp(MaxAt(rs[..|rs| - 1]), Some(rs[|rs| - 1].at))
  }

  /** load: entries of this scope become this process's own trail. */
  function LoadBox(file: TrailFile, me: Identity): Outbox {
    Empty(true).(receipts := Listed(file),
                 own := set i | 0 <= i < |Listed(file)| && InScope(Listed(file)[i], me) :: Listed(file)[i].key,
                 lastRead := ClassOf(file))
  }

  // ---------------------------------------------------------------- the state machine, in place

  class ConsentOutbox {
    const durable: bool
    var receipts: seq<Receipt>
    var settledKeys: set<string>
    var settledFIFO: seq<string>
    var ownKeys: set<string>
    var recordOwedKeys: set<string>
    var dirty: bool
    var evictedSinceSave: nat
    var lastRead: ReadClass
    var grantsUnprovable: bool
    var preserveUnusable: bool
    /** consent-outbox.json as the next read will classify it. */
    var file: TrailFile

    ghost predicate Valid()
      reads this
    {
      && Distinct(settledFIFO)
      && (forall k :: k in settledKeys <==> k in settledFIFO)
    }

    ghost function State(): Outbox
      reads this
    {
      Outbox(durable, receipts, settledFIFO, ownKeys, recordOwedKeys, dirty, evictedSinceSave,
             lastRead, grantsUnprovable, preserveUnusable)
    }

    constructor (durable: bool, file: TrailFile)
      ensures Valid() && State() == Empty(durable) && this.file == file
    {
      this.durable := durable;
      receipts, settledKeys, settledFIFO, ownKeys, recordOwedKeys := [], {}, [], {}, {};
      dirty, evictedSinceSave, lastRead, grantsUnprovable, preserveUnusable := false, 0, ReadParsed, false, false;
      this.file := file;
    }

    method RecordSettled(key: string)
      requires Valid()
      modifies this`settledKeys, this`settledFIFO
      ensures Valid() && settledFIFO == Settle(old(settledFIFO), key)
    {
      if key == "" || key in settledKeys { return; }
      settledKeys := settledKeys + {key};
      settledFIFO := settledFIFO + [key];
      if |settledFIFO| > SETTLED_MEMORY {
        ghost var all := settledFIFO;
        settledKeys := settledKeys - {settledFIFO[0]};
        settledFIFO := settledFIFO[1..];
        assert all == [all[0]] + settledFIFO && all[0] !in settledFIFO;
        assert forall k :: k in all <==> k == all[0] || k in settledFIFO;
        assert forall k :: k in old(settledKeys) || k == key <==> k in all;
      }
    }

    method SettleEvictions(keys: seq<string>)
      requires Valid()
      modifies this`settledKeys, this`settledFIFO, this`ownKeys, this`recordOwedKeys, this`evictedSinceSave
      ensures Valid() && settledFIFO == SettleAll(old(settledFIFO), keys)
      ensures ownKeys == old(ownKeys) - (set k | k in keys)
      ensures recordOwedKeys == old(recordOwedKeys) - (set k | k in keys)
      ensures evictedSinceSave == old(evictedSinceSave) + |keys|
    {
      for i := 0 to |keys|
        invariant Valid() && settledFIFO == SettleAll(old(settledFIFO), keys[..i])
        invariant ownKeys == old(ownKeys) - (set k | k in keys[..i])
        invariant recordOwedKeys == old(recordOwedKeys) - (set k | k in keys[..i])
        invariant evictedSinceSave == old(evictedSinceSave)
      {
        assert keys[..i + 1][..i] == keys[..i];
        RecordSettled(keys[i]);
        recordOwedKeys := recordOwedKeys - {keys[i]};
        ownKeys := ownKeys - {keys[i]};
      }
      assert keys[..|keys|] == keys;
      evictedSinceSave := evictedSinceSave + |keys|;
    }

    /** saveLocked, on the entries a decisive read of the file returned. */
    method SaveLocked(diskReceipts: seq<Receipt>, diskUnusable: bool, decisive: bool, writeOk: bool)
      returns (error: SaveError)
      requires Valid()
      requires diskReceipts == if durable then Listed(file) else []
      requires diskUnusable == (durable && file.UnusableTrail?)
      modifies this
      ensures Valid() && Saved(State(), file, error) == Save(old(State()), old(file), decisive, writeOk)
    {
      var disk := diskReceipts;
      if decisive && diskUnusable {
        disk := KeepForeign(diskReceipts);
      }
      if decisive {
        lastRead, grantsUnprovable, preserveUnusable := ReadParsed, false, false;
      }
      if durable && preserveUnusable && diskUnusable {
        dirty := true;
        return EvidenceHeld;
      }
      var merged := MergeLoop(disk);
      error := StoreMerged(merged, writeOk);
    }

    method StoreMerged(merged: seq<Receipt>, writeOk: bool) returns (error: SaveError)
      requires Valid()
      modifies this
      ensures Valid() && Saved(State(), file, error) == SaveMerged(old(State()), old(file), merged, writeOk)
    {
      if !durable {
        Adopt(merged, Overflow(merged));
        return Stored;
      }
      var cut, fits := Fit(merged);
      if !fits {
        dirty := true;
        return TooLarge;
      }
      if !writeOk {
        dirty := true;
        return WriteFailed;
      }
      file := Written(merged[cut..]);
      Adopt(merged, cut);
      dirty := false;
      return Stored;
    }

    /** On success the mirror adopts the merged view and the evictions settle. */
    method Adopt(merged: seq<Receipt>, cut: nat)
      requires Valid() && cut <= |merged|
      modifies this`receipts, this`settledKeys, this`settledFIFO, this`ownKeys, this`recordOwedKeys, this`evictedSinceSave
      ensures Valid() && State() == Evict(old(State()), merged, cut)
    {
      SettleEvictions(KeysOf(merged[..cut]));
      receipts := merged[cut..];
    }

    /** The cap first, then the size rule: how many oldest entries go, and whether the rest may be written. */
    method Fit(merged: seq<Receipt>) returns (cut: nat, fits: bool)
      requires Valid()
      ensures fits <==> Shed(merged[Overflow(merged)..], settledFIFO).Some?
      ensures fits ==> cut <= |merged| && cut == Overflow(merged) + Shed(merged[Overflow(merged)..], settledFIFO).value
    {
      cut := 0;
      while |merged| - cut > CAP
        invariant 0 <= cut <= Overflow(merged)
      {
        cut := cut + 1;
      }
      ghost var over := cut;
      ghost var shed := Shed(merged[over..], settledFIFO);
      while FileBytes(merged[cut..]) > READ_LIMIT && |merged| - cut > 1
        invariant over <= cut <= |merged|
        invariant shed == ShedFrom(merged, cut, settledFIFO, cut - over)
      {
        assert merged[cut..][1..] == merged[cut + 1..];
        if merged[cut].key !in settledKeys {
          return cut, false;
        }
        cut := cut + 1;
      }
      fits := FileBytes(merged[cut..]) <= READ_LIMIT;
    }

    method KeepForeign(rs: seq<Receipt>) returns (kept: seq<Receipt>)
      ensures kept == DropOwn(rs, ownKeys)
    {
      kept := [];
      for i := 0 to |rs|
        invariant kept == DropOwn(rs[..i], ownKeys)
      {
        assert rs[..i + 1][..i] == rs[..i];
        if rs[i].key !in ownKeys { kept := kept + [rs[i]]; }
      }
      assert rs[..|rs|] == rs;
    }

    method MergeLoop(disk: seq<Receipt>) returns (merged: seq<Receipt>)
      requires Valid()
      ensures merged == MergeOwn(MergeDisk(disk, settledFIFO), receipts, ownKeys)
    {
      merged := [];
      var seen: set<string> := {};
      for i := 0 to |disk|
        invariant merged == MergeDisk(disk[..i], settledFIFO)
        invariant forall k :: k in seen <==> HasKey(merged, k)
      {
        assert disk[..i + 1][..i] == disk[..i];
        if disk[i].key !in settledKeys && disk[i].key !in seen {
          HasKeyAfter(merged, disk[i]);
          seen := seen + {disk[i].key};
          merged := merged + [disk[i]];
        }
      }
      assert disk[..|disk|] == disk;
      ghost var base := merged;
      for i := 0 to |receipts|
        invariant merged == MergeOwn(base, receipts[..i], ownKeys)
        invariant forall k :: k in seen <==> HasKey(merged, k)
      {
        assert receipts[..i + 1][..i] == receipts[..i];
        if receipts[i].key in ownKeys && receipts[i].key !in seen {
          HasKeyAfter(merged, receipts[i]);
          seen := seen + {receipts[i].key};
          merged := merged + [receipts[i]];
        }
      }
      assert receipts[..|receipts|] == receipts;
    }

    /** append: a freshly minted receipt is this process's own before it is saved. */
    method AppendReceipt(r: Receipt, diskReceipts: seq<Receipt>, diskUnusable: bool, writeOk: bool)
      returns (persistFailed: bool)
      requires Valid()
      requires diskReceipts == if durable then Listed(file) else []
      requires diskUnusable == (durable && file.UnusableTrail?)
      modifies this
      ensures Valid()
      ensures var s := Append(old(State()), old(file), r, writeOk);
              State() == s.box && file == s.file && persistFailed == FailedDurably(s.error)
    {
      ownKeys := ownKeys + {r.key};
      receipts := receipts + [r];
      var error := SaveLocked(diskReceipts, diskUnusable, true, writeOk);
      persistFailed := FailedDurably(error);
    }

    /** prune: settle first, so the merge cannot bring the receipt back. */
    method PruneReceipt(key: string, diskReceipts: seq<Receipt>, diskUnusable: bool, writeOk: bool)
      returns (persistFailed: bool)
      requires Valid()
      requires diskReceipts == if durable then Listed(file) else []
      requires diskUnusable == (durable && file.UnusableTrail?)
      modifies this
      ensures Valid()
      ensures var s := Prune(old(State()), old(file), key, writeOk);
              State() == s.box && file == s.file && persistFailed == FailedDurably(s.error)
    {
      var found := Unlist(key);
      if !found { return false; }
      var error := SaveLocked(diskReceipts, diskUnusable, false, writeOk);
      persistFailed := FailedDurably(error);
    }

    method Unlist(key: string) returns (found: bool)
      requires Valid()
      modifies this`receipts, this`settledKeys, this`settledFIFO, this`ownKeys, this`recordOwedKeys
      ensures Valid() && found == HasKey(old(receipts), key)
      ensures State() == if found then Unlisted(old(State()), key) else old(State())
    {
      var i := 0;
      while i < |receipts| && receipts[i].key != key
        invariant i <= |receipts| && !HasKey(receipts[..i], key)
        invariant Without(receipts, key) == receipts[..i] + Without(receipts[i..], key)
      {
        assert receipts[i..] == [receipts[i]] + receipts[i + 1..];
        assert receipts[..i + 1] == receipts[..i] + [receipts[i]];
        i := i + 1;
      }
      if i == |receipts| {
        assert receipts[..i] == receipts;
        return false;
      }
      assert receipts[i..][1..] == receipts[i + 1..];
      found := true;
      RecordSettled(key);
      recordOwedKeys := recordOwedKeys - {key};
      ownKeys := ownKeys - {key};
      receipts := receipts[..i] + receipts[i + 1..];
    }

    /** load: the client's own scope becomes its own trail, foreign entries stay disk-refreshed. */
    method LoadTrail(me: Identity)
      requires durable && State() == Empty(true)
      modifies this`receipts, this`ownKeys, this`lastRead
      ensures Valid() == old(Valid()) && State() == LoadBox(file, me)
      ensures receipts == Listed(file) && lastRead == ClassOf(file)
      ensures forall k :: k in ownKeys <==> exists i :: 0 <= i < |receipts| && receipts[i].key == k && InScope(receipts[i], me)
    {
      var loaded := Listed(file);
      lastRead := ClassOf(file);
      for i := 0 to |loaded|
        invariant ownKeys == set k | 0 <= k < i && InScope(loaded[k], me) :: loaded[k].key
        invariant State() == Empty(true).(own := ownKeys, lastRead := ClassOf(file))
      {
        if InScope(loaded[i], me) { ownKeys := ownKeys + {loaded[i].key}; }
      }
      receipts := loaded;
    }

    method MaxDecidedAt() returns (max: Option<int>)
      ensures max == MaxAt(receipts)
      ensures max.None? <==> receipts == []
      ensures max.Some? ==> (exists i :: 0 <= i < |receipts| && receipts[i].at == max.value)
                            && forall i :: 0 <= i < |receipts| ==> receipts[i].at <= max.value
    {
      max := None;
      for i := 0 to |receipts|
        invariant max == MaxAt(receipts[..i])
        invariant max.None? <==> i == 0
        invariant max.Some? ==> (exists k :: 0 <= k < i && receipts[k].at == max.value)
                                && forall k :: 0 <= k < i ==> receipts[k].at <= max.value
      {
        assert receipts[..i + 1][..i] == receipts[..i];
        max := MaxStamp(max, Some(receipts[i].at));
      }
      assert receipts[..|receipts|] == receipts;
    }

    method LatestMatching(me: Identity) returns (latest: Option<Receipt>)
      ensures latest == Latest(receipts, me)
      ensures latest.None? ==> forall k :: 0 <= k < |receipts| ==> !InScope(receipts[k], me)
      ensures latest.Some? ==> exists i :: 0 <= i < |receipts| && receipts[i] == latest.value && InScope(receipts[i], me)
                                           && forall k :: i < k < |receipts| ==> !InScope(receipts[k], me)
    {
      var i := |receipts|;
      assert receipts[..i] == receipts;
      while i > 0
        invariant 0 <= i <= |receipts| && Latest(receipts, me) == Latest(receipts[..i], me)
        invariant forall k :: i <= k < |receipts| ==> !InScope(receipts[k], me)
      {
        assert receipts[..i][..i - 1] == receipts[..i - 1];
        if InScope(receipts[i - 1], me) { return Some(receipts[i - 1]); }
        i := i - 1;
      }
      return None;
    }

    method MarkRecordOwed(key: string)
      modifies this`recordOwedKeys
      ensures Valid() == old(Valid())
      ensures State() == old(State()).(owed := if key == "" then old(recordOwedKeys) else old(recordOwedKeys) + {key})
    {
      if key != "" { recordOwedKeys := recordOwedKeys + {key}; }
    }

    method MarkRecordOwedWhere(matches: Receipt -> bool)
      modifies this`recordOwedKeys
      ensures Valid() == old(Valid())
      ensures State() == old(State()).(owed := old(recordOwedKeys) +
                set i | 0 <= i < |receipts| && matches(receipts[i]) :: receipts[i].key)
    {
      for i := 0 to |receipts|
        invariant State() == old(State()).(owed := old(recordOwedKeys) +
                    set k | 0 <= k < i && matches(receipts[k]) :: receipts[k].key)
      {
        if matches(receipts[i]) { recordOwedKeys := recordOwedKeys + {receipts[i].key}; }
      }
    }

    method ClearRecordOwedMarks()
      modifies this`recordOwedKeys
      ensures Valid() == old(Valid()) && State() == old(State()).(owed := {})
    {
      recordOwedKeys := {};
    }

    method SetGrantsUnprovable(v: bool)
      modifies this`grantsUnprovable
      ensures Valid() == old(Valid()) && State() == old(State()).(grantsUnprovable := v)
    {
      grantsUnprovable := v;
    }

    method PreserveEvidence()
      modifies this`preserveUnusable
      ensures Valid() == old(Valid()) && State() == old(State()).(preserveUnusable := true)
    {
      preserveUnusable := true;
    }

    /** retryPersist: an owed write is attempted again, with no fresh decision. */
    method RetrySave(diskReceipts: seq<Receipt>, diskUnusable: bool, writeOk: bool) returns (attempted: bool, failed: bool)
      requires Valid()
      requires diskReceipts == if durable then Listed(file) else []
      requires diskUnusable == (durable && file.UnusableTrail?)
      modifies this
      ensures Valid() && attempted == old(dirty)
      ensures var s := RetryPersist(old(State()), old(file), writeOk);
              State() == s.box && file == s.file && failed == FailedDurably(s.error)
    {
      if !dirty { return false, false; }
      var error := SaveLocked(diskReceipts, diskUnusable, false, writeOk);
      return true, FailedDurably(error);
    }

    method NextDispatchable(me: Identity) returns (next: Option<Receipt>)
      ensures next == NextUp(receipts, HoldsGrants(State()), me)
      ensures next.None? ==> forall k :: 0 <= k < |receipts| ==> !Dispatchable(receipts[k], HoldsGrants(State()), me)
      ensures next.Some? ==> exists i :: 0 <= i < |receipts| && receipts[i] == next.value
                                         && Dispatchable(receipts[i], HoldsGrants(State()), me)
                                         && forall k :: 0 <= k < i ==> !Dispatchable(receipts[k], HoldsGrants(State()), me)
    {
      var hold := durable && (lastRead == ReadUnusable || grantsUnprovable);
      for i := 0 to |receipts|
        invariant NextUp(receipts, hold, me) == NextUp(receipts[i..], hold, me)
        invariant forall k :: 0 <= k < i ==> !Dispatchable(receipts[k], hold, me)
      {
        assert receipts[i..][1..] == receipts[i + 1..];
        if InScope(receipts[i], me) && !(hold && receipts[i].granted) {
          return Some(receipts[i]);
        }
      }
      return None;
    }
  }

  /** The size rule, started `done` entries later. */
  ghost function ShedFrom(merged: seq<Receipt>, cut: nat, settled: seq<string>, done: nat): Option<nat>
    requires cut <= |merged|
  {
    var rest := Shed(merged[cut..], settled);
    if rest.None? then None else Some(rest.value + done)
  }

  lemma HasKeyAfter(rs: seq<Receipt>, r: Receipt)
    ensures forall k :: HasKey(rs + [r], k) <==> HasKey(rs, k) || k == r.key
  {
    forall k ensures HasKey(rs + [r], k) <==> HasKey(rs, k) || k == r.key {
      if HasKey(rs, k) {
        var i :| 0 <= i < |rs| && rs[i].key == k;
        assert (rs + [r])[i].key == k;
      }
      assert (rs + [r])[|rs|] == r;
    }
  }
}
