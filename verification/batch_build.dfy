/**
 Building a batch through the request a failed attempt retained: poisoned members are
 compacted away in place, and a member once encoded keeps its first bytes.
 */
module BatchBuild {
  import opened Basics

  /** `sealed` are the fixed bytes of a fact sealed at intake; other events are encoded when built. */
  datatype Event = Event(id: string, sealed: Option<string>)

  /** Envelope ids and wire bytes, by position. */
  datatype Request = Request(ids: seq<string>, raws: seq<string>)

  const NOTHING := Request([], [])

  predicate Aligned(r: Request) {
    |r.ids| == |r.raws|
  }

  /** How many leading members resend their retained bytes. */
  function Reuse(events: seq<Event>, retained: Request): (n: nat)
    ensures n <= |events| && n <= |retained.ids| && n <= |retained.raws|
  {
    if |retained.ids| > |events| || !Aligned(retained) then 0 else MatchFrom(events, retained, 0)
  }

  function MatchFrom(events: seq<Event>, retained: Request, i: nat): (n: nat)
    requires i <= |retained.ids| <= |events| && Aligned(retained)
    ensures i <= n <= |retained.ids|
    ensures forall k :: i <= k < n ==> retained.ids[k] == events[k].id
    ensures n < |retained.ids| ==> retained.ids[n] != events[n].id
    decreases |retained.ids| - i
  {
    if i == |retained.ids| || retained.ids[i] != events[i].id then i else MatchFrom(events, retained, i + 1)
  }

  /** What the encoder says of an event at this moment. */
  type Encoder = Event -> Option<string>

  function Encodable(events: seq<Event>, enc: Encoder): seq<Event> {
    if events == [] then []
    else
      var front, e := Encodable(events[..|events| - 1], enc), events[|events| - 1];
      if enc(e).Some? then front + [e] else front
  }

  function Unencodable(events: seq<Event>, enc: Encoder): seq<string> {
    if events == [] then []
    else
      var front, e := Unencodable(events[..|events| - 1], enc), events[|events| - 1];
      if enc(e).Some? then front else front + [e.id]
  }

  function Encodings(events: seq<Event>, enc: Encoder): Request {
    if events == [] then NOTHING
    else
      var front, e := Encodings(events[..|events| - 1], enc), events[|events| - 1];
      if enc(e).Some? then Request(front.ids + [e.id], front.raws + [enc(e).value]) else front
  }

  datatype Build = Build(request: Request, kept: seq<Event>, poisoned: seq<string>)

  /** buildBatchIsolating. */
  function BuildOf(events: seq<Event>, retained: Request, enc: Encoder): Build {
    var n := Reuse(events, retained);
    var rest := Encodings(events[n..], enc);
    Build(Request(retained.ids[..n] + rest.ids, retained.raws[..n] + rest.raws),
          events[..n] + Encodable(events[n..], enc),
          Unencodable(events[n..], enc))
  }

  /** The build after the members up to `i`. */
  ghost function BuildUpTo(events: seq<Event>, reuse: nat, i: nat, retained: Request, enc: Encoder): Build
    requires reuse <= i <= |events| && reuse <= |retained.ids| && reuse <= |retained.raws|
  {
    var rest := Encodings(events[reuse..i], enc);
    Build(Request(retained.ids[..reuse] + rest.ids, retained.raws[..reuse] + rest.raws),
          events[..reuse] + Encodable(events[reuse..i], enc),
          Unencodable(events[reuse..i], enc))
  }

  lemma BuildNext(events: seq<Event>, reuse: nat, i: nat, retained: Request, enc: Encoder)
    requires reuse <= i < |events| && reuse <= |retained.ids| && reuse <= |retained.raws|
    ensures var b, e := BuildUpTo(events, reuse, i, retained, enc), events[i];
            BuildUpTo(events, reuse, i + 1, retained, enc) ==
              if enc(e).Some?
              then Build(Request(b.request.ids + [e.id], b.request.raws + [enc(e).value]), b.kept + [e], b.poisoned)
              else b.(poisoned := b.poisoned + [e.id])
  {
    assert events[reuse..i + 1][..i - reuse] == events[reuse..i];
  }

  lemma BuildEnds(events: seq<Event>, retained: Request, enc: Encoder)
    ensures var n := Reuse(events, retained);
            && BuildUpTo(events, n, n, retained, enc) == Build(Request(retained.ids[..n], retained.raws[..n]), events[..n], [])
            && BuildUpTo(events, n, |events|, retained, enc) == BuildOf(events, retained, enc)
  {
    var n := Reuse(events, retained);
    assert events[n..n] == [];
    assert events[n..|events|] == events[n..];
    assert retained.ids[..n] + [] == retained.ids[..n] && retained.raws[..n] + [] == retained.raws[..n];
  }

  /** In place: the kept members slide down over the poisoned ones in the batch's own array. */
  method BuildBatchIsolating(events: array<Event>, count: nat, retained: Request, enc: Encoder)
    returns (request: Request, keptCount: nat, poisoned: seq<string>)
    requires count <= events.Length
    modifies events
    ensures keptCount <= count
    ensures Build(request, events[..keptCount], poisoned) == BuildOf(old(events[..count]), retained, enc)
    ensures poisoned == [] ==> keptCount == count && events[..] == old(events[..])
  {
    ghost var was := events[..count];
    var reuse := ReuseOf(events, count, retained);
    var ids, raws := retained.ids[..reuse], retained.raws[..reuse];
    keptCount, poisoned := reuse, [];
    BuildEnds(was, retained, enc);
    assert events[..reuse] == was[..reuse];
    hide BuildUpTo, BuildOf, Reuse;
    for i := reuse to count
      invariant reuse <= keptCount <= i
      invariant events[i..] == old(events[i..])
      invariant Build(Request(ids, raws), events[..keptCount], poisoned) == BuildUpTo(was, reuse, i, retained, enc)
      invariant poisoned == [] ==> keptCount == i && events[..] == old(events[..])
    {
      BuildNext(was, reuse, i, retained, enc);
      assert events[i] == old(events[i..])[0] == was[i];
      assert old(events[i + 1..]) == old(events[i..])[1..];
      assert events[i + 1..] == events[i..][1..];
      var event := events[i];
      var raw := enc(event);
      if raw.None? {
        poisoned := poisoned + [event.id];
      } else {
        Slide(events, keptCount, i, poisoned != []);
        keptCount := keptCount + 1;
        ids, raws := ids + [event.id], raws + [raw.value];
      }
    }
    request := Request(ids, raws);
  }

  /** The next kept member takes its place, unless nothing has moved yet. */
  method Slide(events: array<Event>, to: nat, from: nat, moved: bool)
    requires to <= from < events.Length && (!moved ==> to == from)
    modifies events
    ensures events[..to + 1] == old(events[..to]) + [old(events[from])]
    ensures events[from + 1..] == old(events[from + 1..])
    ensures !moved ==> events[..] == old(events[..])
  {
    if moved { events[to] := events[from]; }
  }

  method ReuseOf(events: array<Event>, count: nat, retained: Request) returns (reuse: nat)
    requires count <= events.Length
    ensures reuse == Reuse(events[..count], retained)
  {
    if |retained.ids| > count || |retained.ids| != |retained.raws| { return 0; }
    reuse := 0;
    while reuse < |retained.ids| && retained.ids[reuse] == events[reuse].id
      invariant reuse <= |retained.ids|
      invariant MatchFrom(events[..count], retained, 0) == MatchFrom(events[..count], retained, reuse)
    {
      reuse := reuse + 1;
    }
  }

  /** withoutEnvelopeIDs. */
  function WithoutIds(r: Request, gone: set<string>): Request
    decreases |r.ids|
  {
    if !Aligned(r) || r.ids == [] then r
    else
      var last := |r.ids| - 1;
      var front := WithoutIds(Request(r.ids[..last], r.raws[..last]), gone);
      if r.ids[last] in gone then front else Request(front.ids + [r.ids[last]], front.raws + [r.raws[last]])
  }

  method WithoutEnvelopeIds(r: Request, gone: set<string>) returns (kept: Request)
    ensures kept == WithoutIds(r, gone)
  {
    if |r.ids| == 0 || |r.ids| != |r.raws| { return r; }
    var ids: seq<string>, raws: seq<string> := [], [];
    for i := 0 to |r.ids|
      invariant Request(ids, raws) == WithoutIds(Request(r.ids[..i], r.raws[..i]), gone)
    {
      assert r.ids[..i + 1][..i] == r.ids[..i] && r.raws[..i + 1][..i] == r.raws[..i];
      if r.ids[i] !in gone { ids, raws := ids + [r.ids[i]], raws + [r.raws[i]]; }
    }
    assert r.ids[..|r.ids|] == r.ids && r.raws[..|r.ids|] == r.raws;
    return Request(ids, raws);
  }

  function Ids(events: seq<Event>): (ids: seq<string>)
    ensures |ids| == |events| && forall i :: 0 <= i < |events| ==> ids[i] == events[i].id
  {
    seq(|events|, i requires 0 <= i < |events| => events[i].id)
  }

  // ---------------------------------------------------------------- one build

  lemma {:induction false} EncodingsAre(events: seq<Event>, enc: Encoder)
    ensures var r, kept := Encodings(events, enc), Encodable(events, enc);
            && Aligned(r) && r.ids == Ids(kept)
            && (forall i :: 0 <= i < |kept| ==> kept[i] in events && enc(kept[i]) == Some(r.raws[i]))
            && (forall e :: e in events ==> (e in kept <==> enc(e).Some?))
            && |kept| + |Unencodable(events, enc)| == |events|
  {
    if events != [] {
      EncodingsAre(events[..|events| - 1], enc);
      assert events == events[..|events| - 1] + [events[|events| - 1]];
    }
  }

  /**
   Batch, envelopes and bytes stay aligned by position; the kept members are the reused prefix and
   the encodable rest in order, and every other member is reported poisoned.
   */
  lemma BuildAligns(events: seq<Event>, retained: Request, enc: Encoder)
    ensures var b, n := BuildOf(events, retained, enc), Reuse(events, retained);
            && Aligned(b.request) && b.request.ids == Ids(b.kept)
            && |b.kept| + |b.poisoned| == |events|
            && (forall i :: 0 <= i < n ==> b.kept[i] == events[i] && b.request.raws[i] == retained.raws[i])
            && (forall i :: n <= i < |b.kept| ==> b.kept[i] in events[n..] && enc(b.kept[i]) == Some(b.request.raws[i]))
            && (forall e :: e in events[n..] ==> (e in b.kept[n..] <==> enc(e).Some?))
  {
    var n := Reuse(events, retained);
    EncodingsAre(events[n..], enc);
    ReusedNamed(events, retained);
    var rest, more := Encodable(events[n..], enc), Encodings(events[n..], enc);
    Glued(events[..n], rest, Request(retained.ids[..n], retained.raws[..n]), more);
    var b := BuildOf(events, retained, enc);
    hide BuildOf, Reuse, Encodable, Encodings, Unencodable, Ids;
    assert b.kept[n..] == rest;
  }

  /** Two aligned requests, one behind the other. */
  lemma Glued(front: seq<Event>, rest: seq<Event>, reused: Request, more: Request)
    requires Aligned(reused) && Aligned(more) && reused.ids == Ids(front) && more.ids == Ids(rest)
    ensures var kept, r := front + rest, Request(reused.ids + more.ids, reused.raws + more.raws);
            && Aligned(r) && r.ids == Ids(kept)
            && (forall i :: 0 <= i < |front| ==> kept[i] == front[i] && r.raws[i] == reused.raws[i])
            && (forall i :: |front| <= i < |kept| ==> kept[i] == rest[i - |front|] && r.raws[i] == more.raws[i - |front|])
  {
  }

  lemma ReusedNamed(events: seq<Event>, retained: Request)
    ensures var n := Reuse(events, retained); retained.ids[..n] == Ids(events[..n])
  {
    hide MatchFrom;
    var n := Reuse(events, retained);
    assert forall k :: 0 <= k < n ==> retained.ids[k] == events[k].id;
  }

  /**
   Order: the member at `i` of the rest stands in the batch, or its id in the poisoned list, at the
   place that counts the members before it that went the same way.
   */
  lemma {:induction false} OrderKept(events: seq<Event>, enc: Encoder, i: nat)
    requires i < |events|
    ensures var at := |Encodable(events[..i], enc)|;
            enc(events[i]).Some? ==> at < |Encodable(events, enc)| && Encodable(events, enc)[at] == events[i]
    ensures var at := |Unencodable(events[..i], enc)|;
            enc(events[i]).None? ==> at < |Unencodable(events, enc)| && Unencodable(events, enc)[at] == events[i].id
    decreases |events|
  {
    var front := events[..|events| - 1];
    if i < |front| {
      assert front[..i] == events[..i];
      OrderKept(front, enc, i);
    }
  }

  // ---------------------------------------------------------------- over retries and removals

  /** The worker's batch between publishes; `first` is the first encoding each id ever got. */
  datatype Retry = Retry(batch: seq<Event>, held: seq<Event>, retained: Request, first: map<string, string>, known: set<string>)

  datatype Step =
    | Join(e: Event)
    | FailedBuild(enc: Encoder)
    | FinishedBuild(enc: Encoder)
    | Withdraw(gone: set<string>)
    | Hold(gone: set<string>)
    | Rejoin

  function Keeping(events: seq<Event>, gone: set<string>, keep: bool): seq<Event> {
    if events == [] then []
    else
      var front, e := Keeping(events[..|events| - 1], gone, keep), events[|events| - 1];
      if (e.id !in gone) == keep then front + [e] else front
  }

  /** Remembers the first encoding of each id. */
  function Noted(first: map<string, string>, r: Request): map<string, string>
    requires Aligned(r)
    decreases |r.ids|
  {
    if r.ids == [] then first
    else
      var last := |r.ids| - 1;
      var front := Noted(first, Request(r.ids[..last], r.raws[..last]));
      if r.ids[last] in front then front else front[r.ids[last] := r.raws[last]]
  }

  /** An encoder gives a sealed fact its sealed bytes. */
  ghost predicate Honest(enc: Encoder) {
    forall e: Event :: e.sealed.Some? ==> enc(e) == e.sealed
  }

  ghost predicate HonestStep(step: Step) {
    match step
    case FailedBuild(enc) => Honest(enc)
    case FinishedBuild(enc) => Honest(enc)
    case _ => true
  }

  function Built(s: Retry, enc: Encoder): Build {
    BuildOf(s.batch, s.retained, enc)
  }

  function Next(s: Retry, step: Step): Retry {
    match step
    case Join(e) => if e.id in s.known then s else s.(batch := s.batch + [e], known := s.known + {e.id})
    case FailedBuild(enc) =>
      var b := Built(s, enc);
      BuildAligns(s.batch, s.retained, enc);
      s.(batch := b.kept, retained := b.request, first := Noted(s.first, b.request))
    case FinishedBuild(enc) =>
      var b := Built(s, enc);
      BuildAligns(s.batch, s.retained, enc);
      s.(batch := [], retained := NOTHING, first := Noted(s.first, b.request))
    case Withdraw(gone) => s.(batch := Keeping(s.batch, gone, true), retained := WithoutIds(s.retained, gone))
    case Hold(gone) =>
      if exists i :: 0 <= i < |s.batch| && s.batch[i].id in gone && s.batch[i].sealed.None? then s
      else
        s.(batch := Keeping(s.batch, gone, true), held := s.held + Keeping(s.batch, gone, false),
           retained := WithoutIds(s.retained, gone))
    case Rejoin => s.(batch := s.batch + s.held, held := [])
  }

  function Run(s: Retry, steps: seq<Step>): Retry {
    if steps == [] then s else Next(Run(s, steps[..|steps| - 1]), steps[|steps| - 1])
  }

  predicate DistinctIds(events: seq<Event>) {
    forall i, j :: 0 <= i < j < |events| ==> events[i].id != events[j].id
  }

  /** An event not covered by retained bytes has none yet, or its sealed ones. */
  predicate Unspent(first: map<string, string>, e: Event) {
    e.id in first ==> e.sealed == Some(first[e.id])
  }

  ghost predicate Steady(s: Retry) {
    && DistinctIds(s.batch + s.held)
    && (forall i :: 0 <= i < |s.batch| ==> s.batch[i].id in s.known)
    && (forall i :: 0 <= i < |s.held| ==> s.held[i].id in s.known && s.held[i].sealed.Some?)
    && (forall id :: id in s.first ==> id in s.known)
    && Aligned(s.retained) && |s.retained.ids| <= |s.batch|
    && (forall i :: 0 <= i < |s.retained.ids| ==> RetainedAt(s, i))
    && (forall i :: |s.retained.ids| <= i < |s.batch| ==> Unspent(s.first, s.batch[i]))
    && (forall i :: 0 <= i < |s.batch| ==> SealedFirst(s.first, s.batch[i]))
    && (forall i :: 0 <= i < |s.held| ==> SealedFirst(s.first, s.held[i]))
  }

  /** Retained bytes are the member's first. */
  predicate RetainedAt(s: Retry, i: nat)
    requires Aligned(s.retained) && i < |s.retained.ids| <= |s.batch|
  {
    s.retained.ids[i] == s.batch[i].id && s.retained.ids[i] in s.first && s.retained.raws[i] == s.first[s.retained.ids[i]]
  }

  predicate SealedFirst(first: map<string, string>, e: Event) {
    e.sealed.Some? && e.id in first ==> first[e.id] == e.sealed.value
  }

  /** With nothing reordered the whole retained prefix is reused. */
  lemma {:induction false} MatchesAll(events: seq<Event>, retained: Request, i: nat)
    requires i <= |retained.ids| <= |events| && Aligned(retained)
    requires forall k :: 0 <= k < |retained.ids| ==> retained.ids[k] == events[k].id
    ensures MatchFrom(events, retained, i) == |retained.ids|
    decreases |retained.ids| - i
  {
    if i < |retained.ids| { MatchesAll(events, retained, i + 1); }
  }

  lemma {:induction false} NotedKeeps(first: map<string, string>, r: Request)
    requires Aligned(r)
    ensures forall id :: id in first ==> id in Noted(first, r) && Noted(first, r)[id] == first[id]
    ensures forall id :: id in Noted(first, r) <==> id in first || id in r.ids
    decreases |r.ids|
  {
    if r.ids != [] {
      var last := |r.ids| - 1;
      NotedKeeps(first, Request(r.ids[..last], r.raws[..last]));
      assert r.ids == r.ids[..last] + [r.ids[last]];
    }
  }

  predicate DistinctRequest(r: Request) {
    forall i, j :: 0 <= i < j < |r.ids| ==> r.ids[i] != r.ids[j]
  }

  lemma {:induction false} NotedAt(first: map<string, string>, r: Request, i: nat)
    requires Aligned(r) && DistinctRequest(r) && i < |r.ids|
    ensures r.ids[i] in Noted(first, r)
    ensures Noted(first, r)[r.ids[i]] == if r.ids[i] in first then first[r.ids[i]] else r.raws[i]
    decreases |r.ids|
  {
    var last := |r.ids| - 1;
    var front := Request(r.ids[..last], r.raws[..last]);
    NotedKeeps(first, front);
    if i < last { NotedAt(first, front, i); }
    else { assert r.ids[last] !in front.ids by { forall k | 0 <= k < last ensures front.ids[k] != r.ids[last] { assert r.ids[k] != r.ids[last]; } } }
  }

  /** Every member of a build carries the first bytes its id ever got. */
  lemma BuildSteady(s: Retry, enc: Encoder)
    requires Steady(s) && Honest(enc)
    ensures var b := Built(s, enc);
            && Aligned(b.request) && b.request.ids == Ids(b.kept) && DistinctIds(b.kept)
            && (forall e :: e in b.kept ==> e in s.batch)
            && var first := Noted(s.first, b.request);
            && (forall i :: 0 <= i < |b.request.ids| ==> b.request.ids[i] in first && b.request.raws[i] == first[b.request.ids[i]])
  {
    PrefixMatches(s);
    MatchesAll(s.batch, s.retained, 0);
    BuildAligns(s.batch, s.retained, enc);
    var b, n := Built(s, enc), |s.retained.ids|;
    assert Reuse(s.batch, s.retained) == n;
    EncodableDistinct(s.batch, n, enc);
    NotedKeeps(s.first, b.request);
    hide BuildOf, Noted;
    forall i | 0 <= i < |b.request.ids|
      ensures b.request.ids[i] in Noted(s.first, b.request) && b.request.raws[i] == Noted(s.first, b.request)[b.request.ids[i]]
    {
      NotedAt(s.first, b.request, i);
      if i < n { assert RetainedAt(s, i); }
      else { FreshSuffix(s, enc, b.kept[i]); }
    }
  }

  lemma PrefixMatches(s: Retry)
    requires Steady(s)
    ensures DistinctIds(s.batch) && forall k :: 0 <= k < |s.retained.ids| ==> s.retained.ids[k] == s.batch[k].id
  {
    forall i, j | 0 <= i < j < |s.batch| ensures s.batch[i].id != s.batch[j].id {
      assert (s.batch + s.held)[i] == s.batch[i] && (s.batch + s.held)[j] == s.batch[j];
    }
    forall k | 0 <= k < |s.retained.ids| ensures s.retained.ids[k] == s.batch[k].id { assert RetainedAt(s, k); }
  }

  /** A member beyond the retained prefix encodes to its first bytes, if it has any. */
  lemma FreshSuffix(s: Retry, enc: Encoder, e: Event)
    requires Steady(s) && Honest(enc) && e in s.batch[|s.retained.ids|..]
    ensures e.id in s.first ==> enc(e) == Some(s.first[e.id])
  {
    var n := |s.retained.ids|;
    var k :| 0 <= k < |s.batch[n..]| && s.batch[n..][k] == e;
    assert s.batch[n + k] == e && Unspent(s.first, e);
  }

  lemma {:induction false} EncodableIn(events: seq<Event>, enc: Encoder)
    ensures forall e :: e in Encodable(events, enc) ==> e in events
    ensures DistinctIds(events) ==> DistinctIds(Encodable(events, enc))
  {
    if events != [] {
      var front, e := events[..|events| - 1], events[|events| - 1];
      EncodableIn(front, enc);
      assert events == front + [e];
      if DistinctIds(events) {
        assert DistinctIds(front);
        forall i | 0 <= i < |Encodable(front, enc)| ensures Encodable(front, enc)[i].id != e.id {
          assert Encodable(front, enc)[i] in Encodable(front, enc);
          var k :| 0 <= k < |front| && front[k] == Encodable(front, enc)[i];
          assert events[k].id != events[|events| - 1].id;
        }
      }
    }
  }

  lemma EncodableDistinct(events: seq<Event>, n: nat, enc: Encoder)
    requires n <= |events| && DistinctIds(events)
    ensures var kept := events[..n] + Encodable(events[n..], enc);
            DistinctIds(kept) && forall e :: e in kept ==> e in events
  {
    EncodableIn(events[n..], enc);
    var tail := Encodable(events[n..], enc);
    var kept := events[..n] + tail;
    forall i, j | 0 <= i < j < |kept| ensures kept[i].id != kept[j].id {
      if i < n <= j {
        assert tail[j - n] in tail;
        var k :| 0 <= k < |events[n..]| && events[n..][k] == tail[j - n];
        assert kept[i] == events[i] && events[n + k] == kept[j];
      }
    }
  }

  predicate Disjoint(a: seq<Event>, b: seq<Event>) {
    forall x, y :: x in a && y in b ==> x.id != y.id
  }

  lemma DistinctConcat(a: seq<Event>, b: seq<Event>)
    ensures DistinctIds(a + b) <==> DistinctIds(a) && DistinctIds(b) && Disjoint(a, b)
  {
    var c := a + b;
    if DistinctIds(c) {
      forall i, j | 0 <= i < j < |a| ensures a[i].id != a[j].id { assert c[i] == a[i] && c[j] == a[j]; }
      forall i, j | 0 <= i < j < |b| ensures b[i].id != b[j].id { assert c[|a| + i] == b[i] && c[|a| + j] == b[j]; }
      forall x, y | x in a && y in b ensures x.id != y.id {
        var i :| 0 <= i < |a| && a[i] == x;
        var j :| 0 <= j < |b| && b[j] == y;
        assert c[i] == x && c[|a| + j] == y;
      }
    }
    if DistinctIds(a) && DistinctIds(b) && Disjoint(a, b) {
      forall i, j | 0 <= i < j < |c| ensures c[i].id != c[j].id {
        if i < |a| <= j { assert a[i] in a && b[j - |a|] in b; }
      }
    }
  }

  lemma {:induction false} KeepingIn(events: seq<Event>, gone: set<string>, keep: bool)
    ensures forall e :: e in Keeping(events, gone, keep) <==> e in events && (e.id !in gone) == keep
    ensures DistinctIds(events) ==> DistinctIds(Keeping(events, gone, keep))
  {
    if events != [] {
      var front, e := events[..|events| - 1], events[|events| - 1];
      KeepingIn(front, gone, keep);
      assert events == front + [e];
      DistinctConcat(front, [e]);
      DistinctConcat(Keeping(front, gone, keep), [e]);
    }
  }

  lemma {:induction false} KeepingConcat(a: seq<Event>, b: seq<Event>, gone: set<string>)
    ensures Keeping(a + b, gone, true) == Keeping(a, gone, true) + Keeping(b, gone, true)
  {
    if b == [] {
      assert a + b == a;
    } else {
      assert (a + b)[..|a + b| - 1] == a + b[..|b| - 1];
      KeepingConcat(a, b[..|b| - 1], gone);
    }
  }

  /** Filtering batch prefix and retained request by the same ids keeps them aligned, and keeps the bytes. */
  lemma {:induction false} FiltersAlign(prefix: seq<Event>, r: Request, first: map<string, string>, gone: set<string>)
    requires Aligned(r) && |prefix| == |r.ids|
    requires forall i :: 0 <= i < |r.ids| ==> r.ids[i] == prefix[i].id && r.ids[i] in first && r.raws[i] == first[r.ids[i]]
    ensures var w, k := WithoutIds(r, gone), Keeping(prefix, gone, true);
            && Aligned(w) && |w.ids| == |k|
            && (forall i :: 0 <= i < |w.ids| ==> w.ids[i] == k[i].id && w.ids[i] in first && w.raws[i] == first[w.ids[i]])
    decreases |prefix|
  {
    if prefix != [] {
      var last := |r.ids| - 1;
      FiltersAlign(prefix[..last], Request(r.ids[..last], r.raws[..last]), first, gone);
    }
  }

  /** Members of the filtered batch and of the held facts keep what is known of them. */
  lemma MembersKept(s: Retry, gone: set<string>)
    requires Steady(s)
    ensures forall e :: e in Keeping(s.batch, gone, true) ==> e.id in s.known && SealedFirst(s.first, e)
  {
    KeepingIn(s.batch, gone, true);
    hide Keeping;
    forall e | e in Keeping(s.batch, gone, true) ensures e.id in s.known && SealedFirst(s.first, e) {
      var j :| 0 <= j < |s.batch| && s.batch[j] == e;
    }
  }

  lemma SuffixKept(s: Retry, gone: set<string>)
    requires Steady(s)
    ensures forall e :: e in Keeping(s.batch[|s.retained.ids|..], gone, true) ==> Unspent(s.first, e)
  {
    var n := |s.retained.ids|;
    var suffix := s.batch[n..];
    KeepingIn(suffix, gone, true);
    hide Keeping;
    forall e | e in Keeping(suffix, gone, true) ensures Unspent(s.first, e) {
      var j :| 0 <= j < |suffix| && suffix[j] == e;
      assert s.batch[n + j] == e;
    }
  }

  lemma PrefixKept(s: Retry, gone: set<string>)
    requires Steady(s)
    ensures var n := |s.retained.ids|;
            var w, k := WithoutIds(s.retained, gone), Keeping(s.batch[..n], gone, true);
            && Keeping(s.batch, gone, true) == k + Keeping(s.batch[n..], gone, true)
            && Aligned(w) && |w.ids| == |k|
            && (forall i :: 0 <= i < |w.ids| ==> w.ids[i] == k[i].id && w.ids[i] in s.first && w.raws[i] == s.first[w.ids[i]])
  {
    var n := |s.retained.ids|;
    PrefixMatches(s);
    forall i | 0 <= i < n
      ensures s.retained.ids[i] == s.batch[..n][i].id && s.retained.ids[i] in s.first
              && s.retained.raws[i] == s.first[s.retained.ids[i]]
    { assert RetainedAt(s, i); }
    FiltersAlign(s.batch[..n], s.retained, s.first, gone);
    assert s.batch == s.batch[..n] + s.batch[n..];
    KeepingConcat(s.batch[..n], s.batch[n..], gone);
  }

  lemma SteadyWithdraw(s: Retry, gone: set<string>, held: seq<Event>)
    requires Steady(s)
    requires held == s.held || held == s.held + Keeping(s.batch, gone, false)
    requires forall e :: e in held ==> e.sealed.Some? && SealedFirst(s.first, e) && e.id in s.known
    ensures Steady(s.(batch := Keeping(s.batch, gone, true), held := held, retained := WithoutIds(s.retained, gone)))
  {
    PrefixKept(s, gone);
    SuffixKept(s, gone);
    MembersKept(s, gone);
    KeptDistinct(s, gone, held);
    SteadyFrom(s, Keeping(s.batch[..|s.retained.ids|], gone, true), Keeping(s.batch[|s.retained.ids|..], gone, true),
               held, WithoutIds(s.retained, gone));
  }

  /** The parts of a steady state, put together. */
  lemma SteadyFrom(s: Retry, prefix: seq<Event>, suffix: seq<Event>, held: seq<Event>, retained: Request)
    requires DistinctIds(prefix + suffix + held)
    requires Aligned(retained) && |retained.ids| == |prefix|
    requires forall i :: 0 <= i < |prefix| ==>
               retained.ids[i] == prefix[i].id && retained.ids[i] in s.first && retained.raws[i] == s.first[retained.ids[i]]
    requires forall e :: e in suffix ==> Unspent(s.first, e)
    requires forall e :: e in prefix + suffix ==> e.id in s.known && SealedFirst(s.first, e)
    requires forall e :: e in held ==> e.sealed.Some? && SealedFirst(s.first, e) && e.id in s.known
    requires forall id :: id in s.first ==> id in s.known
    ensures Steady(s.(batch := prefix + suffix, held := held, retained := retained))
  {
    hide DistinctIds, SealedFirst;
    var t := s.(batch := prefix + suffix, held := held, retained := retained);
    forall i | 0 <= i < |retained.ids| ensures RetainedAt(t, i) {}
    forall i | |retained.ids| <= i < |t.batch| ensures Unspent(t.first, t.batch[i]) { assert t.batch[i] == suffix[i - |prefix|]; }
    forall i | 0 <= i < |t.batch| ensures t.batch[i].id in t.known && SealedFirst(t.first, t.batch[i]) { assert t.batch[i] in t.batch; }
    forall i | 0 <= i < |held| ensures held[i].id in t.known && held[i].sealed.Some? && SealedFirst(t.first, held[i]) {
      assert held[i] in held;
    }
  }

  lemma KeptDistinct(s: Retry, gone: set<string>, held: seq<Event>)
    requires DistinctIds(s.batch + s.held)
    requires held == s.held || held == s.held + Keeping(s.batch, gone, false)
    ensures DistinctIds(Keeping(s.batch, gone, true) + held)
  {
    DistinctConcat(s.batch, s.held);
    KeepingIn(s.batch, gone, true);
    KeepingIn(s.batch, gone, false);
    DistinctConcat(s.held, Keeping(s.batch, gone, false));
    DistinctConcat(Keeping(s.batch, gone, true), held);
  }

  lemma SteadyHold(s: Retry, gone: set<string>)
    requires Steady(s)
    ensures Steady(Next(s, Hold(gone)))
  {
    if forall i :: 0 <= i < |s.batch| && s.batch[i].id in gone ==> s.batch[i].sealed.Some? {
      KeepingIn(s.batch, gone, false);
      var held := s.held + Keeping(s.batch, gone, false);
      forall e | e in held ensures e.sealed.Some? && SealedFirst(s.first, e) && e.id in s.known {
        if e in s.held { var i :| 0 <= i < |s.held| && s.held[i] == e; }
        else { var i :| 0 <= i < |s.batch| && s.batch[i] == e; }
      }
      hide Keeping;
      SteadyWithdraw(s, gone, held);
    }
  }

  lemma SteadyJoin(s: Retry, e: Event)
    requires Steady(s) && e.id !in s.known
    ensures Steady(Next(s, Join(e)))
  {
    var t := Next(s, Join(e));
    DistinctConcat(s.batch, s.held);
    forall x | x in s.batch ensures x.id != e.id { var i :| 0 <= i < |s.batch| && s.batch[i] == x; }
    forall x | x in s.held ensures x.id != e.id { var i :| 0 <= i < |s.held| && s.held[i] == x; }
    DistinctConcat(s.batch, [e]);
    DistinctConcat(t.batch, s.held);
    hide DistinctIds;
    forall i | 0 <= i < |t.retained.ids| ensures RetainedAt(t, i) { assert RetainedAt(s, i); }
  }

  lemma SteadyRejoin(s: Retry)
    requires Steady(s)
    ensures Steady(Next(s, Rejoin))
  {
    var t := Next(s, Rejoin);
    assert t.batch + t.held == s.batch + s.held;
    hide DistinctIds;
    forall i | 0 <= i < |t.retained.ids| ensures RetainedAt(t, i) { assert RetainedAt(s, i); }
    forall i | |t.retained.ids| <= i < |t.batch| ensures Unspent(t.first, t.batch[i]) {
      if i >= |s.batch| { assert t.batch[i] == s.held[i - |s.batch|]; }
    }
  }

  /** What is known of every built member and every held fact, over the bytes noted with this build. */
  lemma BuiltFacts(s: Retry, enc: Encoder)
    requires Steady(s) && Honest(enc)
    ensures Aligned(Built(s, enc).request)
    ensures var b, first := Built(s, enc), Noted(s.first, Built(s, enc).request);
            && DistinctIds(b.kept + s.held) && DistinctIds(s.held)
            && (forall e :: e in b.kept ==> e.id in s.known && SealedFirst(first, e))
            && (forall e :: e in s.held ==> e.sealed.Some? && SealedFirst(first, e) && e.id in s.known)
  {
    BuildSteady(s, enc);
    var b := Built(s, enc);
    SealedKept(s, enc);
    SealedHeld(s, enc);
    KnownKept(s, enc);
    HeldSteady(s);
    DistinctConcat(s.batch, s.held);
    DistinctConcat(b.kept, s.held);
    var first := Noted(s.first, b.request);
    hide BuildOf, Noted, DistinctIds, SealedFirst, Steady;
    forall e | e in s.held ensures SealedFirst(first, e) { var i :| 0 <= i < |s.held| && s.held[i] == e; }
    forall e | e in b.kept ensures SealedFirst(first, e) { var i :| 0 <= i < |b.kept| && b.kept[i] == e; }
  }

  lemma SteadyFailed(s: Retry, enc: Encoder)
    requires Steady(s) && Honest(enc)
    ensures Steady(Next(s, FailedBuild(enc)))
  {
    BuildSteady(s, enc);
    BuiltFacts(s, enc);
    KnownKept(s, enc);
    var b := Built(s, enc);
    var none: seq<Event> := [];
    assert b.kept + none == b.kept;
    var t := s.(first := Noted(s.first, b.request));
    hide BuildOf, Noted, DistinctIds, SealedFirst, Steady;
    SteadyFrom(t, b.kept, none, s.held, b.request);
  }

  lemma SteadyFinished(s: Retry, enc: Encoder)
    requires Steady(s) && Honest(enc)
    ensures Steady(Next(s, FinishedBuild(enc)))
  {
    BuildSteady(s, enc);
    BuiltFacts(s, enc);
    KnownKept(s, enc);
    var b := Built(s, enc);
    var none: seq<Event> := [];
    assert none + none + s.held == s.held;
    assert none + none == none;
    var t := s.(first := Noted(s.first, b.request));
    hide BuildOf, Noted, DistinctIds, SealedFirst, Steady;
    SteadyFrom(t, none, none, s.held, NOTHING);
  }

  lemma KnownKept(s: Retry, enc: Encoder)
    requires Steady(s) && Honest(enc)
    ensures var b := Built(s, enc);
            && Aligned(b.request)
            && (forall e :: e in b.kept ==> e.id in s.known)
            && (forall id :: id in Noted(s.first, b.request) ==> id in s.known)
  {
    BuildSteady(s, enc);
    var b := Built(s, enc);
    NotedKeeps(s.first, b.request);
    hide BuildOf, Noted;
    forall e | e in b.kept ensures e.id in s.known { var k :| 0 <= k < |s.batch| && s.batch[k] == e; }
    forall id | id in Noted(s.first, b.request) ensures id in s.known {
      if id !in s.first {
        var i :| 0 <= i < |b.request.ids| && b.request.ids[i] == id;
        assert b.kept[i] in b.kept;
      }
    }
  }

  lemma SealedKept(s: Retry, enc: Encoder)
    requires Steady(s) && Honest(enc)
    ensures var b := Built(s, enc);
            Aligned(b.request) && forall i :: 0 <= i < |b.kept| ==> SealedFirst(Noted(s.first, b.request), b.kept[i])
  {
    BuildSteady(s, enc);
    BuildAligns(s.batch, s.retained, enc);
    PrefixMatches(s);
    MatchesAll(s.batch, s.retained, 0);
    var b, n := Built(s, enc), |s.retained.ids|;
    hide BuildOf, Noted;
    forall i | 0 <= i < |b.kept| ensures SealedFirst(Noted(s.first, b.request), b.kept[i]) {
      assert b.request.ids[i] == b.kept[i].id;
      if i < n { assert RetainedAt(s, i); assert SealedFirst(s.first, s.batch[i]); }
    }
  }

  lemma SealedHeld(s: Retry, enc: Encoder)
    requires Steady(s) && Honest(enc)
    ensures var b := Built(s, enc);
            Aligned(b.request) && forall i :: 0 <= i < |s.held| ==> SealedFirst(Noted(s.first, b.request), s.held[i])
  {
    BuildSteady(s, enc);
    var b := Built(s, enc);
    NotedKeeps(s.first, b.request);
    DistinctConcat(s.batch, s.held);
    hide BuildOf, Noted;
    forall i | 0 <= i < |s.held| ensures SealedFirst(Noted(s.first, b.request), s.held[i]) {
      NotBuilt(b.kept, s.batch, s.held, i);
    }
  }

  lemma NotBuilt(kept: seq<Event>, batch: seq<Event>, held: seq<Event>, i: nat)
    requires i < |held| && Disjoint(batch, held) && forall e :: e in kept ==> e in batch
    ensures held[i].id !in Ids(kept)
  {
    forall k | 0 <= k < |kept| ensures Ids(kept)[k] != held[i].id { assert kept[k] in kept && held[i] in held; }
  }

  lemma SteadyStep(s: Retry, step: Step)
    requires Steady(s) && HonestStep(step)
    ensures Steady(Next(s, step))
    ensures forall id :: id in s.first ==> id in Next(s, step).first && Next(s, step).first[id] == s.first[id]
  {
    hide Steady, Keeping;
    match step
    case Join(e) => if e.id !in s.known { SteadyJoin(s, e); }
    case FailedBuild(enc) => SteadyFailed(s, enc); BuildAligns(s.batch, s.retained, enc); NotedKeeps(s.first, Built(s, enc).request);
    case FinishedBuild(enc) => SteadyFinished(s, enc); BuildAligns(s.batch, s.retained, enc); NotedKeeps(s.first, Built(s, enc).request);
    case Withdraw(gone) => HeldSteady(s); SteadyWithdraw(s, gone, s.held);
    case Hold(gone) => SteadyHold(s, gone);
    case Rejoin => SteadyRejoin(s);
  }

  lemma HeldSteady(s: Retry)
    requires Steady(s)
    ensures forall e :: e in s.held ==> e.sealed.Some? && SealedFirst(s.first, e) && e.id in s.known
  {
    forall e | e in s.held ensures e.sealed.Some? && SealedFirst(s.first, e) && e.id in s.known {
      var i :| 0 <= i < |s.held| && s.held[i] == e;
    }
  }

  ghost predicate HonestRun(steps: seq<Step>) {
    forall i :: 0 <= i < |steps| ==> HonestStep(steps[i])
  }

  predicate Fresh(s: Retry) {
    s.batch == [] && s.held == [] && s.retained == NOTHING && s.first == map[] && s.known == {}
  }

  lemma {:induction false} SteadyRun(s: Retry, steps: seq<Step>)
    requires Steady(s) && HonestRun(steps)
    ensures Steady(Run(s, steps))
    ensures forall id :: id in s.first ==> id in Run(s, steps).first && Run(s, steps).first[id] == s.first[id]
  {
    hide Steady, Next, HonestStep;
    if steps != [] {
      var front := steps[..|steps| - 1];
      assert HonestRun(front) by { forall i | 0 <= i < |front| ensures HonestStep(front[i]) { assert front[i] == steps[i]; } }
      SteadyRun(s, front);
      assert HonestStep(steps[|steps| - 1]);
      SteadyStep(Run(s, front), steps[|steps| - 1]);
    }
  }

  /**
   Byte stability. Over any sequence of failed and finished builds, joins, withdrawals, holds and
   rejoins, with encoders that may change their mind about any event between two builds: every build
   gives each member the first bytes its id ever got, and those never change.
   */
  lemma FirstBytesForever(s: Retry, before: seq<Step>, enc: Encoder, after: seq<Step>)
    requires Fresh(s) && HonestRun(before) && Honest(enc) && HonestRun(after)
    ensures var m := Run(s, before);
            var request := Built(m, enc).request;
            var later := Run(Next(m, FailedBuild(enc)), after);
            && Aligned(request)
            && (forall i :: 0 <= i < |request.ids| ==>
                  request.ids[i] in later.first && later.first[request.ids[i]] == request.raws[i])
            && (forall id :: id in m.first ==> id in later.first && later.first[id] == m.first[id])
  {
    SteadyRun(s, before);
    var m := Run(s, before);
    BuildSteady(m, enc);
    SteadyStep(m, FailedBuild(enc));
    SteadyRun(Next(m, FailedBuild(enc)), after);
    hide Run, Built, Noted;
  }
}
