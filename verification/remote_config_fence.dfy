/**
 Concurrent numbered fetches over the remote-config cache: which validator a request
 may carry, in which order outcomes land, and what reopens a closed scope, over runs
 with consent flips, attribute changes, failed writes, sibling writers and restarts.
 */
module RemoteConfigFence {
  import opened Basics
  import opened RemoteConfig

  /** A fetch between its two locks, or on the wire with the cache and validator it was dispatched with. */
  datatype Fetch =
    | Prepared(identified: Option<Cache>, anonymous: Option<Cache>, attributed: string)
    | Sent(scope: string, signature: string, etag: string, cache: Option<Cache>)

  /** A fresh 200 under this validator answered a request of this scope and signature. */
  datatype Issue = Issue(etag: string, scope: string, signature: string)

  /** An authoritative outcome that settled its scope; `opens` when it installed a record. */
  datatype Landing = Landing(scope: string, seqNo: nat, opens: bool)

  datatype Client = Client(
    idScope: string,
    anonScope: string,
    identified: bool,
    parse: Parser,
    granted: bool,
    rc: Rc,
    fetchSeq: nat,
    fetches: map<nat, Fetch>,
    // observers
    issued: set<Issue>,
    landings: seq<Landing>)

  datatype Step =
    | Flip(granted: bool)
    | Prepare(attributed: string)
    | Route(n: nat, attributesAllowed: bool)
    | Park(n: nat, reason: string)
    | Respond(n: nat, resp: Response, now: int, writes: Writes)
    | Abort(n: nat)
    | Sibling(record: Cache)
    | Restart

  function CurrentScope(c: Client): string {
    if c.granted then c.idScope else c.anonScope
  }

  /** The validator of the chosen route: only of a cache whose signature is the request's own. */
  function Validator(cache: Option<Cache>, signature: string): string {
    if cache.Some? && cache.value.signature == signature then cache.value.etag else ""
  }

  /** URL, validator and response scope are chosen together from the consent of the moment. */
  function Routed(c: Client, f: Fetch, attributesAllowed: bool): Fetch
    requires f.Prepared?
  {
    if c.granted && c.identified then
      var signature := if f.attributed != "" && attributesAllowed then f.attributed else "";
      Sent(c.idScope, signature, Validator(f.identified, signature), f.identified)
    else Sent(c.anonScope, "", Validator(f.anonymous, ""), f.anonymous)
  }

  /** The outcome of a response, its record stamped with the signature of the fetch. */
  function Outcome(c: Client, f: Fetch, resp: Response, now: int): Applied
    requires f.Sent?
  {
    var a := Apply(f.cache, resp, now, c.parse);
    a.(newCache := if a.newCache.Some? then Some(a.newCache.value.(signature := f.signature)) else None,
       revalidated := if a.revalidated.Some? then Some(a.revalidated.value.(signature := f.signature)) else None)
  }

  function LandingOf(c: Client, n: nat, scope: string, a: Applied, served: Option<Cache>): seq<Landing> {
    if scope == CurrentScope(c) && n > SettledAt(c.rc, scope) && a.authoritative
    then [Landing(scope, n, InstallsRecord(c.rc, n, scope, a, served, c.parse))] else []
  }

  function Preloaded(c: Client): Rc {
    var record := DurableRecord(c.rc.file, CurrentScope(c), c.parse);
    Rc(record, c.rc.file, if record.Some? then Some(c.parse[record.value.body]) else None, map[], map[], map[])
  }

  function Next(c: Client, step: Step): Client {
    match step
    case Flip(granted) => c.(granted := granted)
    case Prepare(attributed) =>
      var n := c.fetchSeq + 1;
      c.(fetchSeq := n,
         fetches := c.fetches[n := Prepared(LoadCache(c.rc, c.idScope, c.parse), LoadCache(c.rc, c.anonScope, c.parse), attributed)])
    case Route(n, allowed) =>
      if n in c.fetches && c.fetches[n].Prepared? then c.(fetches := c.fetches[n := Routed(c, c.fetches[n], allowed)]) else c
    case Park(n, reason) =>
      // a retry window, which keeps the reason it was armed for, answers from the cache instead of the network
      if n in c.fetches && c.fetches[n].Prepared? && reason != "" then
        var f := Routed(c, c.fetches[n], false);
        var s := Settle(c.rc, n, f.scope, CurrentScope(c), ServeCache(f.cache, reason, c.parse), f.cache, Writes(true, true, true), c.parse);
        c.(rc := s.rc, fetches := c.fetches - {n})
      else c
    case Respond(n, resp, now, writes) =>
      if n in c.fetches && c.fetches[n].Sent? then
        var f := c.fetches[n];
        var a := Outcome(c, f, resp, now);
        var s := Settle(c.rc, n, f.scope, CurrentScope(c), a, f.cache, writes, c.parse);
        c.(rc := s.rc, fetches := c.fetches - {n},
           issued := if 200 <= resp.status < 300 then c.issued + {Issue(resp.etag, f.scope, f.signature)} else c.issued,
           landings := c.landings + LandingOf(c, n, f.scope, a, f.cache))
      else c
    case Abort(n) => c.(fetches := c.fetches - {n})
    case Sibling(record) =>
      c.(rc := c.rc.(file := Some(AtRest(record))), issued := c.issued + {Issue(record.etag, record.scope, record.signature)})
    case Restart => c.(rc := Preloaded(c), fetchSeq := 0, fetches := map[], landings := [])
  }

  function Run(c: Client, steps: seq<Step>): Client {
    if steps == [] then c else Next(Run(c, steps[..|steps| - 1]), steps[|steps| - 1])
  }

  // ---------------------------------------------------------------- provenance

  predicate Proven(c: Cache, issued: set<Issue>) {
    c.etag != "" ==> Issue(c.etag, c.scope, c.signature) in issued
  }

  predicate ProvenOption(c: Option<Cache>, scope: string, issued: set<Issue>) {
    c.Some? ==> c.value.scope == scope && Proven(c.value, issued)
  }

  ghost predicate ProvenRc(rc: Rc, issued: set<Issue>) {
    && (rc.held.Some? ==> Proven(rc.held.value, issued))
    && (rc.file.Some? ==> rc.file.value.signature == "" && Proven(rc.file.value, issued))
    && (forall scope :: scope in rc.cleared ==> ProvenOption(rc.cleared[scope], scope, issued))
  }

  predicate ProvenFetch(c: Client, f: Fetch) {
    match f
    case Prepared(identified, anonymous, _) =>
      ProvenOption(identified, c.idScope, c.issued) && ProvenOption(anonymous, c.anonScope, c.issued)
    case Sent(scope, signature, etag, cache) =>
      ProvenOption(cache, scope, c.issued) && etag == Validator(cache, signature)
  }

  ghost predicate AllProven(c: Client) {
    && ProvenRc(c.rc, c.issued)
    && forall n :: n in c.fetches ==> ProvenFetch(c, c.fetches[n])
  }

  /** A 304 answers only a request that carried a validator (section 15.4.5 of RFC 9110). */
  predicate Conditional(c: Client, step: Step) {
    step.Respond? && step.resp.status == 304 && step.n in c.fetches && c.fetches[step.n].Sent? ==>
      c.fetches[step.n].etag != ""
  }

  lemma LoadProven(rc: Rc, scope: string, parse: Parser, issued: set<Issue>)
    requires ProvenRc(rc, issued)
    ensures ProvenOption(LoadCache(rc, scope, parse), scope, issued)
  {
  }

  /** The record of an outcome is proven for the scope and signature of its fetch. */
  lemma OutcomeProven(c: Client, n: nat, resp: Response, now: int, writes: Writes)
    requires AllProven(c) && n in c.fetches && c.fetches[n].Sent? && Conditional(c, Respond(n, resp, now, writes))
    ensures var f := c.fetches[n];
            var a := Outcome(c, f, resp, now);
            var issued := if 200 <= resp.status < 300 then c.issued + {Issue(resp.etag, f.scope, f.signature)} else c.issued;
            RecordOf(a).Some? ==> Proven(RecordOf(a).value.(scope := f.scope), issued)
  {
    ApplyShape(c.fetches[n].cache, resp, now, c.parse);
    assert ProvenFetch(c, c.fetches[n]);
  }

  lemma RecordProven(rc: Rc, record: Cache, content: Option<Content>, served: Option<Cache>, durable: Option<Cache>,
                     renewed: bool, w: Writes, parse: Parser, issued: set<Issue>)
    requires ProvenRc(rc, issued) && Proven(record, issued)
    ensures ProvenRc(WithRecord(rc, record, content, served, durable, renewed, w, parse), issued)
  {
    hide DurableRecord, HeldFor;
  }

  lemma ValuesProven(rc: Rc, scope: string, a: Applied, served: Option<Cache>, w: Writes, parse: Parser, issued: set<Issue>)
    requires ProvenRc(rc, issued) && ProvenOption(served, scope, issued)
    requires RecordOf(a).Some? ==> Proven(RecordOf(a).value.(scope := scope), issued)
    ensures ProvenRc(InstallValues(rc, scope, a, served, w, parse).rc, issued)
  {
    hide WithRecord, DurableRecord, Overtaken;
    if RecordOf(a).Some? {
      RecordProven(rc, RecordOf(a).value.(scope := scope), ContentOf(a), ComparedWith(rc, scope, served),
                   DurableRecord(rc.file, scope, parse), a.newCache.None?, w, parse, issued);
    }
  }

  lemma InstallProven(rc: Rc, seqNo: nat, scope: string, a: Applied, served: Option<Cache>, w: Writes, parse: Parser, issued: set<Issue>)
    requires ProvenRc(rc, issued) && ProvenOption(served, scope, issued)
    requires RecordOf(a).Some? ==> Proven(RecordOf(a).value.(scope := scope), issued)
    ensures ProvenRc(Install(rc, seqNo, scope, a, served, w, parse).rc, issued)
  {
    hide InstallValues;
    ValuesProven(rc, scope, a, served, w, parse, issued);
    ValuesProven(rc.(settled := rc.settled[scope := seqNo]), scope, a, served, w, parse, issued);
  }

  lemma ClearProven(rc: Rc, scope: string, served: Option<Cache>, tombstoneOk: bool, parse: Parser, issued: set<Issue>)
    requires ProvenRc(rc, issued) && ProvenOption(served, scope, issued)
    ensures ProvenRc(ClearPublication(rc, scope, served, tombstoneOk, parse).rc, issued)
  {
  }

  lemma CurrentProven(rc: Rc, seqNo: nat, scope: string, a: Applied, served: Option<Cache>, w: Writes, parse: Parser, issued: set<Issue>)
    requires ProvenRc(rc, issued) && ProvenOption(served, scope, issued)
    requires RecordOf(a).Some? ==> Proven(RecordOf(a).value.(scope := scope), issued)
    ensures ProvenRc(SettleCurrent(rc, seqNo, scope, a, served, w, parse).rc, issued)
  {
    var rc1 := rc.(closed := rc.closed[scope := a.failure]);
    assert ProvenRc(rc1, issued);
    hide Install, ClearPublication, ProvenRc;
    ClearProven(rc1, scope, served, w.tombstoneOk, parse, issued);
    InstallProven(rc, seqNo, scope, a, served, w, parse, issued);
    InstallProven(rc1, seqNo, scope, a, served, w, parse, issued);
    InstallProven(ClearPublication(rc1, scope, served, w.tombstoneOk, parse).rc, seqNo, scope, a, served, w, parse, issued);
  }

  lemma SettleProven(rc: Rc, seqNo: nat, scope: string, current: string, a: Applied, served: Option<Cache>, w: Writes, parse: Parser, issued: set<Issue>)
    requires ProvenRc(rc, issued) && ProvenOption(served, scope, issued)
    requires RecordOf(a).Some? ==> Proven(RecordOf(a).value.(scope := scope), issued)
    ensures ProvenRc(Settle(rc, seqNo, scope, current, a, served, w, parse).rc, issued)
  {
    hide SettleCurrent, ProvenRc;
    CurrentProven(rc, seqNo, scope, a, served, w, parse, issued);
  }

  lemma MoreIssued(c: Client, c': Client)
    requires AllProven(c) && c.issued <= c'.issued && c'.idScope == c.idScope && c'.anonScope == c.anonScope
    requires forall n :: n in c'.fetches ==> n in c.fetches && c'.fetches[n] == c.fetches[n]
    ensures forall n :: n in c'.fetches ==> ProvenFetch(c', c'.fetches[n])
    ensures ProvenRc(c.rc, c'.issued)
  {
    forall n | n in c'.fetches ensures ProvenFetch(c', c'.fetches[n]) { assert ProvenFetch(c, c.fetches[n]); }
  }

  lemma RespondProven(c: Client, n: nat, resp: Response, now: int, writes: Writes)
    requires AllProven(c) && Conditional(c, Respond(n, resp, now, writes))
    ensures AllProven(Next(c, Respond(n, resp, now, writes)))
  {
    if n in c.fetches && c.fetches[n].Sent? {
      var f := c.fetches[n];
      var c' := Next(c, Respond(n, resp, now, writes));
      OutcomeProven(c, n, resp, now, writes);
      assert ProvenFetch(c, f);
      MoreIssued(c, c');
      hide Settle, Outcome;
      SettleProven(c.rc, n, f.scope, CurrentScope(c), Outcome(c, f, resp, now), f.cache, writes, c.parse, c'.issued);
    }
  }

  lemma ParkProven(c: Client, n: nat, reason: string)
    requires AllProven(c)
    ensures AllProven(Next(c, Park(n, reason)))
  {
    if n in c.fetches && c.fetches[n].Prepared? {
      var f := Routed(c, c.fetches[n], false);
      assert ProvenFetch(c, c.fetches[n]);
      MoreIssued(c, Next(c, Park(n, reason)));
      var a := ServeCache(f.cache, reason, c.parse);
      hide Settle;
      SettleProven(c.rc, n, f.scope, CurrentScope(c), a, f.cache, Writes(true, true, true), c.parse, c.issued);
    }
  }

  lemma ProvenStep(c: Client, step: Step)
    requires AllProven(c) && Conditional(c, step)
    ensures AllProven(Next(c, step))
  {
    match step
    case Flip(_) => MoreIssued(c, Next(c, step));
    case Prepare(_) => LoadProven(c.rc, c.idScope, c.parse, c.issued); LoadProven(c.rc, c.anonScope, c.parse, c.issued);
      MoreIssued(c, c);
    case Route(n, _) => MoreIssued(c, c);
    case Park(n, reason) => ParkProven(c, n, reason);
    case Respond(n, resp, now, writes) => RespondProven(c, n, resp, now, writes);
    case Abort(n) => MoreIssued(c, Next(c, step));
    case Sibling(record) => MoreIssued(c, Next(c, step));
    case Restart =>
  }

  ghost predicate ConditionalRun(c: Client, steps: seq<Step>) {
    steps == [] ||
    (ConditionalRun(c, steps[..|steps| - 1]) && Conditional(Run(c, steps[..|steps| - 1]), steps[|steps| - 1]))
  }

  /**
   Validator provenance. Through concurrent fetches, consent flips, attribute changes, failed writes,
   sibling processes and restarts: a validator is only ever sent with a request whose scope and
   attribute signature are those of a fetch that a 200 under that validator answered.
   */
  lemma {:induction false} ValidatorProvenance(c: Client, steps: seq<Step>, n: nat)
    requires AllProven(c) && ConditionalRun(c, steps)
    ensures var e := Run(c, steps);
            && AllProven(e)
            && (n in e.fetches && e.fetches[n].Sent? && e.fetches[n].etag != "" ==>
                  Issue(e.fetches[n].etag, e.fetches[n].scope, e.fetches[n].signature) in e.issued)
  {
    hide Next;
    if steps != [] {
      ValidatorProvenance(c, steps[..|steps| - 1], n);
      ProvenStep(Run(c, steps[..|steps| - 1]), steps[|steps| - 1]);
    }
    var e := Run(c, steps);
    if n in e.fetches { assert ProvenFetch(e, e.fetches[n]); }
  }

  /**
   The condition is needed: answered by a 304 it never asked for, an untargeted fetch turns the
   validator of a targeted body into its own.
   */
  lemma UnaskedRevalidation(parse: Parser, body: string)
    requires body in parse
    ensures var targeted := Cache("s", "v", body, 5, "t");
            var c := Client("s", "a", true, parse, true, Rc(Some(targeted), None, None, map[], map[], map[]), 1,
                            map[1 := Sent("s", "", "", Some(targeted))], {Issue("v", "s", "t")}, []);
            var e := Next(c, Respond(1, Response(304, "", "", true, ""), 9, Writes(true, true, true)));
            && AllProven(c) && e.rc.held.Some?
            && !Proven(e.rc.held.value, e.issued)
            && Routed(e, Prepared(LoadCache(e.rc, "s", parse), None, ""), false).etag == "v"
  {
  }

  // ---------------------------------------------------------------- order and closure over runs

  ghost predicate Ordered(c: Client) {
    && (forall i, j :: 0 <= i < j < |c.landings| && c.landings[i].scope == c.landings[j].scope ==>
          c.landings[i].seqNo < c.landings[j].seqNo)
    && (forall i :: 0 <= i < |c.landings| ==> c.landings[i].seqNo <= SettledAt(c.rc, c.landings[i].scope))
  }

  lemma ValuesSettle(rc: Rc, scope: string, a: Applied, served: Option<Cache>, w: Writes, parse: Parser)
    ensures InstallValues(rc, scope, a, served, w, parse).rc.settled == rc.settled
  {
    hide FileAfter, Raised, DurableRecord, Overtaken;
  }

  lemma InstallSettles(rc: Rc, seqNo: nat, scope: string, a: Applied, served: Option<Cache>, w: Writes, parse: Parser)
    ensures Install(rc, seqNo, scope, a, served, w, parse).rc.settled ==
              if seqNo > SettledAt(rc, scope) && a.authoritative then rc.settled[scope := seqNo] else rc.settled
  {
    hide InstallValues;
    ValuesSettle(rc, scope, a, served, w, parse);
    ValuesSettle(rc.(settled := rc.settled[scope := seqNo]), scope, a, served, w, parse);
  }

  /** Settling moves only the scope of a newer authoritative outcome, to that outcome. */
  lemma SettleAdvances(rc: Rc, seqNo: nat, scope: string, current: string, a: Applied, served: Option<Cache>, w: Writes, parse: Parser)
    ensures Settle(rc, seqNo, scope, current, a, served, w, parse).rc.settled ==
              if scope == current && seqNo > SettledAt(rc, scope) && a.authoritative then rc.settled[scope := seqNo] else rc.settled
  {
    hide ClearPublication, Install;
    var rc1 := rc.(closed := rc.closed[scope := a.failure]);
    ClearLeavesClosed(rc1, scope, served, w.tombstoneOk, parse);
    InstallSettles(rc, seqNo, scope, a, served, w, parse);
    InstallSettles(rc1, seqNo, scope, a, served, w, parse);
    InstallSettles(ClearPublication(rc1, scope, served, w.tombstoneOk, parse).rc, seqNo, scope, a, served, w, parse);
  }

  lemma OrderedStep(c: Client, step: Step)
    requires Ordered(c)
    ensures Ordered(Next(c, step))
  {
    if step.Respond? && step.n in c.fetches && c.fetches[step.n].Sent? {
      var f := c.fetches[step.n];
      hide Settle, Outcome;
      SettleAdvances(c.rc, step.n, f.scope, CurrentScope(c), Outcome(c, f, step.resp, step.now), f.cache, step.writes, c.parse);
    } else if step.Park? && step.n in c.fetches && c.fetches[step.n].Prepared? {
      var f := Routed(c, c.fetches[step.n], false);
      hide Settle, ServeCache;
      SettleAdvances(c.rc, step.n, f.scope, CurrentScope(c), ServeCache(f.cache, step.reason, c.parse), f.cache,
                     Writes(true, true, true), c.parse);
      TransientSettlesNothing(f.cache, step.reason, c.parse);
    }
  }

  lemma TransientSettlesNothing(cache: Option<Cache>, reason: string, parse: Parser)
    ensures !ServeCache(cache, reason, parse).authoritative && RecordOf(ServeCache(cache, reason, parse)).None?
  {
  }

  /**
   Between restarts the authoritative outcomes of each scope land in the order the fetches were
   numbered, however their responses are ordered.
   */
  lemma {:induction false} OutcomesInOrder(c: Client, steps: seq<Step>)
    requires Ordered(c)
    ensures Ordered(Run(c, steps))
  {
    hide Next;
    if steps != [] {
      OutcomesInOrder(c, steps[..|steps| - 1]);
      OrderedStep(Run(c, steps[..|steps| - 1]), steps[|steps| - 1]);
    }
  }

  /** A newer fetch opened `scope` since the landings numbered from `from`. */
  predicate OpenedSince(c: Client, scope: string, from: nat, after: nat) {
    exists k :: from <= k < |c.landings| && c.landings[k].scope == scope && c.landings[k].opens && c.landings[k].seqNo > after
  }

  lemma ClosedStep(c: Client, step: Step, scope: string)
    requires IsClosed(c.rc, scope) && step != Restart
    ensures var c' := Next(c, step);
            && c.landings <= c'.landings
            && SettledAt(c'.rc, scope) >= SettledAt(c.rc, scope)
            && (IsClosed(c'.rc, scope) || OpenedSince(c', scope, |c.landings|, SettledAt(c.rc, scope)))
  {
    if step.Respond? && step.n in c.fetches && c.fetches[step.n].Sent? {
      var f := c.fetches[step.n];
      var a := Outcome(c, f, step.resp, step.now);
      var c' := Next(c, step);
      hide Settle, Outcome, InstallsRecord;
      SettleAdvances(c.rc, step.n, f.scope, CurrentScope(c), a, f.cache, step.writes, c.parse);
      if !IsClosed(c'.rc, scope) {
        OnlyInstallReopens(c.rc, step.n, f.scope, CurrentScope(c), a, f.cache, step.writes, c.parse, scope);
        InstallsAuthoritatively(c, f, step.n, step.resp, step.now);
        assert c'.landings[|c.landings|] == Landing(scope, step.n, true);
      }
    } else if step.Park? && step.n in c.fetches && c.fetches[step.n].Prepared? {
      var f := Routed(c, c.fetches[step.n], false);
      var a := ServeCache(f.cache, step.reason, c.parse);
      TransientSettlesNothing(f.cache, step.reason, c.parse);
      hide Settle, ServeCache;
      SettleAdvances(c.rc, step.n, f.scope, CurrentScope(c), a, f.cache, Writes(true, true, true), c.parse);
      if !IsClosed(Next(c, step).rc, scope) {
        OnlyInstallReopens(c.rc, step.n, f.scope, CurrentScope(c), a, f.cache, Writes(true, true, true), c.parse, scope);
      }
    }
  }

  lemma InstallsAuthoritatively(c: Client, f: Fetch, n: nat, resp: Response, now: int)
    requires f.Sent?
    ensures var a := Outcome(c, f, resp, now);
            InstallsRecord(c.rc, n, f.scope, a, f.cache, c.parse) ==> a.authoritative && n > SettledAt(c.rc, f.scope)
  {
    ApplyShape(f.cache, resp, now, c.parse);
  }

  /**
   Until a restart, a closed scope stays closed, answering callers and getters with defaults only,
   unless a fetch newer than every one settled when it was closed installed a record in it.
   */
  lemma {:induction false} ClosedUntilReopened(c: Client, steps: seq<Step>, scope: string)
    requires IsClosed(c.rc, scope) && Restart !in steps
    ensures var e := Run(c, steps);
            && c.landings <= e.landings && SettledAt(e.rc, scope) >= SettledAt(c.rc, scope)
            && (OpenedSince(e, scope, |c.landings|, SettledAt(c.rc, scope)) ||
                  (IsClosed(e.rc, scope) && forall key :: Lookup(e.rc, scope, key).None?))
  {
    hide Next;
    if steps != [] {
      var front, step := steps[..|steps| - 1], steps[|steps| - 1];
      assert step in steps && forall i :: i in front ==> i in steps;
      ClosedUntilReopened(c, front, scope);
      var m := Run(c, front);
      if OpenedSince(m, scope, |c.landings|, SettledAt(c.rc, scope)) { StaysOpened(m, step, scope, |c.landings|, SettledAt(c.rc, scope)); }
      else { ClosedStep(m, step, scope); }
    }
  }

  lemma StaysOpened(c: Client, step: Step, scope: string, from: nat, after: nat)
    requires OpenedSince(c, scope, from, after) && step != Restart
    ensures var c' := Next(c, step);
            c.landings <= c'.landings && SettledAt(c'.rc, scope) >= SettledAt(c.rc, scope) && OpenedSince(c', scope, from, after)
  {
    var c' := Next(c, step);
    if step.Respond? && step.n in c.fetches && c.fetches[step.n].Sent? {
      var f := c.fetches[step.n];
      hide Settle, Outcome, InstallsRecord;
      SettleAdvances(c.rc, step.n, f.scope, CurrentScope(c), Outcome(c, f, step.resp, step.now), f.cache, step.writes, c.parse);
    } else if step.Park? && step.n in c.fetches && c.fetches[step.n].Prepared? {
      var f := Routed(c, c.fetches[step.n], false);
      hide Settle, ServeCache;
      SettleAdvances(c.rc, step.n, f.scope, CurrentScope(c), ServeCache(f.cache, step.reason, c.parse), f.cache,
                     Writes(true, true, true), c.parse);
    }
    var k :| from <= k < |c.landings| && c.landings[k].scope == scope && c.landings[k].opens && c.landings[k].seqNo > after;
    assert c'.landings[k] == c.landings[k];
  }

  // ---------------------------------------------------------------- what the getters answer from

  /** What one step does to the getters' content: it replaces it, takes it away, or (None) leaves it. */
  function Published(c: Client, step: Step): Option<Option<Content>> {
    match step
    case Respond(n, resp, now, _) =>
      if n in c.fetches && c.fetches[n].Sent? then PublishedBy(c, n, c.fetches[n], Outcome(c, c.fetches[n], resp, now)) else None
    case Park(n, reason) =>
      if n in c.fetches && c.fetches[n].Prepared? && reason != "" then
        var f := Routed(c, c.fetches[n], false);
        PublishedBy(c, n, f, ServeCache(f.cache, reason, c.parse))
      else None
    case Restart =>
      var record := DurableRecord(c.rc.file, CurrentScope(c), c.parse);
      Some(if record.Some? then Some(c.parse[record.value.body]) else None)
    case _ => None
  }

  /** An outcome of the current scope, newer than every one settled there: installed, adopted, or a decision against values. */
  function PublishedBy(c: Client, n: nat, f: Fetch, a: Applied): Option<Option<Content>>
    requires f.Sent?
  {
    if f.scope != CurrentScope(c) || n <= SettledAt(c.rc, f.scope) then None
    else if a.authoritative && a.failure != "" then Some(None)
    else if InstallsRecord(c.rc, n, f.scope, a, f.cache, c.parse) && RecordOf(a).value.body in c.parse then
      Some(Some(c.parse[RecordOf(a).value.body]))
    else if Adopts(c.rc, n, f.scope, a, f.cache) && !IsClosed(c.rc, f.scope) && f.cache.Some? && f.cache.value.body in c.parse then
      Some(Some(c.parse[f.cache.value.body]))
    else None
  }

  /** The content of the last record installed, adopted or reloaded, unless a decision against any values came after. */
  function LastPublished(c: Client, steps: seq<Step>): Option<Content> {
    if steps == [] then c.rc.snapshot
    else
      var front, step := steps[..|steps| - 1], steps[|steps| - 1];
      var published := Published(Run(c, front), step);
      if published.Some? then published.value else LastPublished(c, front)
  }

  lemma OutcomeShaped(cache: Option<Cache>, f: Fetch, c: Client, resp: Response, now: int)
    requires f.Sent? && f.cache == cache
    ensures var a := Outcome(c, f, resp, now);
            && Shaped(a)
            && (RecordOf(a).Some? ==> RecordOf(a).value.body in c.parse && ContentOf(a) == Some(c.parse[RecordOf(a).value.body]))
            && (RecordOf(a).None? && a.failure == "" ==>
                  cache.Some? && cache.value.body in c.parse && ContentOf(a) == Some(c.parse[cache.value.body]))
  {
    ApplyShape(cache, resp, now, c.parse);
    ApplyExactly(cache, resp, now, c.parse);
    hide FreshBody, Transient;
  }

  lemma ParkedShaped(cache: Option<Cache>, reason: string, parse: Parser)
    requires reason != ""
    ensures var a := ServeCache(cache, reason, parse);
            && Shaped(a) && RecordOf(a).None?
            && (a.failure == "" ==> cache.Some? && cache.value.body in parse && ContentOf(a) == Some(parse[cache.value.body]))
  {
  }

  /** A settled outcome leaves the content its publication names. */
  lemma PublishedSettles(c: Client, n: nat, f: Fetch, a: Applied, w: Writes)
    requires f.Sent? && Shaped(a)
    requires RecordOf(a).Some? ==> RecordOf(a).value.body in c.parse && ContentOf(a) == Some(c.parse[RecordOf(a).value.body])
    requires RecordOf(a).None? && a.failure == "" ==>
               f.cache.Some? && f.cache.value.body in c.parse && ContentOf(a) == Some(c.parse[f.cache.value.body])
    ensures var published := PublishedBy(c, n, f, a);
            Settle(c.rc, n, f.scope, CurrentScope(c), a, f.cache, w, c.parse).rc.snapshot ==
            if published.Some? then published.value else c.rc.snapshot
  {
    if f.scope == CurrentScope(c) && n > SettledAt(c.rc, f.scope) {
      SnapshotAfter(c.rc, n, f.scope, a, f.cache, w, c.parse);
      if a.authoritative && a.failure != "" { ClosingSnapshot(c.rc, n, f.scope, a, f.cache, w, c.parse); }
      InstallsValues(c.rc, n, f.scope, a, f.cache, c.parse);
    } else { StaleChangesNothing(c.rc, n, f.scope, CurrentScope(c), a, f.cache, w, c.parse); }
    hide Settle, InstallsRecord, Adopts, IsClosed, RecordOf;
  }

  lemma InstallsValues(rc: Rc, n: nat, scope: string, a: Applied, served: Option<Cache>, parse: Parser)
    ensures InstallsRecord(rc, n, scope, a, served, parse) ==> RecordOf(a).Some?
    ensures Adopts(rc, n, scope, a, served) ==> RecordOf(a).None? && a.failure == ""
  {
  }

  lemma PublishedStep(c: Client, step: Step)
    ensures var published := Published(c, step);
            Next(c, step).rc.snapshot == if published.Some? then published.value else c.rc.snapshot
  {
    if step.Respond? && step.n in c.fetches && c.fetches[step.n].Sent? {
      var f := c.fetches[step.n];
      OutcomeShaped(f.cache, f, c, step.resp, step.now);
      hide Outcome, Settle, PublishedBy, Shaped;
      PublishedSettles(c, step.n, f, Outcome(c, f, step.resp, step.now), step.writes);
    } else if step.Park? && step.n in c.fetches && c.fetches[step.n].Prepared? && step.reason != "" {
      var f := Routed(c, c.fetches[step.n], false);
      ParkedShaped(f.cache, step.reason, c.parse);
      hide Settle, PublishedBy, ServeCache, Shaped;
      PublishedSettles(c, step.n, f, ServeCache(f.cache, step.reason, c.parse), Writes(true, true, true));
    } else { hide Settle, PublishedBy; }
  }

  /**
   The getters answer from what was published last. In every run, through fences, failed writes,
   sibling writers and restarts, while the current scope is open every key looks up to its value in the
   last published content, and to none where that content has none or was taken away.
   */
  lemma {:induction false} GettersShowLastPublished(c: Client, steps: seq<Step>)
    ensures var e := Run(c, steps);
            && e.rc.snapshot == LastPublished(c, steps)
            && (!IsClosed(e.rc, CurrentScope(e)) ==>
                  Shows(e.rc, CurrentScope(e), if LastPublished(c, steps).Some? then LastPublished(c, steps).value.values else map[]))
            && (IsClosed(e.rc, CurrentScope(e)) ==> Shows(e.rc, CurrentScope(e), map[]))
  {
    hide Next, Published;
    if steps != [] {
      GettersShowLastPublished(c, steps[..|steps| - 1]);
      PublishedStep(Run(c, steps[..|steps| - 1]), steps[|steps| - 1]);
    }
  }

  /** The next fetch of the same targeting revalidates what was just installed; one of another targeting asks afresh. */
  lemma NextFetchRevalidates(c: Client, n: nat, resp: Response, now: int, w: Writes, attributed: string, allowed: bool)
    requires c.granted && c.identified && n in c.fetches && c.fetches[n].Sent? && c.fetches[n].scope == c.idScope
    requires FreshBody(resp, c.parse)
    requires InstallsRecord(c.rc, n, c.idScope, Outcome(c, c.fetches[n], resp, now), c.fetches[n].cache, c.parse)
    ensures var c1 := Next(c, Respond(n, resp, now, w));
            var c2 := Next(c1, Prepare(attributed));
            var m := c2.fetchSeq;
            var sent := Next(c2, Route(m, allowed)).fetches[m];
            && sent.Sent? && sent.scope == c.idScope && sent.cache.Some? && sent.cache.value.body == resp.body
            && sent.signature == (if allowed then attributed else "")
            && sent.etag == if sent.signature == c.fetches[n].signature then resp.etag else ""
  {
    var a := Outcome(c, c.fetches[n], resp, now);
    SettledHolds(c.rc, n, c.idScope, a, c.fetches[n].cache, w, c.parse);
    hide Settle, LoadCache, InstallsRecord;
  }

  lemma SettledHolds(rc: Rc, n: nat, scope: string, a: Applied, served: Option<Cache>, w: Writes, parse: Parser)
    requires InstallsRecord(rc, n, scope, a, served, parse) && a.authoritative
    ensures var after := Settle(rc, n, scope, scope, a, served, w, parse).rc;
            var loaded := LoadCache(after, scope, parse);
            && loaded.Some? && loaded.value == RecordOf(a).value.(scope := scope, at := loaded.value.at)
  {
    InstallThenLoad(rc, n, scope, a, served, w, parse);
    InstalledAs(rc, n, scope, a, served, w, parse);
    hide Install, LoadCache, InstallsRecord;
    NoFailure(rc, n, scope, a, served, parse);
  }

  lemma NoFailure(rc: Rc, n: nat, scope: string, a: Applied, served: Option<Cache>, parse: Parser)
    requires InstallsRecord(rc, n, scope, a, served, parse)
    ensures a.failure == "" && n > SettledAt(rc, scope)
  {
  }

  lemma InstalledAs(rc: Rc, n: nat, scope: string, a: Applied, served: Option<Cache>, w: Writes, parse: Parser)
    requires InstallsRecord(rc, n, scope, a, served, parse)
    ensures var i := Install(rc, n, scope, a, served, w, parse).rc;
            i.held.Some? && i.held.value == RecordOf(a).value.(scope := scope, at := i.held.value.at)
  {
    hide DurableRecord, FileAfter, Overtaken;
  }
}
