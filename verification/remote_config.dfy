/**
 The remote-config cache: what a response becomes, how an outcome is settled and
 installed, and what the next load returns.
 */
module RemoteConfig {
  import opened Basics

  /** The last-known-good record. `signature` is the attribute signature of the fetch that produced it. */
  datatype Cache = Cache(scope: string, etag: string, body: string, at: int, signature: string)

  datatype Content = Content(values: map<string, string>, version: Option<int>)

  /** Which body texts parse, and to what. */
  type Parser = map<string, Content>

  /** What the transport returns; status 0 is a transport failure, `usable` a body read whole within the cap. */
  datatype Response = Response(status: nat, etag: string, body: string, usable: bool, code: string)

  datatype Served = Served(content: Content, fromCache: bool, reason: string)

  datatype Applied = Applied(
    result: Option<Served>,
    newCache: Option<Cache>,
    authoritative: bool,
    revalidated: Option<Cache>,
    failure: string)

  // ---------------------------------------------------------------- one outcome

  function ServeCache(cache: Option<Cache>, reason: string, parse: Parser): Applied {
    if cache.Some? && cache.value.body in parse
    then Applied(Some(Served(parse[cache.value.body], true, reason)), None, false, None, "")
    else Applied(None, None, false, None, reason)
  }

  /** applyRemoteConfig, pure in the response and the cache captured at dispatch. */
  function Apply(cache: Option<Cache>, resp: Response, now: int, parse: Parser): Applied {
    if 200 <= resp.status < 300 then
      if resp.usable && resp.body in parse
      then Applied(Some(Served(parse[resp.body], false, "")), Some(Cache("", resp.etag, resp.body, now, "")), true, None, "")
      else ServeCache(cache, "malformed_response", parse)
    else if resp.status == 304 && cache.Some? then
      if cache.value.body in parse
      then Applied(Some(Served(parse[cache.value.body], true, "")), None, true,
                   Some(Cache("", cache.value.etag, cache.value.body, now, "")), "")
      else Applied(None, None, false, None, "cache_unreadable_after_304")
    else if resp.status == 401 || resp.status == 403 then
      Applied(None, None, true, None,
              if resp.status == 403 && resp.code == "runtime_disabled" then "runtime_disabled" else "unauthorized")
    else if resp.status == 404 && resp.code == "remote_config_not_published" then
      Applied(None, None, true, None, "remote_config_not_published")
    else if resp.status == 0 then ServeCache(cache, "http_0", parse)
    else if resp.status == 408 then ServeCache(cache, "transient_408", parse)
    else if resp.status == 429 then ServeCache(cache, "transient_429", parse)
    else if resp.status >= 500 then ServeCache(cache, "transient_5xx", parse)
    else Applied(None, None, true, None, "http_status")
  }

  /** Values or a failure, never both; a record only ever comes from a fresh 200 or a confirmed cache. */
  lemma ApplyShape(cache: Option<Cache>, resp: Response, now: int, parse: Parser)
    ensures var a := Apply(cache, resp, now, parse);
            && (a.result.Some? <==> a.failure == "")
            && (a.newCache.Some? ==> a.authoritative && a.failure == "" && 200 <= resp.status < 300)
            && (a.newCache.Some? ==> a.newCache.value.body == resp.body && a.newCache.value.body in parse)
            && (a.revalidated.Some? ==> a.authoritative && a.failure == "" && resp.status == 304 && cache.Some?)
            && (a.revalidated.Some? ==> a.revalidated.value.(at := 0) == Cache("", cache.value.etag, cache.value.body, 0, ""))
            && (a.authoritative && a.failure == "" ==> a.newCache.Some? != a.revalidated.Some?)
            && (a.result.Some? && !a.authoritative ==> cache.Some? && a.result.value.fromCache)
            && (a.result.Some? && !a.authoritative ==> a.result.value.content == parse[cache.value.body])
  {
  }

  /** A body that may be served: read whole, and it parses. */
  predicate FreshBody(resp: Response, parse: Parser) {
    200 <= resp.status < 300 && resp.usable && resp.body in parse
  }

  /** The server did not speak: a malformed success, no status, a timeout, a refusal to answer now, an error of its own. */
  predicate Transient(resp: Response, parse: Parser) {
    || (200 <= resp.status < 300 && !FreshBody(resp, parse))
    || resp.status == 0 || resp.status == 408 || resp.status == 429 || resp.status >= 500
  }

  /**
   Which answer becomes what. A fresh body serves its own content and is the next record; a confirmed
   cache serves the cached content under its old validator; a transient answer decides nothing and
   falls back on a cache that parses; every other answer decides, against any values.
   */
  lemma ApplyExactly(cache: Option<Cache>, resp: Response, now: int, parse: Parser)
    ensures var a := Apply(cache, resp, now, parse);
            var confirmed := resp.status == 304 && cache.Some?;
            && (FreshBody(resp, parse) ==>
                  a == Applied(Some(Served(parse[resp.body], false, "")), Some(Cache("", resp.etag, resp.body, now, "")), true, None, ""))
            && (confirmed && cache.value.body in parse ==>
                  a.result == Some(Served(parse[cache.value.body], true, "")) && a.newCache.None? && a.authoritative
                  && a.revalidated == Some(Cache("", cache.value.etag, cache.value.body, now, "")))
            && (Transient(resp, parse) || (confirmed && cache.value.body !in parse) ==>
                  !a.authoritative && RecordOf(a).None?)
            && (Transient(resp, parse) && cache.Some? && cache.value.body in parse ==>
                  a.failure == "" && a.result.value.content == parse[cache.value.body] && a.result.value.fromCache
                  && a.result.value.reason != "")
            && (Transient(resp, parse) && (cache.None? || cache.value.body !in parse) ==> a.failure != "" && a.result.None?)
            && (!FreshBody(resp, parse) && !confirmed && !Transient(resp, parse) ==>
                  a.authoritative && a.failure != "" && a.result.None? && RecordOf(a).None?)
            && (a.failure == "remote_config_not_published" <==> resp.status == 404 && resp.code == "remote_config_not_published")
  {
  }

  // ---------------------------------------------------------------- the cache

  /** The process's state; `file` is the durable record as a read finds it, None when there is none or it is unusable. */
  datatype Rc = Rc(
    held: Option<Cache>,
    file: Option<Cache>,
    snapshot: Option<Content>,
    settled: map<string, nat>,
    closed: map<string, string>,
    cleared: map<string, Option<Cache>>)

  /** The outcomes of an install's two writes: the record, and the tombstone after it fails. */
  datatype Writes = Writes(hasPath: bool, saveOk: bool, tombstoneOk: bool)

  function DurableRecord(file: Option<Cache>, scope: string, parse: Parser): Option<Cache> {
    if file.Some? && file.value.scope == scope && file.value.body in parse then file else None
  }

  /** An attributed record rests without its validator, and no record's signature is written. */
  function AtRest(c: Cache): Cache {
    c.(etag := if c.signature != "" then "" else c.etag, signature := "")
  }

  function HeldFor(rc: Rc, scope: string): Option<Cache> {
    if rc.held.Some? && rc.held.value.scope == scope then rc.held else None
  }

  /** loadCacheLocked: the fresher of the two records, the process's own on a tie. */
  function LoadCache(rc: Rc, scope: string, parse: Parser): Option<Cache> {
    if scope in rc.cleared then None
    else
      var held, durable := HeldFor(rc, scope), DurableRecord(rc.file, scope, parse);
      if held.Some? && (durable.None? || durable.value.at <= held.value.at) then held else durable
  }

  function StampOf(c: Option<Cache>): int {
    if c.Some? then c.value.at else 0
  }

  /** raiseStampAboveSuperseded. */
  function Raised(rc: Rc, record: Cache, served: Option<Cache>, durable: Option<Cache>): Cache {
    var floor := Max(0, Max(StampOf(served), Max(StampOf(HeldFor(rc, record.scope)), StampOf(durable))));
    if record.at <= floor then record.(at := floor + 1) else record
  }

  function SettledAt(rc: Rc, scope: string): nat {
    if scope in rc.settled then rc.settled[scope] else 0
  }

  /** A different body got into the file while this fetch was under way. */
  predicate Overtaken(record: Cache, served: Option<Cache>, durable: Option<Cache>) {
    durable.Some? && durable.value.body != record.body && (served.None? || durable.value.at > served.value.at)
  }

  /** What an outcome is compared with: the cache it was dispatched against, or the withdrawn publication. */
  function ComparedWith(rc: Rc, scope: string, served: Option<Cache>): Option<Cache> {
    if served.Some? then served else if scope in rc.cleared then rc.cleared[scope] else None
  }

  /** The file after an installed record's write, and after the stale copy is cleared when it fails. */
  function FileAfter(rc: Rc, record: Cache, served: Option<Cache>, renewed: bool, w: Writes, parse: Parser): Option<Cache> {
    if !w.hasPath then rc.file
    else if w.saveOk then Some(AtRest(record))
    else
      var durable := DurableRecord(rc.file, record.scope, parse);
      if durable.Some? && served.Some? && durable.value.at <= served.value.at
         && (!renewed || durable.value.body != record.body) && w.tombstoneOk
      then None else rc.file
  }

  datatype Installed = Installed(rc: Rc, persistFailed: bool)

  function RecordOf(a: Applied): Option<Cache> {
    if a.newCache.Some? then a.newCache else a.revalidated
  }

  /** The part of an install behind its fence, for an outcome with values. */
  function InstallValues(rc: Rc, scope: string, a: Applied, served0: Option<Cache>, w: Writes, parse: Parser): Installed {
    var record, served := RecordOf(a), ComparedWith(rc, scope, served0);
    if record.Some? then
      var durable := DurableRecord(rc.file, scope, parse);
      if Overtaken(record.value, served, durable) then Installed(rc, false)
      else
        Installed(WithRecord(rc, record.value.(scope := scope), ContentOf(a), served, durable, a.newCache.None?, w, parse),
                  w.hasPath && !w.saveOk)
    else if Fresher(rc, scope, served) then
      Installed(rc.(held := served, snapshot := ContentOf(a)), false)
    else Installed(rc, false)
  }

  function WithRecord(rc: Rc, record: Cache, content: Option<Content>, served: Option<Cache>, durable: Option<Cache>,
                      renewed: bool, w: Writes, parse: Parser): Rc {
    var r := Raised(rc, record, served, durable);
    rc.(closed := rc.closed - {record.scope}, cleared := rc.cleared - {record.scope}, held := Some(r),
        file := FileAfter(rc, r, served, renewed, w, parse), snapshot := content)
  }

  /** installLocked. */
  function Install(rc0: Rc, seqNo: nat, scope: string, a: Applied, served: Option<Cache>, w: Writes, parse: Parser): Installed {
    if seqNo <= SettledAt(rc0, scope) then Installed(rc0, false)
    else
      var rc := if a.authoritative then rc0.(settled := rc0.settled[scope := seqNo]) else rc0;
      if a.failure != "" then
        Installed(if a.authoritative then rc.(snapshot := None) else rc, false)
      else InstallValues(rc, scope, a, served, w, parse)
  }

  function ContentOf(a: Applied): Option<Content> {
    if a.result.Some? then Some(a.result.value.content) else None
  }

  /** clearPublicationLocked; `tombstoneOk` is its write's outcome. */
  function ClearPublication(rc: Rc, scope: string, served0: Option<Cache>, tombstoneOk: bool, parse: Parser): Installed {
    var durable := DurableRecord(rc.file, scope, parse);
    var served := ComparedWith(rc, scope, served0);
    var after := rc.(held := if HeldFor(rc, scope).Some? then None else rc.held, cleared := rc.cleared[scope := served]);
    if durable.Some? && served.Some? && durable.value.at <= served.value.at
    then Installed(if tombstoneOk then after.(file := None) else after, !tombstoneOk)
    else Installed(after, false)
  }

  datatype Settled = Settled(rc: Rc, result: Option<Served>, failure: string, persistFailed: bool)

  /** settleRemoteConfigLocked; retry windows aside. */
  function Settle(rc0: Rc, seqNo: nat, scope: string, current: string, a: Applied, served: Option<Cache>, w: Writes, parse: Parser): Settled {
    var s := if scope == current && seqNo > SettledAt(rc0, scope) then SettleCurrent(rc0, seqNo, scope, a, served, w, parse)
             else Installed(rc0, false);
    if IsClosed(s.rc, scope) then
      Settled(s.rc, None, if a.failure == "" then s.rc.closed[scope] else a.failure, s.persistFailed)
    else Settled(s.rc, a.result, a.failure, s.persistFailed)
  }

  function SettleCurrent(rc0: Rc, seqNo: nat, scope: string, a: Applied, served: Option<Cache>, w: Writes, parse: Parser): Installed {
    var closes := a.authoritative && a.failure != "";
    var rc1 := if closes then rc0.(closed := rc0.closed[scope := a.failure]) else rc0;
    var c := if closes && a.failure == "remote_config_not_published" then ClearPublication(rc1, scope, served, w.tombstoneOk, parse)
             else Installed(rc1, false);
    if !IsClosed(c.rc, scope) || a.authoritative then
      var i := Install(c.rc, seqNo, scope, a, served, w, parse);
      Installed(i.rc, i.persistFailed || c.persistFailed)
    else c
  }

  predicate IsClosed(rc: Rc, scope: string) {
    scope in rc.closed && rc.closed[scope] != ""
  }

  /** remoteConfigLookup: a closed scope answers every key with the caller's default. */
  function Lookup(rc: Rc, current: string, key: string): Option<string> {
    if key == "" || rc.snapshot.None? || IsClosed(rc, current) then None
    else if key in rc.snapshot.value.values then Some(rc.snapshot.value.values[key]) else None
  }

  /** The served record is fresher than the held one of its scope, or there is none. */
  predicate Fresher(rc: Rc, scope: string, served: Option<Cache>) {
    served.Some? && (HeldFor(rc, scope).None? || served.value.at > rc.held.value.at)
  }

  predicate InstallsRecord(rc: Rc, seqNo: nat, scope: string, a: Applied, served0: Option<Cache>, parse: Parser) {
    && seqNo > SettledAt(rc, scope) && a.failure == ""
    && RecordOf(a).Some?
    && !Overtaken(RecordOf(a).value, ComparedWith(rc, scope, served0), DurableRecord(rc.file, scope, parse))
  }

  /** An outcome served from a cache is adopted when that cache is fresher than what the process holds. */
  predicate Adopts(rc: Rc, seqNo: nat, scope: string, a: Applied, served0: Option<Cache>) {
    && seqNo > SettledAt(rc, scope) && a.failure == ""
    && RecordOf(a).None? && Fresher(rc, scope, ComparedWith(rc, scope, served0))
  }

  /** What every outcome of an answer has: values or a failure, and only a decision brings a record. */
  predicate Shaped(a: Applied) {
    && (a.result.Some? <==> a.failure == "")
    && (RecordOf(a).Some? <==> a.authoritative && a.failure == "")
  }

  /** The getters of `current` answer from `values` alone. */
  ghost predicate Shows(rc: Rc, current: string, values: map<string, string>) {
    forall key :: Lookup(rc, current, key) == if key != "" && key in values then Some(values[key]) else None
  }

  /**
   What settling an outcome does to the getters: a newer outcome of the current scope that installs or
   is adopted shows its own values, one that decides against any values leaves none, and everything
   else leaves the getters of an open scope as they were.
   */
  ghost predicate GettersAfter(before: Rc, after: Rc, seqNo: nat, scope: string, current: string, a: Applied,
                               served: Option<Cache>, parse: Parser)
    requires Shaped(a)
  {
    var newer := scope == current && seqNo > SettledAt(before, scope);
    && (newer && InstallsRecord(before, seqNo, scope, a, served, parse) ==> Shows(after, current, a.result.value.content.values))
    && (newer && Adopts(before, seqNo, scope, a, served) && !IsClosed(before, scope) ==>
          Shows(after, current, a.result.value.content.values))
    && (newer && a.authoritative && a.failure != "" ==> Shows(after, current, map[]) && after.snapshot.None?)
    && (!newer
        || (!InstallsRecord(before, seqNo, scope, a, served, parse) && !(a.authoritative && a.failure != "")
            && (IsClosed(before, scope) || !Adopts(before, seqNo, scope, a, served)))
        ==> after.snapshot == before.snapshot && forall key :: Lookup(after, current, key) == Lookup(before, current, key))
  }

  // ---------------------------------------------------------------- in place

  class RemoteConfigState {
    var held: Option<Cache>
    var snapshot: Option<Content>
    var settled: map<string, nat>
    var closedScopes: map<string, string>
    var cleared: map<string, Option<Cache>>
    /** The durable record. */
    var file: Option<Cache>

    ghost function Value(): Rc
      reads this
    {
      Rc(held, file, snapshot, settled, closedScopes, cleared)
    }

    constructor (file: Option<Cache>)
      ensures Value() == Rc(None, file, None, map[], map[], map[])
    {
      held, snapshot, settled, closedScopes, cleared := None, None, map[], map[], map[];
      this.file := file;
    }

    method LoadCacheLocked(scope: string, parse: Parser) returns (cache: Option<Cache>)
      ensures cache == LoadCache(Value(), scope, parse)
      ensures var own := held.Some? && held.value.scope == scope;
              var durable := file.Some? && file.value.scope == scope && file.value.body in parse;
              if scope in cleared || (!own && !durable) then cache.None?
              else if own && durable then cache == (if file.value.at > held.value.at then file else held)
              else cache == (if own then held else file)
    {
      if scope in cleared { return None; }
      var own: Option<Cache> := None;
      if held.Some? && held.value.scope == scope { own := held; }
      var durable := DurableRecord(file, scope, parse);
      if own.Some? && (durable.None? || durable.value.at <= own.value.at) { return own; }
      return durable;
    }

    method RaiseStampAboveSuperseded(record: Cache, served: Option<Cache>, durable: Option<Cache>) returns (r: Cache)
      ensures r == Raised(Value(), record, served, durable)
      ensures r == record.(at := r.at) && r.at >= record.at && r.at > 0
      ensures (served.Some? ==> r.at > served.value.at) && (durable.Some? ==> r.at > durable.value.at)
      ensures held.Some? && held.value.scope == record.scope ==> r.at > held.value.at
    {
      var floor := 0;
      if served.Some? && served.value.at > floor { floor := served.value.at; }
      if held.Some? && held.value.scope == record.scope && held.value.at > floor { floor := held.value.at; }
      if durable.Some? && durable.value.at > floor { floor := durable.value.at; }
      r := if record.at <= floor then record.(at := floor + 1) else record;
    }

    method InstallRecord(record: Cache, content: Option<Content>, served: Option<Cache>, durable: Option<Cache>,
                         renewed: bool, w: Writes, parse: Parser) returns (persistFailed: bool)
      requires durable == DurableRecord(file, record.scope, parse)
      modifies this
      ensures Value() == WithRecord(old(Value()), record, content, served, durable, renewed, w, parse)
      ensures persistFailed == (w.hasPath && !w.saveOk)
      ensures snapshot == content && held.Some? && held.value == record.(at := held.value.at) && settled == old(settled)
      ensures closedScopes == old(closedScopes) - {record.scope} && cleared == old(cleared) - {record.scope}
      ensures w.hasPath && w.saveOk ==> file == Some(AtRest(held.value))
    {
      var r := RaiseStampAboveSuperseded(record, served, durable);
      closedScopes := closedScopes - {record.scope};
      cleared := cleared - {record.scope};
      held := Some(r);
      persistFailed := false;
      if w.hasPath {
        if w.saveOk {
          file := Some(AtRest(r));
        } else {
          if durable.Some? && served.Some? && durable.value.at <= served.value.at
             && (!renewed || durable.value.body != r.body) && w.tombstoneOk
          {
            file := None;
          }
          persistFailed := true;
        }
      }
      snapshot := content;
    }

    method InstallLocked(seqNo: nat, scope: string, a: Applied, served: Option<Cache>, w: Writes, parse: Parser)
      returns (persistFailed: bool)
      modifies this
      ensures Installed(Value(), persistFailed) == Install(old(Value()), seqNo, scope, a, served, w, parse)
      ensures settled == if seqNo > SettledAt(old(Value()), scope) && a.authoritative then old(settled)[scope := seqNo] else old(settled)
      ensures InstallsRecord(old(Value()), seqNo, scope, a, served, parse) ==>
                && snapshot == ContentOf(a) && held.Some? && held.value.scope == scope && held.value.body == RecordOf(a).value.body
                && scope !in closedScopes && scope !in cleared && persistFailed == (w.hasPath && !w.saveOk)
                && (w.hasPath && w.saveOk ==> file == Some(AtRest(held.value)))
      ensures Adopts(old(Value()), seqNo, scope, a, served) ==>
                snapshot == ContentOf(a) && held == ComparedWith(old(Value()), scope, served) && file == old(file)
      ensures !InstallsRecord(old(Value()), seqNo, scope, a, served, parse) && !Adopts(old(Value()), seqNo, scope, a, served) ==>
                && held == old(held) && file == old(file) && closedScopes == old(closedScopes) && cleared == old(cleared)
                && snapshot == (if seqNo > SettledAt(old(Value()), scope) && a.authoritative && a.failure != "" then None else old(snapshot))
    {
      hide InstallValues;
      if seqNo <= (if scope in settled then settled[scope] else 0) { return false; }
      if a.authoritative { settled := settled[scope := seqNo]; }
      if a.failure != "" {
        if a.authoritative { snapshot := None; }
        return false;
      }
      persistFailed := InstallServed(scope, a, served, w, parse);
    }

    method InstallServed(scope: string, a: Applied, served0: Option<Cache>, w: Writes, parse: Parser) returns (persistFailed: bool)
      modifies this
      ensures Installed(Value(), persistFailed) == InstallValues(old(Value()), scope, a, served0, w, parse)
      ensures settled == old(settled)
      ensures var record, served := RecordOf(a), ComparedWith(old(Value()), scope, served0);
              if record.Some? && !Overtaken(record.value, served, DurableRecord(old(file), scope, parse)) then
                && snapshot == ContentOf(a) && held.Some? && held.value.scope == scope && held.value.body == record.value.body
                && scope !in closedScopes && scope !in cleared && persistFailed == (w.hasPath && !w.saveOk)
                && (w.hasPath && w.saveOk ==> file == Some(AtRest(held.value)))
              else if record.None? && Fresher(old(Value()), scope, served) then
                Value() == old(Value()).(snapshot := ContentOf(a), held := served)
              else Value() == old(Value())
    {
      hide WithRecord, DurableRecord;
      var record := if a.newCache.Some? then a.newCache else a.revalidated;
      var served := served0;
      if served.None? && scope in cleared { served := cleared[scope]; }
      if record.Some? {
        var durable := DurableRecord(file, scope, parse);
        if durable.Some? && durable.value.body != record.value.body
           && (served.None? || durable.value.at > served.value.at)
        {
          return false;
        }
        persistFailed := InstallRecord(record.value.(scope := scope), ContentOf(a), served, durable, a.newCache.None?, w, parse);
        return persistFailed;
      }
      if served.Some? && (held.None? || held.value.scope != scope || served.value.at > held.value.at) {
        held := served;
        snapshot := ContentOf(a);
      }
      return false;
    }

    method ClearPublicationLocked(scope: string, served0: Option<Cache>, tombstoneOk: bool, parse: Parser)
      returns (persistFailed: bool)
      modifies this
      ensures Installed(Value(), persistFailed) == ClearPublication(old(Value()), scope, served0, tombstoneOk, parse)
      ensures LoadCache(Value(), scope, parse).None? && (held.Some? ==> held.value.scope != scope)
      ensures scope in cleared && cleared[scope] == ComparedWith(old(Value()), scope, served0)
      ensures var withdrawn, durable := cleared[scope], DurableRecord(old(file), scope, parse);
              var stale := durable.Some? && withdrawn.Some? && durable.value.at <= withdrawn.value.at;
              file == (if stale && tombstoneOk then None else old(file)) && persistFailed == (stale && !tombstoneOk)
    {
      var durable := DurableRecord(file, scope, parse);
      if held.Some? && held.value.scope == scope { held := None; }
      var served := served0;
      if served.None? && scope in cleared { served := cleared[scope]; }
      cleared := cleared[scope := served];
      if durable.Some? && served.Some? && durable.value.at <= served.value.at {
        if tombstoneOk { file := None; }
        return !tombstoneOk;
      }
      return false;
    }

    method SettleCurrentLocked(seqNo: nat, scope: string, a: Applied, served: Option<Cache>, w: Writes, parse: Parser)
      returns (persistFailed: bool)
      modifies this
      ensures Installed(Value(), persistFailed) == SettleCurrent(old(Value()), seqNo, scope, a, served, w, parse)
    {
      hide Install, ClearPublication;
      persistFailed := false;
      if a.authoritative && a.failure != "" {
        closedScopes := closedScopes[scope := a.failure];
        if a.failure == "remote_config_not_published" {
          persistFailed := ClearPublicationLocked(scope, served, w.tombstoneOk, parse);
        }
      }
      if !(scope in closedScopes && closedScopes[scope] != "") || a.authoritative {
        var failed := InstallLocked(seqNo, scope, a, served, w, parse);
        persistFailed := failed || persistFailed;
      }
    }

    method SettleLocked(seqNo: nat, scope: string, current: string, a: Applied, served: Option<Cache>, w: Writes, parse: Parser)
      returns (result: Option<Served>, failure: string, persistFailed: bool)
      modifies this
      ensures Settled(Value(), result, failure, persistFailed) ==
              Settle(old(Value()), seqNo, scope, current, a, served, w, parse)
      ensures Shaped(a) ==> GettersAfter(old(Value()), Value(), seqNo, scope, current, a, served, parse)
      ensures if IsClosed(Value(), scope) then result.None? && failure != "" else result == a.result && failure == a.failure
    {
      hide SettleCurrent, GettersAfter, Shaped;
      if Shaped(a) { SettleShows(Value(), seqNo, scope, current, a, served, w, parse); }
      result, failure, persistFailed := a.result, a.failure, false;
      if scope == current && seqNo > (if scope in settled then settled[scope] else 0) {
        persistFailed := SettleCurrentLocked(seqNo, scope, a, served, w, parse);
      }
      if scope in closedScopes && closedScopes[scope] != "" {
        result := None;
        if failure == "" { failure := closedScopes[scope]; }
      }
    }
  }

  // ---------------------------------------------------------------- order and closure

  /**
   An installed record is stamped above every record it supersedes, whatever the clock did, and the
   next load of its scope returns it, whether its durable write landed or not.
   */
  lemma InstallThenLoad(rc: Rc, seqNo: nat, scope: string, a: Applied, served: Option<Cache>, w: Writes, parse: Parser)
    requires InstallsRecord(rc, seqNo, scope, a, served, parse)
    ensures var i := Install(rc, seqNo, scope, a, served, w, parse).rc;
            && i.held.Some? && i.held.value.scope == scope
            && i.held.value.body == RecordOf(a).value.body
            && LoadCache(i, scope, parse) == i.held
            && (HeldFor(rc, scope).Some? ==> HeldFor(rc, scope).value.at < i.held.value.at)
            && (DurableRecord(rc.file, scope, parse).Some? ==> DurableRecord(rc.file, scope, parse).value.at < i.held.value.at)
            && (ComparedWith(rc, scope, served).Some? ==> ComparedWith(rc, scope, served).value.at < i.held.value.at)
            && !IsClosed(i, scope)
  {
  }

  /** Once it has landed, a restart loads it too: the same body and stamp, without an attributed validator. */
  lemma InstallThenRestart(rc: Rc, seqNo: nat, scope: string, a: Applied, served: Option<Cache>, w: Writes, parse: Parser)
    requires InstallsRecord(rc, seqNo, scope, a, served, parse) && w.hasPath && w.saveOk
    requires RecordOf(a).value.body in parse
    ensures var i := Install(rc, seqNo, scope, a, served, w, parse).rc;
            LoadCache(Rc(None, i.file, None, map[], map[], map[]), scope, parse) == Some(AtRest(i.held.value))
  {
  }

  /** An outcome no newer than the newest settled one of its scope, or of a scope no longer current, changes nothing. */
  lemma StaleChangesNothing(rc: Rc, seqNo: nat, scope: string, current: string, a: Applied, served: Option<Cache>, w: Writes, parse: Parser)
    requires seqNo <= SettledAt(rc, scope) || scope != current
    ensures Settle(rc, seqNo, scope, current, a, served, w, parse).rc == rc
  {
  }

  /** While its scope is closed, a caller gets no values and the getters only defaults. */
  lemma ClosedServesDefaults(rc: Rc, seqNo: nat, scope: string, current: string, a: Applied, served: Option<Cache>, w: Writes, parse: Parser, key: string)
    ensures var s := Settle(rc, seqNo, scope, current, a, served, w, parse);
            IsClosed(s.rc, scope) ==> s.result.None? && s.failure != "" && Lookup(s.rc, scope, key).None?
  {
  }

  /** Settling an outcome shows exactly what it published. */
  lemma SettleShows(rc: Rc, seqNo: nat, scope: string, current: string, a: Applied, served: Option<Cache>, w: Writes, parse: Parser)
    requires Shaped(a)
    ensures GettersAfter(rc, Settle(rc, seqNo, scope, current, a, served, w, parse).rc, seqNo, scope, current, a, served, parse)
  {
    if scope == current && seqNo > SettledAt(rc, scope) { SnapshotAfter(rc, seqNo, scope, a, served, w, parse); }
    else { StaleChangesNothing(rc, seqNo, scope, current, a, served, w, parse); }
    hide Settle, InstallsRecord, Adopts, SettledAt;
  }

  lemma SnapshotAfter(rc: Rc, seqNo: nat, scope: string, a: Applied, served: Option<Cache>, w: Writes, parse: Parser)
    requires Shaped(a) && seqNo > SettledAt(rc, scope)
    ensures var after := Settle(rc, seqNo, scope, scope, a, served, w, parse).rc;
            var installs := InstallsRecord(rc, seqNo, scope, a, served, parse);
            var closes := a.authoritative && a.failure != "";
            && after.snapshot == (if installs || (Adopts(rc, seqNo, scope, a, served) && !IsClosed(rc, scope)) then ContentOf(a)
                                  else if closes then None else rc.snapshot)
            && (IsClosed(after, scope) <==> closes || (!installs && IsClosed(rc, scope)))
  {
    if a.authoritative && a.failure != "" { ClosingSnapshot(rc, seqNo, scope, a, served, w, parse); }
    else {
      InstallShows(rc, seqNo, scope, a, served, w, parse);
      InstallOpens(rc, seqNo, scope, a, served, w, parse);
      hide Install, InstallsRecord, Adopts;
      if a.failure != "" {
        NoValuesNoInstall(seqNo, scope, a, served, parse);
        NoValuesNoAdoption(rc, seqNo, scope, a, served);
      } else if RecordOf(a).None? { NoRecordNoInstall(rc, seqNo, scope, a, served, parse); }
      else { NoAdoption(rc, seqNo, scope, a, served); }
    }
  }

  lemma ClosingSnapshot(rc: Rc, seqNo: nat, scope: string, a: Applied, served: Option<Cache>, w: Writes, parse: Parser)
    requires a.authoritative && a.failure != "" && seqNo > SettledAt(rc, scope)
    ensures var after := Settle(rc, seqNo, scope, scope, a, served, w, parse).rc;
            after.snapshot.None? && IsClosed(after, scope)
    ensures !InstallsRecord(rc, seqNo, scope, a, served, parse) && !Adopts(rc, seqNo, scope, a, served)
  {
    var rc1 := rc.(closed := rc.closed[scope := a.failure]);
    ClearLeavesClosed(rc1, scope, served, w.tombstoneOk, parse);
    InstallFails(rc1, seqNo, scope, a, served, w, parse);
    InstallFails(ClearPublication(rc1, scope, served, w.tombstoneOk, parse).rc, seqNo, scope, a, served, w, parse);
    hide ClearPublication, Install, Overtaken, DurableRecord, Fresher, ComparedWith;
  }

  lemma InstallFails(rc: Rc, seqNo: nat, scope: string, a: Applied, served: Option<Cache>, w: Writes, parse: Parser)
    requires a.authoritative && a.failure != "" && seqNo > SettledAt(rc, scope)
    ensures Install(rc, seqNo, scope, a, served, w, parse).rc == rc.(settled := rc.settled[scope := seqNo], snapshot := None)
  {
  }

  lemma NoAdoption(rc: Rc, seqNo: nat, scope: string, a: Applied, served: Option<Cache>)
    requires RecordOf(a).Some?
    ensures !Adopts(rc, seqNo, scope, a, served)
  {
  }

  lemma NoValuesNoAdoption(rc: Rc, seqNo: nat, scope: string, a: Applied, served: Option<Cache>)
    requires a.failure != ""
    ensures !Adopts(rc, seqNo, scope, a, served)
  {
  }

  lemma NoRecordNoInstall(rc: Rc, seqNo: nat, scope: string, a: Applied, served: Option<Cache>, parse: Parser)
    requires RecordOf(a).None?
    ensures !InstallsRecord(rc, seqNo, scope, a, served, parse)
  {
  }

  lemma InstallShows(rc: Rc, seqNo: nat, scope: string, a: Applied, served: Option<Cache>, w: Writes, parse: Parser)
    ensures var i := Install(rc, seqNo, scope, a, served, w, parse).rc;
            i.snapshot ==
            if InstallsRecord(rc, seqNo, scope, a, served, parse) || Adopts(rc, seqNo, scope, a, served) then ContentOf(a)
            else if seqNo > SettledAt(rc, scope) && a.authoritative && a.failure != "" then None else rc.snapshot
  {
    hide DurableRecord, Raised, FileAfter, Overtaken;
  }

  lemma ClearLeavesClosed(rc: Rc, scope: string, served: Option<Cache>, tombstoneOk: bool, parse: Parser)
    ensures ClearPublication(rc, scope, served, tombstoneOk, parse).rc.closed == rc.closed
    ensures ClearPublication(rc, scope, served, tombstoneOk, parse).rc.settled == rc.settled
  {
  }

  lemma InstallOpens(rc: Rc, seqNo: nat, scope: string, a: Applied, served: Option<Cache>, w: Writes, parse: Parser)
    ensures var i := Install(rc, seqNo, scope, a, served, w, parse).rc;
            if InstallsRecord(rc, seqNo, scope, a, served, parse) then i.closed == rc.closed - {scope} else i.closed == rc.closed
  {
    hide DurableRecord, Raised, FileAfter;
  }

  /** A closed scope is reopened by nothing but a newer fresh 200 or confirmed 304 that installs. */
  lemma OnlyInstallReopens(rc: Rc, seqNo: nat, scope: string, current: string, a: Applied, served: Option<Cache>, w: Writes, parse: Parser, other: string)
    requires IsClosed(rc, other) && !IsClosed(Settle(rc, seqNo, scope, current, a, served, w, parse).rc, other)
    ensures other == scope == current && InstallsRecord(rc, seqNo, scope, a, served, parse)
  {
    hide Install, ClearPublication, InstallsRecord;
    var rc1 := rc.(closed := rc.closed[scope := a.failure]);
    ClearLeavesClosed(rc1, scope, served, w.tombstoneOk, parse);
    InstallOpens(rc, seqNo, scope, a, served, w, parse);
    InstallOpens(rc1, seqNo, scope, a, served, w, parse);
    InstallOpens(ClearPublication(rc1, scope, served, w.tombstoneOk, parse).rc, seqNo, scope, a, served, w, parse);
    if a.failure != "" { NoValuesNoInstall(seqNo, scope, a, served, parse); }
  }

  lemma NoValuesNoInstall(seqNo: nat, scope: string, a: Applied, served: Option<Cache>, parse: Parser)
    requires a.failure != ""
    ensures forall rc :: !InstallsRecord(rc, seqNo, scope, a, served, parse)
  {
  }
}
