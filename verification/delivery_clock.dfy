/**
 The delivery clock of an analytics event: a tentative mark set before each handoff,
 rolled back only by the attempt that set it, fenced on disk, and kept across crashes.

 The value-level functions say what each section does to the clocks in memory and on
 disk; the class does it in place, loop by loop.
 */
module DeliveryClock {
  import opened Basics

  const DEDUP_WINDOW := 900000
  const RETRY_AGE_CAP := 604800000

  /** Intake time and the recorded time of the first attempt that may have been committed; 0 for none. */
  datatype Clock = Clock(intake: int, first: int)

  /** eventDelivery.expired, and spoolEntryExpired for an event without local metadata. */
  predicate Expired(c: Option<Clock>, now: int) {
    if c.None? || c.value.intake <= 0 then true
    else if c.value.intake > now || now - c.value.intake >= RETRY_AGE_CAP then true
    else
      c.value.first < 0 ||
      (c.value.first != 0 &&
        (c.value.first < c.value.intake || c.value.first > now || now - c.value.first >= DEDUP_WINDOW))
  }

  /** spool.json as the next read finds it. */
  datatype SpoolFile = NoSpoolFile | BrokenSpool | Spooled(entries: map<string, Clock>)

  /**
   One process and its spool. `clocks` are the events it still has to deliver, `mirror` the ids its
   spool retains; `owed` is the spool's refusal after a denial.
   */
  datatype Delivery = Delivery(
    clocks: map<string, Clock>, mirror: set<string>, file: SpoolFile, hasSpool: bool, owed: bool)

  /** The outcomes of one fence: can the file be read, and does a rewrite land. */
  datatype Fence = Fence(readOk: bool, writeOk: bool)

  function Lookup(m: map<string, Clock>, id: string): Option<Clock> {
    if id in m then Some(m[id]) else None
  }

  /** saveLocked writes the retained events with the clocks they have in memory. */
  function SaveFile(d: Delivery): SpoolFile {
    Spooled(map id | id in d.mirror && id in d.clocks :: d.clocks[id])
  }

  predicate NeedsRewrite(d: Delivery, ids: seq<string>)
    requires d.file.Spooled?
  {
    exists i :: 0 <= i < |ids| && ids[i] in d.file.entries && Lookup(d.clocks, ids[i]) != Some(d.file.entries[ids[i]])
  }

  /** persistDelivery: the spool after it, and whether the attempt may go on. */
  function Persist(d: Delivery, ids: seq<string>, f: Fence): (Delivery, bool) {
    if !d.hasSpool then (d, true)
    else if d.owed then (d, false)
    else if forall i :: 0 <= i < |ids| ==> ids[i] !in d.mirror then (d, true)
    else if d.file.NoSpoolFile? then (d, true)
    else if !f.readOk then (d, false)
    else if d.file.BrokenSpool? || NeedsRewrite(d, ids) then
      if f.writeOk then (d.(file := SaveFile(d)), true) else (d, false)
    else (d, true)
  }

  /** The tentative clock: set on the events that have none yet. */
  function Mark(m: map<string, Clock>, ids: seq<string>, now: int): map<string, Clock> {
    if ids == [] then m
    else
      var front, id := Mark(m, ids[..|ids| - 1], now), ids[|ids| - 1];
      if id in front && front[id].first == 0 then front[id := front[id].(first := now)] else front
  }

  /** The ids whose clock this attempt sets. */
  function Started(m: map<string, Clock>, ids: seq<string>, now: int): seq<string> {
    if ids == [] then []
    else
      var front, id := Mark(m, ids[..|ids| - 1], now), ids[|ids| - 1];
      var rest := Started(m, ids[..|ids| - 1], now);
      if id in front && front[id].first == 0 then rest + [id] else rest
  }

  /** Back to none, wherever the clock is still the one this attempt set. */
  function Rollback(m: map<string, Clock>, started: seq<string>, now: int): map<string, Clock> {
    if started == [] then m
    else
      var front, id := Rollback(m, started[..|started| - 1], now), started[|started| - 1];
      if id in front && front[id].first == now then front[id := front[id].(first := 0)] else front
  }

  datatype Begun = Begun(d: Delivery, started: Option<seq<string>>)

  predicate AnyExpired(d: Delivery, ids: seq<string>, now: int) {
    exists i :: 0 <= i < |ids| && Expired(Lookup(d.clocks, ids[i]), now)
  }

  /** begin: refuse expired members, mark, fence; a failed fence takes the marks back. */
  function BeginAttempt(d: Delivery, ids: seq<string>, now: int, f: Fence): Begun {
    if AnyExpired(d, ids, now) then Begun(d, None)
    else
      var started := Started(d.clocks, ids, now);
      var marked := d.(clocks := Mark(d.clocks, ids, now));
      var (fenced, ok) := Persist(marked, ids, f);
      if ok then Begun(fenced, Some(started))
      else Begun(fenced.(clocks := Rollback(fenced.clocks, started, now)), None)
  }

  /** finish: only definite non-delivery takes the marks back, and tries to tell the disk. */
  function FinishAttempt(d: Delivery, ids: seq<string>, started: seq<string>, now: int, undelivered: bool, f: Fence): Delivery {
    if undelivered && started != [] then
      Persist(d.(clocks := Rollback(d.clocks, started, now)), ids, f).0
    else d
  }

  /** The clocks once an attempt has set its marks: on its own ids that had none, and nowhere else. */
  predicate MarkedIn(before: map<string, Clock>, after: map<string, Clock>, ids: seq<string>, started: seq<string>, now: int) {
    && after.Keys == before.Keys
    && (forall id :: id in before ==>
          after[id] == if id in ids && before[id].first == 0 then Clock(before[id].intake, now) else before[id])
    && (forall id :: id in started ==> id in ids && id in before && before[id].first == 0)
    && (forall id :: id in ids && id in before && before[id].first == 0 ==> id in started)
  }

  /** The clocks once an attempt has taken its marks back: every one that is still its own, and nothing else. */
  predicate RolledBackIn(before: map<string, Clock>, after: map<string, Clock>, started: seq<string>, now: int) {
    && after.Keys == before.Keys
    && forall id :: id in before ==>
         after[id] == if id in started && before[id].first == now then Clock(before[id].intake, 0) else before[id]
  }

  // ---------------------------------------------------------------- in place

  class Deliveries {
    var clocks: map<string, Clock>
    var mirror: set<string>
    var file: SpoolFile
    const hasSpool: bool
    var owed: bool

    constructor (hasSpool: bool, mirror: set<string>, file: SpoolFile)
      ensures Value() == Delivery(if file.Spooled? then file.entries else map[], mirror, file, hasSpool, false)
    {
      this.hasSpool := hasSpool;
      this.mirror, this.file, owed := mirror, file, false;
      clocks := if file.Spooled? then file.entries else map[];
    }

    ghost function Value(): Delivery
      reads this
    {
      Delivery(clocks, mirror, file, hasSpool, owed)
    }

    method PersistDelivery(ids: seq<string>, f: Fence) returns (ok: bool)
      modifies this`file
      ensures (Value(), ok) == Persist(old(Value()), ids, f)
      ensures !hasSpool || (!owed && f.readOk && f.writeOk) ==> ok
      ensures hasSpool && owed ==> !ok
      ensures !ok || !hasSpool ==> file == old(file)
      ensures ok && hasSpool && file.Spooled? && (exists i :: 0 <= i < |ids| && ids[i] in mirror) ==>
                forall i :: 0 <= i < |ids| && ids[i] in file.entries ==> Lookup(clocks, ids[i]) == Some(file.entries[ids[i]])
      ensures ok && hasSpool && (exists i :: 0 <= i < |ids| && ids[i] in mirror) ==> !file.BrokenSpool?
    {
      if !hasSpool { return true; }
      if owed { return false; }
      var matched := false;
      for i := 0 to |ids|
        invariant matched <==> exists k :: 0 <= k < i && ids[k] in mirror
      {
        if ids[i] in mirror { matched := true; }
      }
      if !matched || file.NoSpoolFile? { return true; }
      if !f.readOk { return false; }
      if file.Spooled? {
        var stale := false;
        for i := 0 to |ids|
          invariant stale <==> exists k :: 0 <= k < i && ids[k] in file.entries && Lookup(clocks, ids[k]) != Some(file.entries[ids[k]])
        {
          if ids[i] in file.entries && Lookup(clocks, ids[i]) != Some(file.entries[ids[i]]) { stale := true; }
        }
        if !stale { return true; }
      }
      if f.writeOk {
        file := SaveFile(Delivery(clocks, mirror, file, hasSpool, owed));
      }
      return f.writeOk;
    }

    method RollbackStarted(started: seq<string>, now: int)
      modifies this`clocks
      ensures Value() == old(Value()).(clocks := Rollback(old(clocks), started, now))
      ensures RolledBackIn(old(clocks), clocks, started, now)
    {
      for i := 0 to |started|
        invariant clocks == Rollback(old(clocks), started[..i], now)
      {
        assert started[..i + 1][..i] == started[..i];
        var id := started[i];
        if id in clocks && clocks[id].first == now {
          clocks := clocks[id := clocks[id].(first := 0)];
        }
      }
      assert started[..|started|] == started;
      RollbackAt(old(clocks), started, now);
    }

    method Begin(ids: seq<string>, now: int, f: Fence) returns (started: Option<seq<string>>)
      modifies this`clocks, this`file
      ensures Begun(Value(), started) == BeginAttempt(old(Value()), ids, now, f)
      ensures started.Some? ==> forall i :: 0 <= i < |ids| ==> !Expired(Lookup(old(clocks), ids[i]), now)
      ensures !hasSpool || (!owed && f.readOk && f.writeOk) ==>
                (started.Some? <==> forall i :: 0 <= i < |ids| ==> !Expired(Lookup(old(clocks), ids[i]), now))
      ensures hasSpool && owed ==> started.None?
      ensures started.None? ==> clocks == old(clocks) && file == old(file)
      ensures started.Some? ==> MarkedIn(old(clocks), clocks, ids, started.value, now)
      ensures started.Some? && hasSpool && file.Spooled? && (exists i :: 0 <= i < |ids| && ids[i] in mirror) ==>
                forall i :: 0 <= i < |ids| && ids[i] in file.entries ==> Lookup(clocks, ids[i]) == Some(file.entries[ids[i]])
    {
      for i := 0 to |ids|
        invariant Value() == old(Value())
        invariant forall k :: 0 <= k < i ==> !Expired(Lookup(clocks, ids[k]), now)
      {
        if Expired(Lookup(clocks, ids[i]), now) { return None; }
      }
      var set0: seq<string> := [];
      for i := 0 to |ids|
        invariant Value() == old(Value()).(clocks := Mark(old(clocks), ids[..i], now))
        invariant set0 == Started(old(clocks), ids[..i], now)
      {
        assert ids[..i + 1][..i] == ids[..i];
        var id := ids[i];
        if id in clocks && clocks[id].first == 0 {
          clocks := clocks[id := clocks[id].(first := now)];
          set0 := set0 + [id];
        }
      }
      assert ids[..|ids|] == ids;
      MarkAt(old(clocks), ids, now);
      var ok := PersistDelivery(ids, f);
      if !ok {
        TakenBack(old(clocks), ids, now);
        RollbackStarted(set0, now);
        return None;
      }
      return Some(set0);
    }

    method Finish(ids: seq<string>, started: seq<string>, now: int, undelivered: bool, f: Fence)
      modifies this`clocks, this`file
      ensures Value() == FinishAttempt(old(Value()), ids, started, now, undelivered, f)
      ensures if undelivered then RolledBackIn(old(clocks), clocks, started, now) else clocks == old(clocks)
      ensures !undelivered || started == [] ==> file == old(file)
      ensures undelivered && started != [] && hasSpool && !owed && f.readOk && f.writeOk && file.Spooled?
              && (exists i :: 0 <= i < |ids| && ids[i] in mirror) ==>
                forall i :: 0 <= i < |ids| && ids[i] in file.entries ==> Lookup(clocks, ids[i]) == Some(file.entries[ids[i]])
    {
      if undelivered && started != [] {
        RollbackStarted(started, now);
        var _ := PersistDelivery(ids, f);
      }
    }
  }

  // ---------------------------------------------------------------- runs

  /** The attempt in flight. */
  datatype Attempt = NoAttempt | InFlight(ids: seq<string>, started: seq<string>, now: int)

  /** A process or the disk it left, with every handoff that may have been committed, by recorded clock. */
  datatype Life = Life(d: Delivery, attempt: Attempt, up: bool, handoffs: map<string, seq<int>>)

  datatype Event =
    | Intake(id: string, now: int)
    | Spool(id: string)
    | SaveAll(lands: bool)
    | Settle(ids: seq<string>)
    | Begin(ids: seq<string>, now: int, fence: Fence)
    | Finish(undelivered: bool, fence: Fence)
    | Deny
    | Crash
    | Restart

  function Handed(h: map<string, seq<int>>, ids: seq<string>, now: int): map<string, seq<int>> {
    if ids == [] then h
    else
      var front, id := Handed(h, ids[..|ids| - 1], now), ids[|ids| - 1];
      front[id := (if id in front then front[id] else []) + [now]]
  }

  /** Settled events leave the process at once, and the file with its next rewrite. */
  function Settled(d: Delivery, ids: seq<string>): Delivery {
    var gone := set i | 0 <= i < |ids| :: ids[i];
    d.(clocks := d.clocks - gone, mirror := d.mirror - gone)
  }

  /** One section. The handoff counts as possibly committed until it is definitely not delivered. */
  function NextLife(l: Life, e: Event): Life {
    if !l.up then
      if e.Restart? then
        var kept := if l.d.file.Spooled? then l.d.file.entries else map[];
        l.(up := true, d := l.d.(clocks := kept, mirror := kept.Keys, owed := false))
      else l
    else
      match e
      case Intake(id, now) =>
        if id in l.d.clocks || id in l.handoffs || (l.d.file.Spooled? && id in l.d.file.entries) then l
        else l.(d := l.d.(clocks := l.d.clocks[id := Clock(now, 0)]))
      case Spool(id) => if id in l.d.clocks then l.(d := l.d.(mirror := l.d.mirror + {id})) else l
      case SaveAll(lands) => if lands && l.d.hasSpool then l.(d := l.d.(file := SaveFile(l.d))) else l
      case Settle(ids) => if l.attempt.NoAttempt? then l.(d := Settled(l.d, ids)) else l
      case Begin(ids, now, fence) =>
        if !l.attempt.NoAttempt? then l
        else
          var b := BeginAttempt(l.d, ids, now, fence);
          if b.started.None? then l.(d := b.d) else l.(d := b.d, attempt := InFlight(ids, b.started.value, now))
      case Finish(undelivered, fence) =>
        if l.attempt.NoAttempt? then l
        else
          var a := l.attempt;
          l.(d := FinishAttempt(l.d, a.ids, a.started, a.now, undelivered, fence), attempt := NoAttempt,
             handoffs := if undelivered then l.handoffs else Handed(l.handoffs, a.ids, a.now))
      case Deny => l.(d := l.d.(owed := true))
      case Crash =>
        l.(up := false, attempt := NoAttempt,
           handoffs := if l.attempt.InFlight? then Handed(l.handoffs, l.attempt.ids, l.attempt.now) else l.handoffs)
      case Restart => l
  }

  function Live(l: Life, events: seq<Event>): Life {
    if events == [] then l else NextLife(Live(l, events[..|events| - 1]), events[|events| - 1])
  }

  // ---------------------------------------------------------------- the loops, id by id

  lemma {:induction false} MarkAt(m: map<string, Clock>, ids: seq<string>, now: int)
    ensures Mark(m, ids, now).Keys == m.Keys
    ensures forall id :: id in m ==>
              Mark(m, ids, now)[id] == if id in ids && m[id].first == 0 then m[id].(first := now) else m[id]
    ensures forall id :: id in Started(m, ids, now) <==> id in ids && id in m && m[id].first == 0
  {
    if ids != [] {
      MarkAt(m, ids[..|ids| - 1], now);
      assert ids == ids[..|ids| - 1] + [ids[|ids| - 1]];
    }
  }

  lemma {:induction false} RollbackAt(m: map<string, Clock>, started: seq<string>, now: int)
    ensures Rollback(m, started, now).Keys == m.Keys
    ensures forall id :: id in m ==>
              Rollback(m, started, now)[id] == if id in started && m[id].first == now then m[id].(first := 0) else m[id]
  {
    if started != [] {
      RollbackAt(m, started[..|started| - 1], now);
      assert started == started[..|started| - 1] + [started[|started| - 1]];
    }
  }

  predicate In(h: map<string, seq<int>>, id: string, t: int) {
    id in h && t in h[id]
  }

  lemma {:induction false} HandedAt(h: map<string, seq<int>>, ids: seq<string>, now: int)
    ensures forall id, t :: In(Handed(h, ids, now), id, t) <==> In(h, id, t) || (id in ids && t == now)
    ensures forall id :: id in Handed(h, ids, now) <==> id in h || id in ids
  {
    if ids != [] {
      var front, last := ids[..|ids| - 1], ids[|ids| - 1];
      HandedAt(h, front, now);
      assert ids == front + [last];
      var before := Handed(h, front, now);
      assert forall id, t :: In(Handed(h, ids, now), id, t) <==> In(before, id, t) || (id == last && t == now);
    }
  }

  /** A failed fence leaves every clock as it was. */
  lemma TakenBack(m: map<string, Clock>, ids: seq<string>, now: int)
    ensures Rollback(Mark(m, ids, now), Started(m, ids, now), now) == m
  {
    MarkAt(m, ids, now);
    RollbackAt(Mark(m, ids, now), Started(m, ids, now), now);
  }

  // ---------------------------------------------------------------- the invariant

  /** A handoff of `id` at recorded clock `t` may have been committed. */
  predicate MayBeCommitted(l: Life, id: string, t: int) {
    In(l.handoffs, id, t) || (l.attempt.InFlight? && id in l.attempt.ids && l.attempt.now == t)
  }

  /** A clock value that accounts for every handoff of `id`. */
  ghost predicate Accounts(l: Life, id: string, first: int) {
    (first == 0 ==> forall t :: !MayBeCommitted(l, id, t)) &&
    (first != 0 ==> forall t :: MayBeCommitted(l, id, t) ==> first <= t < first + DEDUP_WINDOW)
  }

  ghost predicate Close(l: Life, id: string) {
    forall t, u :: MayBeCommitted(l, id, t) && MayBeCommitted(l, id, u) ==> -DEDUP_WINDOW < t - u < DEDUP_WINDOW
  }

  ghost predicate Kept(l: Life) {
    && (forall id :: Close(l, id))
    && (l.d.file.Spooled? ==> l.d.hasSpool && forall id :: id in l.d.file.entries ==> Accounts(l, id, l.d.file.entries[id].first))
    && (l.up ==> forall id :: id in l.d.clocks ==> Accounts(l, id, l.d.clocks[id].first))
    && (l.up && l.d.file.Spooled? ==> forall id :: id in l.d.clocks && id in l.d.file.entries ==> id in l.d.mirror)
    && (!l.up ==> l.attempt.NoAttempt?)
    && (l.attempt.InFlight? ==> FlightKept(l))
  }

  /** In flight every member has a clock, and the attempt that set it is the event's first. */
  ghost predicate FlightKept(l: Life)
    requires l.attempt.InFlight?
  {
    var a := l.attempt;
    && (a.ids != [] ==> a.now != 0)
    && (forall id :: id in a.ids ==> id in l.d.clocks && l.d.clocks[id].first != 0)
    && (forall id :: id in a.started ==> id in a.ids && forall t :: !In(l.handoffs, id, t))
  }

  /** No handoff more, so what accounted for them still does. */
  lemma AccountsStill(l: Life, l': Life, id: string, first: int)
    requires Accounts(l, id, first) && forall t :: MayBeCommitted(l', id, t) ==> MayBeCommitted(l, id, t)
    ensures Accounts(l', id, first)
  {
  }

  lemma CloseStill(l: Life, l': Life, id: string)
    requires Close(l, id) && forall t :: MayBeCommitted(l', id, t) ==> MayBeCommitted(l, id, t)
    ensures Close(l', id)
  {
  }

  lemma AccountsClose(l: Life, id: string, first: int)
    requires Accounts(l, id, first)
    ensures Close(l, id)
  {
  }

  /** After a fence that lets the attempt go on, a spooled event's clock on disk is the one in memory. */
  lemma FenceTells(d: Delivery, ids: seq<string>, f: Fence)
    requires Persist(d, ids, f).1
    requires d.file.Spooled? ==> d.hasSpool && forall id :: id in d.clocks && id in d.file.entries ==> id in d.mirror
    ensures var after := Persist(d, ids, f).0;
            && after == d.(file := after.file)
            && (after.file == d.file || after.file == SaveFile(d))
            && (after.file.Spooled? ==> after.hasSpool && forall id :: id in ids && id in d.clocks && id in after.file.entries ==>
                  after.file.entries[id] == d.clocks[id])
  {
    if d.file.Spooled? && !NeedsRewrite(d, ids) {
      forall id | id in ids && id in d.clocks && id in d.file.entries ensures d.file.entries[id] == d.clocks[id] {
        var i :| 0 <= i < |ids| && ids[i] == id;
        assert Lookup(d.clocks, ids[i]) == Some(d.file.entries[ids[i]]);
      }
    }
  }

  lemma FenceFails(d: Delivery, ids: seq<string>, f: Fence)
    ensures var after := Persist(d, ids, f).0;
            && after == d.(file := after.file)
            && (after.file == d.file || (after.file == SaveFile(d) && d.hasSpool))
            && (!Persist(d, ids, f).1 ==> after == d)
  {
  }

  lemma NotExpired(c: Option<Clock>, now: int)
    requires !Expired(c, now)
    ensures c.Some? && now > 0 && (c.value.first != 0 ==> c.value.first <= now < c.value.first + DEDUP_WINDOW)
  {
  }

  lemma BeginKeeps(l: Life, ids: seq<string>, now: int, f: Fence)
    requires Kept(l) && l.up && l.attempt.NoAttempt?
    ensures Kept(NextLife(l, Begin(ids, now, f)))
  {
    var b := BeginAttempt(l.d, ids, now, f);
    if AnyExpired(l.d, ids, now) { assert b.d == l.d; return; }
    forall id | id in ids ensures id in l.d.clocks && !Expired(Lookup(l.d.clocks, id), now) {
      var i :| 0 <= i < |ids| && ids[i] == id;
      NotExpired(Lookup(l.d.clocks, ids[i]), now);
    }
    if ids == [] { BeginNothing(l, now, f); return; }
    NotExpired(Lookup(l.d.clocks, ids[0]), now);
    var marked := l.d.(clocks := Mark(l.d.clocks, ids, now));
    MarkAt(l.d.clocks, ids, now);
    FenceFails(marked, ids, f);
    if !Persist(marked, ids, f).1 {
      TakenBack(l.d.clocks, ids, now);
      assert b.d == l.d;
    } else {
      BeginFlies(l, ids, now, f);
    }
  }

  lemma BeginNothing(l: Life, now: int, f: Fence)
    requires Kept(l) && l.up && l.attempt.NoAttempt?
    ensures Kept(NextLife(l, Begin([], now, f)))
  {
    var l' := NextLife(l, Begin([], now, f));
    assert l'.d == l.d && l'.handoffs == l.handoffs;
    SameKept(l, l');
  }

  /** Same clocks and files, no handoff more: the invariant but for what is in flight. */
  lemma SameKept(l: Life, l': Life)
    requires Kept(l) && (forall id, t :: MayBeCommitted(l', id, t) ==> MayBeCommitted(l, id, t))
    requires l'.d == l.d && l'.up == l.up && (!l.up ==> l'.attempt.NoAttempt?)
    requires l'.attempt.InFlight? ==> FlightKept(l')
    ensures Kept(l')
  {
    forall id ensures Close(l', id) { CloseStill(l, l', id); }
    if l.d.file.Spooled? {
      forall id | id in l.d.file.entries ensures Accounts(l', id, l.d.file.entries[id].first) {
        AccountsStill(l, l', id, l.d.file.entries[id].first);
      }
    }
    if l'.up {
      forall id | id in l.d.clocks ensures Accounts(l', id, l.d.clocks[id].first) {
        AccountsStill(l, l', id, l.d.clocks[id].first);
      }
    }
  }

  lemma BeginFlies(l: Life, ids: seq<string>, now: int, f: Fence)
    requires Kept(l) && l.up && l.attempt.NoAttempt? && ids != [] && now != 0
    requires !AnyExpired(l.d, ids, now)
    requires forall id :: id in ids ==> id in l.d.clocks && !Expired(Lookup(l.d.clocks, id), now)
    requires Persist(l.d.(clocks := Mark(l.d.clocks, ids, now)), ids, f).1
    ensures Kept(NextLife(l, Begin(ids, now, f)))
  {
    var marked := l.d.(clocks := Mark(l.d.clocks, ids, now));
    var l' := NextLife(l, Begin(ids, now, f));
    MarkAt(l.d.clocks, ids, now);
    FenceTells(marked, ids, f);
    BeginIs(l, ids, now, f);
    hide Persist, Mark, Started, Expired, AnyExpired, BeginAttempt, NextLife, Accounts, Close, MayBeCommitted;
    forall id | id in l'.d.clocks ensures Accounts(l', id, l'.d.clocks[id].first) {
      MarkedAccounts(l, l', id, ids, now);
    }
    forall id ensures Close(l', id) {
      if id in ids { AccountsClose(l', id, l'.d.clocks[id].first); }
      else { Bystander(l, l', id); CloseStill(l, l', id); }
    }
    if l'.d.file.Spooled? {
      forall id | id in l'.d.file.entries ensures Accounts(l', id, l'.d.file.entries[id].first) {
        if l'.d.file == SaveFile(marked) { assert l'.d.file.entries[id] == marked.clocks[id]; }
        else if id in ids { assert l'.d.file.entries[id] == marked.clocks[id]; }
        else { Bystander(l, l', id); AccountsStill(l, l', id, l.d.file.entries[id].first); }
      }
    }
    FlightStarts(l, l', ids, now);
  }

  lemma Bystander(l: Life, l': Life, id: string)
    requires l'.handoffs == l.handoffs && l.attempt.NoAttempt? && (l'.attempt.InFlight? ==> id !in l'.attempt.ids)
    ensures forall t :: MayBeCommitted(l', id, t) ==> MayBeCommitted(l, id, t)
  {
  }

  lemma FlightStarts(l: Life, l': Life, ids: seq<string>, now: int)
    requires Kept(l) && l.up && l.attempt.NoAttempt? && now != 0
    requires forall id :: id in ids ==> id in l.d.clocks
    requires l'.attempt == InFlight(ids, Started(l.d.clocks, ids, now), now) && l'.handoffs == l.handoffs
    requires l'.d.clocks == Mark(l.d.clocks, ids, now)
    ensures FlightKept(l')
  {
    MarkAt(l.d.clocks, ids, now);
    hide Mark, Started, Close;
    forall id | id in l'.attempt.started ensures id in ids && forall t :: !In(l'.handoffs, id, t) {
      assert Accounts(l, id, l.d.clocks[id].first);
      forall t ensures !In(l'.handoffs, id, t) { assert !MayBeCommitted(l, id, t); }
    }
  }

  lemma BeginIs(l: Life, ids: seq<string>, now: int, f: Fence)
    requires l.up && l.attempt.NoAttempt? && !AnyExpired(l.d, ids, now)
    requires Persist(l.d.(clocks := Mark(l.d.clocks, ids, now)), ids, f).1
    ensures NextLife(l, Begin(ids, now, f)) ==
              l.(d := Persist(l.d.(clocks := Mark(l.d.clocks, ids, now)), ids, f).0,
                 attempt := InFlight(ids, Started(l.d.clocks, ids, now), now))
  {
    hide Persist, Mark, Started, AnyExpired;
  }

  lemma MarkedAccounts(l: Life, l': Life, id: string, ids: seq<string>, now: int)
    requires Kept(l) && l.up && l.attempt.NoAttempt? && id in l.d.clocks && now != 0
    requires id in ids ==> !Expired(Lookup(l.d.clocks, id), now)
    requires l'.handoffs == l.handoffs && l'.attempt.InFlight? && l'.attempt.ids == ids && l'.attempt.now == now
    ensures Accounts(l', id, (if id in ids && l.d.clocks[id].first == 0 then l.d.clocks[id].(first := now) else l.d.clocks[id]).first)
  {
    assert Accounts(l, id, l.d.clocks[id].first);
    if id in ids { NotExpired(Lookup(l.d.clocks, id), now); }
    hide Expired;
    forall t ensures MayBeCommitted(l', id, t) <==> MayBeCommitted(l, id, t) || (id in ids && t == now) {}
  }

  lemma FinishKeeps(l: Life, undelivered: bool, f: Fence)
    requires Kept(l) && l.up && l.attempt.InFlight?
    ensures Kept(NextLife(l, Finish(undelivered, f)))
  {
    var a := l.attempt;
    if !undelivered { HandedKeeps(l); }
    else if a.started == [] { UndeliveredKeeps(l, l.d); }
    else {
      assert a.started[0] in a.ids;
      RollbackAt(l.d.clocks, a.started, a.now);
      var back := l.d.(clocks := Rollback(l.d.clocks, a.started, a.now));
      FenceFails(back, a.ids, f);
      RolledBack(l);
      var l1 := l.(d := back, attempt := NoAttempt);
      if Persist(back, a.ids, f).0.file != back.file { SaveKeeps(l1); }
    }
  }

  /** The handoffs become history. */
  lemma HandedKeeps(l: Life)
    requires Kept(l) && l.attempt.InFlight?
    ensures var l' := l.(attempt := NoAttempt, handoffs := Handed(l.handoffs, l.attempt.ids, l.attempt.now));
            Kept(l') && (forall id, t :: MayBeCommitted(l', id, t) == MayBeCommitted(l, id, t))
  {
    HandedAt(l.handoffs, l.attempt.ids, l.attempt.now);
    var l' := l.(attempt := NoAttempt, handoffs := Handed(l.handoffs, l.attempt.ids, l.attempt.now));
    forall id, t ensures MayBeCommitted(l', id, t) == MayBeCommitted(l, id, t) {}
    SameHistory(l, l');
  }

  lemma SameHistory(l: Life, l': Life)
    requires Kept(l) && (forall id, t :: MayBeCommitted(l', id, t) ==> MayBeCommitted(l, id, t))
    requires l'.d == l.d && l'.attempt.NoAttempt? && (l'.up ==> l.up)
    ensures Kept(l')
  {
    if l'.up { SameKept(l, l'); }
    else {
      forall id ensures Close(l', id) { CloseStill(l, l', id); }
      if l.d.file.Spooled? {
        forall id | id in l.d.file.entries ensures Accounts(l', id, l.d.file.entries[id].first) {
          AccountsStill(l, l', id, l.d.file.entries[id].first);
        }
      }
    }
  }

  /** An attempt that set no clock and was not delivered changes nothing. */
  lemma UndeliveredKeeps(l: Life, d: Delivery)
    requires Kept(l) && l.attempt.InFlight? && d == l.d
    ensures Kept(l.(attempt := NoAttempt))
  {
    SameHistory(l, l.(attempt := NoAttempt));
  }

  /** Taking the marks back erases no clock that an earlier handoff needs. */
  lemma RolledBack(l: Life)
    requires Kept(l) && l.up && l.attempt.InFlight? && l.attempt.started != []
    ensures var a := l.attempt;
            Kept(l.(d := l.d.(clocks := Rollback(l.d.clocks, a.started, a.now)), attempt := NoAttempt))
  {
    var a := l.attempt;
    assert a.started[0] in a.ids;
    RollbackAt(l.d.clocks, a.started, a.now);
    var l1 := l.(attempt := NoAttempt);
    UndeliveredKeeps(l, l.d);
    var l' := l1.(d := l1.d.(clocks := Rollback(l.d.clocks, a.started, a.now)));
    forall id, t ensures MayBeCommitted(l', id, t) == MayBeCommitted(l1, id, t) {}
    forall id | id in l'.d.clocks ensures Accounts(l', id, l'.d.clocks[id].first) {
      if id in a.started { forall t ensures !MayBeCommitted(l', id, t) { assert !In(l.handoffs, id, t); } }
      else { AccountsStill(l1, l', id, l1.d.clocks[id].first); }
    }
    forall id ensures Close(l', id) { CloseStill(l1, l', id); }
    if l'.d.file.Spooled? {
      forall id | id in l'.d.file.entries ensures Accounts(l', id, l'.d.file.entries[id].first) {
        AccountsStill(l1, l', id, l1.d.file.entries[id].first);
      }
    }
  }

  lemma SaveKeeps(l: Life)
    requires Kept(l) && l.up && l.d.hasSpool
    ensures Kept(l.(d := l.d.(file := SaveFile(l.d))))
  {
    var l' := l.(d := l.d.(file := SaveFile(l.d)));
    forall id, t ensures MayBeCommitted(l', id, t) == MayBeCommitted(l, id, t) {}
    forall id ensures Close(l', id) { CloseStill(l, l', id); }
    forall id | id in l.d.clocks ensures Accounts(l', id, l.d.clocks[id].first) { AccountsStill(l, l', id, l.d.clocks[id].first); }
  }

  lemma QuietKeeps(l: Life, e: Event)
    requires Kept(l) && l.up && !e.Begin? && !e.Finish? && !e.Crash?
    ensures Kept(NextLife(l, e))
  {
    var l' := NextLife(l, e);
    if e.SaveAll? { if l' != l { SaveKeeps(l); } return; }
    forall id, t ensures MayBeCommitted(l', id, t) == MayBeCommitted(l, id, t) {}
    forall id ensures Close(l', id) { CloseStill(l, l', id); }
    if l'.d.file.Spooled? {
      forall id | id in l'.d.file.entries ensures Accounts(l', id, l'.d.file.entries[id].first) {
        AccountsStill(l, l', id, l.d.file.entries[id].first);
      }
    }
    forall id | id in l'.d.clocks ensures Accounts(l', id, l'.d.clocks[id].first) {
      if id in l.d.clocks { AccountsStill(l, l', id, l.d.clocks[id].first); }
    }
  }

  lemma CrashKeeps(l: Life)
    requires Kept(l) && l.up
    ensures Kept(NextLife(l, Crash))
  {
    if l.attempt.InFlight? {
      HandedKeeps(l);
      var l1 := l.(attempt := NoAttempt, handoffs := Handed(l.handoffs, l.attempt.ids, l.attempt.now));
      SameHistory(l1, l1.(up := false));
    } else {
      SameHistory(l, l.(up := false));
    }
  }

  lemma RestartKeeps(l: Life)
    requires Kept(l) && !l.up
    ensures Kept(NextLife(l, Restart))
  {
    var l' := NextLife(l, Restart);
    forall id, t ensures MayBeCommitted(l', id, t) == MayBeCommitted(l, id, t) {}
    forall id ensures Close(l', id) { CloseStill(l, l', id); }
    if l.d.file.Spooled? {
      forall id | id in l.d.file.entries ensures Accounts(l', id, l.d.file.entries[id].first) {
        AccountsStill(l, l', id, l.d.file.entries[id].first);
      }
    }
  }

  lemma KeptStep(l: Life, e: Event)
    requires Kept(l)
    ensures Kept(NextLife(l, e))
  {
    if !l.up { if e.Restart? { RestartKeeps(l); } }
    else if e.Begin? { if l.attempt.NoAttempt? { BeginKeeps(l, e.ids, e.now, e.fence); } }
    else if e.Finish? { if l.attempt.InFlight? { FinishKeeps(l, e.undelivered, e.fence); } }
    else if e.Crash? { CrashKeeps(l); }
    else { QuietKeeps(l, e); }
  }

  /**
   The de-duplication window. In every run, whatever the clock does, whichever fences, rollbacks
   and rewrites fail and wherever the process crashes: any two handoffs of one event that may have
   been committed carry recorded clocks less than fifteen minutes apart.
   */
  lemma {:induction false} HandoffsWithinWindow(hasSpool: bool, events: seq<Event>, id: string, t: int, u: int)
    requires var l := Live(Newborn(hasSpool), events); MayBeCommitted(l, id, t) && MayBeCommitted(l, id, u)
    ensures -DEDUP_WINDOW < t - u < DEDUP_WINDOW
  {
    KeptRun(hasSpool, events);
    assert Close(Live(Newborn(hasSpool), events), id);
  }

  /** A first start with nothing spooled. */
  function Newborn(hasSpool: bool): Life {
    Life(Delivery(map[], {}, NoSpoolFile, hasSpool, false), NoAttempt, true, map[])
  }

  lemma {:induction false} KeptRun(hasSpool: bool, events: seq<Event>)
    ensures Kept(Live(Newborn(hasSpool), events))
  {
    hide NextLife;
    if events == [] { NewbornKept(hasSpool); }
    else {
      KeptRun(hasSpool, events[..|events| - 1]);
      KeptStep(Live(Newborn(hasSpool), events[..|events| - 1]), events[|events| - 1]);
    }
  }

  lemma NewbornKept(hasSpool: bool)
    ensures Kept(Newborn(hasSpool))
  {
  }

  /** A rollback never erases the clock an earlier attempt left. */
  lemma RollbackSparesEarlier(l: Life, fence: Fence, id: string, t: int)
    requires Kept(l) && l.up && l.attempt.InFlight? && id in l.d.clocks && In(l.handoffs, id, t)
    ensures var l' := NextLife(l, Finish(true, fence));
            id in l'.d.clocks && l'.d.clocks[id] == l.d.clocks[id] && l'.d.clocks[id].first != 0
  {
    var a := l.attempt;
    assert MayBeCommitted(l, id, t) && Accounts(l, id, l.d.clocks[id].first);
    if a.started != [] {
      assert a.started[0] in a.ids;
      RollbackAt(l.d.clocks, a.started, a.now);
      FenceFails(l.d.(clocks := Rollback(l.d.clocks, a.started, a.now)), a.ids, fence);
    }
  }

  // ---------------------------------------------------------------- why a clock runs

  /** A restart of the run found this clock in the file. */
  ghost predicate FromDisk(hasSpool: bool, events: seq<Event>, id: string, first: int) {
    exists i :: 0 <= i < |events| && FoundBy(hasSpool, events, i, id, first)
  }

  ghost predicate FoundBy(hasSpool: bool, events: seq<Event>, i: nat, id: string, first: int)
    requires i < |events|
  {
    var l := Live(Newborn(hasSpool), events[..i]);
    events[i] == Restart && !l.up && l.d.file.Spooled? && id in l.d.file.entries && l.d.file.entries[id].first == first
  }

  /** The attempt in flight set this clock itself. */
  predicate OwnMark(l: Life, id: string, first: int) {
    l.attempt.InFlight? && id in l.attempt.started && first == l.attempt.now
  }

  ghost predicate HandedOff(l: Life, id: string) {
    exists t :: In(l.handoffs, id, t)
  }

  /** Every running clock has its reason, and the attempt in flight finds its marks where it set them. */
  ghost predicate Reasoned(l: Life, hasSpool: bool, events: seq<Event>) {
    l.up ==>
      && (forall id :: id in l.d.clocks && l.d.clocks[id].first != 0 ==>
            HandedOff(l, id) || FromDisk(hasSpool, events, id, l.d.clocks[id].first) || OwnMark(l, id, l.d.clocks[id].first))
      && (l.attempt.InFlight? ==> forall id :: id in l.attempt.started ==>
            id in l.attempt.ids && id in l.d.clocks && l.d.clocks[id].first == l.attempt.now)
  }

  lemma FoundStays(hasSpool: bool, events: seq<Event>, e: Event)
    ensures forall id, first :: FromDisk(hasSpool, events, id, first) ==> FromDisk(hasSpool, events + [e], id, first)
  {
    forall id, first | FromDisk(hasSpool, events, id, first) ensures FromDisk(hasSpool, events + [e], id, first) {
      var i :| 0 <= i < |events| && FoundBy(hasSpool, events, i, id, first);
      assert (events + [e])[..i] == events[..i];
      assert FoundBy(hasSpool, events + [e], i, id, first);
    }
  }

  lemma BeginReasoned(l: Life, hasSpool: bool, events: seq<Event>, ids: seq<string>, now: int, f: Fence)
    requires l.up && l.attempt.NoAttempt? && Reasoned(l, hasSpool, events)
    ensures Reasoned(NextLife(l, Begin(ids, now, f)), hasSpool, events)
  {
    var marked := l.d.(clocks := Mark(l.d.clocks, ids, now));
    MarkAt(l.d.clocks, ids, now);
    TakenBack(l.d.clocks, ids, now);
    FenceFails(marked, ids, f);
    var l' := NextLife(l, Begin(ids, now, f));
    assert l'.handoffs == l.handoffs;
    assert forall id :: HandedOff(l', id) == HandedOff(l, id);
    hide Persist, Mark, Started, Rollback, AnyExpired, FromDisk, HandedOff;
  }

  lemma FinishReasoned(l: Life, hasSpool: bool, events: seq<Event>, undelivered: bool, f: Fence)
    requires l.up && l.attempt.InFlight? && Reasoned(l, hasSpool, events)
    ensures Reasoned(NextLife(l, Finish(undelivered, f)), hasSpool, events)
  {
    var a := l.attempt;
    var l' := NextLife(l, Finish(undelivered, f));
    HandedAt(l.handoffs, a.ids, a.now);
    RollbackAt(l.d.clocks, a.started, a.now);
    FenceFails(l.d.(clocks := Rollback(l.d.clocks, a.started, a.now)), a.ids, f);
    hide Persist, Rollback, FromDisk, Handed, In;
    forall id | HandedOff(l, id) ensures HandedOff(l', id) {
      var t :| In(l.handoffs, id, t);
      assert In(l'.handoffs, id, t);
    }
    if !undelivered {
      forall id | id in a.started ensures HandedOff(l', id) { assert In(l'.handoffs, id, a.now); }
    }
    hide HandedOff;
  }

  lemma QuietReasoned(l: Life, hasSpool: bool, events: seq<Event>, e: Event)
    requires l.up && Reasoned(l, hasSpool, events) && !e.Begin? && !e.Finish? && !e.Crash?
    ensures Reasoned(NextLife(l, e), hasSpool, events)
  {
    var l' := NextLife(l, e);
    assert l'.handoffs == l.handoffs;
    assert forall id :: HandedOff(l', id) == HandedOff(l, id);
    hide FromDisk, HandedOff, SaveFile;
  }

  lemma RestartReasoned(l: Life, hasSpool: bool, events: seq<Event>)
    requires l == Live(Newborn(hasSpool), events) && !l.up && l.attempt.NoAttempt?
    ensures Reasoned(NextLife(l, Restart), hasSpool, events + [Restart])
  {
    var l' := NextLife(l, Restart);
    assert (events + [Restart])[..|events|] == events;
    forall id | id in l'.d.clocks ensures FromDisk(hasSpool, events + [Restart], id, l'.d.clocks[id].first) {
      assert FoundBy(hasSpool, events + [Restart], |events|, id, l'.d.clocks[id].first);
    }
    hide FromDisk;
  }

  lemma {:induction false} ReasonedRun(hasSpool: bool, events: seq<Event>)
    ensures Reasoned(Live(Newborn(hasSpool), events), hasSpool, events)
  {
    if events != [] {
      var front, e := events[..|events| - 1], events[|events| - 1];
      var l := Live(Newborn(hasSpool), front);
      assert events == front + [e];
      ReasonedRun(hasSpool, front);
      FoundStays(hasSpool, front, e);
      KeptRun(hasSpool, front);
      hide FromDisk, NextLife;
      if !l.up && e == Restart { RestartReasoned(l, hasSpool, front); }
      else if l.up && e.Begin? && l.attempt.NoAttempt? { BeginReasoned(l, hasSpool, front, e.ids, e.now, e.fence); }
      else if l.up && e.Finish? && l.attempt.InFlight? { FinishReasoned(l, hasSpool, front, e.undelivered, e.fence); }
      else if l.up && !e.Begin? && !e.Finish? && e != Crash { QuietReasoned(l, hasSpool, front, e); }
      else { Unmoved(l, e); }
    }
  }

  lemma Unmoved(l: Life, e: Event)
    requires (l.up && e.Begin? && l.attempt.InFlight?) || (l.up && e.Finish? && l.attempt.NoAttempt?) || e == Crash || (!l.up && e != Restart)
    ensures NextLife(l, e) == l || !NextLife(l, e).up
  {
  }

  /**
   A clock runs for a reason. In every run, between attempts, an event's clock is running only if some
   handoff of it may have been committed or a restart found that clock in the file; so an event that
   nothing may have delivered does not expire before the retry cap.
   */
  lemma ClockHasReason(hasSpool: bool, events: seq<Event>, id: string, now: int)
    requires var l := Live(Newborn(hasSpool), events); l.up && l.attempt.NoAttempt? && id in l.d.clocks
    ensures var l := Live(Newborn(hasSpool), events);
            var c := l.d.clocks[id];
            && (c.first != 0 ==> HandedOff(l, id) || FromDisk(hasSpool, events, id, c.first))
            && (!HandedOff(l, id) && !(c.first != 0 && FromDisk(hasSpool, events, id, c.first)) ==>
                  (Expired(Some(c), now) <==> c.intake <= 0 || c.intake > now || now - c.intake >= RETRY_AGE_CAP))
  {
    ReasonedRun(hasSpool, events);
  }
}
