/**
 Late arrivals: a post that went unanswered may be processed by the server at any later time, also
 after a crash of the process that sent it. The wire order under that, and where it stops.
 */
module FloorLate {
  import opened Basics
  import opened DecisionRecord
  import opened ConsentReceipts
  import opened ConsentOutbox
  import opened ConsentOutboxLaws
  import opened ConsentMirror
  import opened ConsentFloor
  import opened FloorShape
  import opened FloorPairing
  import opened FloorDecisions
  import opened FloorClose
  import opened FloorMarks
  import opened FloorHolds
  import opened FloorEvidence
  import opened FloorWire

  /** The floor and the posts still under way that the server had not processed when they were sent. */
  datatype Wire = Wire(s: State, late: set<Receipt>)

  datatype Event = Floor(step: Step) | Arrive(r: Receipt)

  /** The server processes a late post, unless it knows the key; the pass may still be waiting for its answer. */
  function Arrived(s: State, r: Receipt): State {
    s.(server := if HasKey(s.server, r.key) then s.server else s.server + [r],
       proc := if s.proc.Some? && s.proc.value.pass == InFlight(r, false)
               then Some(s.proc.value.(pass := InFlight(r, true))) else s.proc)
  }

  function Underway(s: State, step: Step): set<Receipt> {
    if s.proc.Some? && step == Send(false) && s.proc.value.pass.Cleared? then {s.proc.value.pass.r} else {}
  }

  function Befalls(w: Wire, event: Event): Wire {
    match event
    case Floor(step) => Wire(Next(w.s, step), w.late + Underway(w.s, step))
    case Arrive(r) => if r in w.late then w.(s := Arrived(w.s, r)) else w
  }

  function Events(w: Wire, events: seq<Event>): Wire {
    if events == [] then w else Befalls(Events(w, events[..|events| - 1]), events[|events| - 1])
  }

  /** The steps of a run as events. */
  function Floors(steps: seq<Step>): seq<Event> {
    seq(|steps|, i requires 0 <= i < |steps| => Floor(steps[i]))
  }

  lemma {:induction false} FloorsRun(w: Wire, steps: seq<Step>)
    ensures Events(w, Floors(steps)).s == Run(w.s, steps) && w.late <= Events(w, Floors(steps)).late
  {
    hide Next, Underway;
    if steps != [] {
      assert Floors(steps)[..|steps| - 1] == Floors(steps[..|steps| - 1]);
      FloorsRun(w, steps[..|steps| - 1]);
    }
  }

  lemma {:induction false} EventsJoined(w: Wire, a: seq<Event>, b: seq<Event>)
    ensures Events(w, a + b) == Events(Events(w, a), b)
  {
    hide Befalls;
    if b == [] { assert a + b == a; }
    else {
      assert (a + b)[..|a + b| - 1] == a + b[..|b| - 1];
      EventsJoined(w, a, b[..|b| - 1]);
    }
  }

  lemma OneEvent(w: Wire, event: Event)
    ensures Events(w, [event]) == Befalls(w, event)
  {
    hide Befalls;
    assert [event][..0] == [];
  }

  // ---------------------------------------------------------------- receipts not yet delivered

  /** The receipt is in the file, in the mirror, or held by the pass. */
  predicate Present(s: State, r: Receipt) {
    r in Listed(s.disk.trail) || (s.proc.Some? && (r in s.proc.value.box.receipts || PassReceipt(s.proc.value.pass) == Some(r)))
  }

  /** Nothing present is older, but what the server knows. */
  ghost predicate Foremost(s: State, r: Receipt) {
    forall e :: Present(s, e) ==> HasKey(s.server, e.key) || r.at <= e.at
  }

  ghost predicate Grounded(s: State, at: int) {
    Dominated(s.disk.record, Listed(s.disk.trail), at) && (s.proc.Some? ==> Dominated(s.disk.record, s.proc.value.box.receipts, at))
  }

  /** A post under way: as long as its receipt is present it is known or the next one due, and its stamp is on disk. */
  ghost predicate Waits(s: State, r: Receipt, weak: bool) {
    && r.key in s.used && (s.proc.Some? && MintedIn(s.proc.value.slow).Some? ==> MintedIn(s.proc.value.slow).value.key != r.key)
    && (Present(s, r) ==> HasKey(s.server, r.key) || Foremost(s, r))
    && (!weak ==> Grounded(s, r.at))
  }

  /** Among what is present a stamp tells the receipt. */
  lemma PresentTells(s: State, a: Receipt, b: Receipt)
    requires Shape(s) && Present(s, a) && Present(s, b) && a.at == b.at
    ensures a == b
  {
    if s.proc.None? {
      RestTrail(s);
      hide Shape, Trail;
      TrailTells(Listed(s.disk.trail), s.cfg.me, a, b);
    } else {
      var p := s.proc.value;
      ShapeParts(s);
      LinkedTrails(p.box, s.disk.trail, s.cfg.me, s.used);
      hide Shape, Linked, Stamps;
      PresentKnown(s, p, a, b);
      PresentKnown(s, p, b, a);
    }
  }

  lemma RestTrail(s: State)
    requires Shape(s)
    ensures Trail(Listed(s.disk.trail), s.cfg.me)
  {
  }

  lemma PresentKnown(s: State, p: Proc, a: Receipt, b: Receipt)
    requires s.proc == Some(p) && PassPlace(s, p) && Trail(p.box.receipts, s.cfg.me) && Trail(Listed(s.disk.trail), s.cfg.me)
    requires Agree(Listed(s.disk.trail), p.box.receipts)
    requires Present(s, a) && Present(s, b) && a.at == b.at
    ensures PassReceipt(p.pass) == Some(a) || (a in p.box.receipts <==> b in p.box.receipts) || a in Listed(s.disk.trail) ==> a == b
  {
    var rs, listed := p.box.receipts, Listed(s.disk.trail);
    if a in rs && b in rs { TrailTells(rs, s.cfg.me, a, b); }
    if a in listed && b in listed { TrailTells(listed, s.cfg.me, a, b); }
    if a in listed && b in rs { CrossTells(listed, rs, s.cfg.me, a, b); }
    if b in listed && a in rs { CrossTells(listed, rs, s.cfg.me, b, a); }
    hide Trail, Agree, Gone;
  }

  lemma CrossTells(listed: seq<Receipt>, rs: seq<Receipt>, me: Identity, d: Receipt, m: Receipt)
    requires Agree(listed, rs) && Trail(listed, me) && d in listed && m in rs && d.at == m.at
    ensures d == m
  {
    HasKeyIn(listed, m.key);
    assert HasKey(listed, m.key);
    var e :| e in listed && e.key == m.key;
    TrailTells(listed, me, d, e);
    hide Trail;
  }

  /** A decision whose receipt is not in the trail yet is newer than all that is present. */
  lemma PendingNewest(s: State, e: Receipt)
    requires Shape(s) && s.proc.Some? && Present(s, e)
    ensures var p := s.proc.value;
            && (PendingAt(p.slow).Some? ==> e.at < PendingAt(p.slow).value)
            && (p.mintOwed.Some? ==> e.at < p.mintOwed.value.at)
            && (MintedIn(p.slow).Some? ==> e.at < MintedIn(p.slow).value.at)
  {
    var p := s.proc.value;
    TrailFacts(s);
    assert MintedIn(p.slow).Some? ==> PendingAt(p.slow) == Some(MintedIn(p.slow).value.at);
    if PassReceipt(p.pass).Some? { PendingOlder(s, p); }
    hide Shape, Trail, PassPlace, Newest, PendingAt, MintedIn;
  }

  // ---------------------------------------------------------------- posts under way, step by step

  /** What a step makes present was present, or is the receipt it appends. */
  lemma PresentFrom(s: State, step: Step, e: Receipt)
    requires Shape(s) && s.proc.Some? && !step.Crash? && Present(NextRaw(s, step), e)
    ensures Present(s, e) || Joins(s.proc.value, step, e)
  {
    ListsFrom(s, step);
    ReceiptMoves(s, step);
    hide Shape, NextRaw, Joins, Leaves;
  }

  lemma ServerKnows(s: State, step: Step, k: string)
    requires HasKey(s.server, k)
    ensures HasKey(NextRaw(s, step).server, k)
  {
    ServerGrows(s, step);
    hide HasKey, NextRaw;
  }

  lemma ForemostStep(s: State, step: Step, r: Receipt)
    requires Shape(s) && s.proc.Some? && !step.Crash? && Foremost(s, r) && Present(s, r)
    ensures Foremost(NextRaw(s, step), r)
  {
    var t := NextRaw(s, step);
    forall e | Present(t, e) ensures HasKey(t.server, e.key) || r.at <= e.at {
      PresentFrom(s, step, e);
      if Joins(s.proc.value, step, e) { PendingNewest(s, r); }
      else if HasKey(s.server, e.key) { ServerKnows(s, step, e.key); }
    }
    hide Shape, NextRaw, HasKey, Present;
  }

  lemma WaitsStep(s: State, step: Step, r: Receipt, weak: bool)
    requires Shape(s) && s.proc.Some? && !step.Crash? && Waits(s, r, weak)
    requires !weak ==> Healthy(s) && DenySafe(s.disk.record, s.proc.value) && GrantSafe(s.disk.record, s.proc.value)
    ensures Waits(NextRaw(s, step), r, weak)
  {
    KeysMove(s, step);
    var t := NextRaw(s, step);
    if Present(t, r) {
      PresentFrom(s, step, r);
      if HasKey(s.server, r.key) { ServerKnows(s, step, r.key); } else { ForemostStep(s, step, r); }
    }
    if !weak { OnDiskStep(s, step, r.at); }
    hide Shape, NextRaw, HasKey, Present, Foremost, Dominated, Healthy, DenySafe, GrantSafe, MintedIn;
  }

  /** A post just sent and not processed. */
  lemma WaitsSent(s: State, weak: bool, mints: bool)
    requires Wired(s, mints, weak) && s.proc.Some? && s.proc.value.pass.Cleared?
    ensures Waits(NextRaw(s, Send(false)), s.proc.value.pass.r, weak)
  {
    var p := s.proc.value;
    SendMoves(s, false);
    TrailFacts(s);
    var t := NextRaw(s, Send(false));
    hide Shape, NextRaw, HasKey, Trail, Stamps, Healthy, Vetted, Topped, Dominated, Answered, AllDue, Above;
    if !HasKey(s.server, p.pass.r.key) { assert Foremost(t, p.pass.r) by { SentForemost(s, t, p.pass.r); } }
  }

  lemma SentForemost(s: State, t: State, r: Receipt)
    requires s.proc.Some? && Oldest(s, s.proc.value, r) && PassReceipt(s.proc.value.pass) == Some(r)
    requires t.disk == s.disk && t.server == s.server && t.proc.Some? && t.proc.value.box == s.proc.value.box
    requires PassReceipt(t.proc.value.pass) == Some(r)
    ensures Foremost(t, r)
  {
    hide HasKey;
  }

  /** Starts and crashes leave only what the file lists. */
  lemma WaitsTurn(s: State, step: Step, r: Receipt, weak: bool)
    requires Shape(s) && Waits(s, r, weak) && (if s.proc.Some? then step.Crash? else true)
    ensures Waits(NextRaw(s, step), r, weak)
  {
    if s.proc.None? && step.Start? { WaitsStart(s, step.healOk, step.markOk, r, weak); }
    else {
      assert NextRaw(s, step) == s.(proc := None);
      hide Shape, NextRaw, HasKey, Dominated;
    }
  }

  lemma WaitsStart(s: State, healOk: bool, markOk: bool, r: Receipt, weak: bool)
    requires Shape(s) && Waits(s, r, weak) && s.proc.None?
    ensures Waits(NextRaw(s, Start(healOk, markOk)), r, weak)
  {
    BootPlain(s, healOk, markOk);
    LoadBoxLists(s.disk.trail, s.cfg.me);
    if !weak { GroundedHealed(s, healOk, markOk, r); }
    hide Boot, Conclude, Resolve, Shape, LoadBox, HasKey, Dominated;
  }

  lemma GroundedHealed(s: State, healOk: bool, markOk: bool, r: Receipt)
    requires Shape(s) && Dominated(s.disk.record, Listed(s.disk.trail), r.at)
    ensures var (disk, p) := Boot(s.cfg, s.disk, healOk, markOk);
            Dominated(disk.record, Listed(disk.trail), r.at) && Dominated(disk.record, p.box.receipts, r.at)
  {
    var t := s.(server := [r]);
    assert Shape(t) by { ServerAside(s, [r]); }
    assert Topped(t.disk.record, t.server, Listed(t.disk.trail)) by { hide Dominated; }
    hide Shape, Boot;
    ToppedHealed(t, healOk, markOk);
    assert r in t.server;
    hide Dominated;
  }

  lemma ServerAside(s: State, log: seq<Receipt>)
    requires Shape(s)
    ensures Shape(s.(server := log))
  {
    hide Linked, Trail, HasKey;
  }

  lemma WaitsObserve(s: State, r: Receipt, weak: bool)
    requires Waits(s, r, weak)
    ensures Waits(Observe(s), r, weak)
  {
    hide HasKey, Dominated;
    if Foremost(s, r) { forall e | Present(Observe(s), e) ensures HasKey(s.server, e.key) || r.at <= e.at { assert Present(s, e); } }
  }

  // ---------------------------------------------------------------- an arrival

  /** The server knows the receipt, or the client still has it to deliver. */
  predicate InTime(s: State, r: Receipt) {
    HasKey(s.server, r.key) || Present(s, r)
  }

  /** A receipt present and due, and nothing before it. */
  ghost predicate NextDue(s: State, r: Receipt, weak: bool) {
    Present(s, r) && Foremost(s, r) && !HasKey(s.server, r.key) && Above(s.server, r.at, r.granted, weak)
  }

  lemma LateIsNext(s: State, r: Receipt, mints: bool, weak: bool)
    requires Wired(s, mints, weak) && Waits(s, r, weak) && Present(s, r) && !HasKey(s.server, r.key)
    ensures NextDue(s, r, weak)
  {
    hide Shape, HasKey, Guarded, Topped, Answered, Above, Oldest, Foremost, Dominated;
    if s.proc.Some? { assert First(s, s.proc.value, weak); }
  }

  /** Whatever else is due stays due behind it. */
  lemma DueBehind(s: State, r: Receipt, e: Receipt, weak: bool)
    requires Shape(s) && NextDue(s, r, weak) && Present(s, e) && Due(s.server, e, weak)
    ensures Due(s.server + [r], e, weak)
  {
    HasKeyAfter(s.server, r);
    hide Shape, HasKey;
    if !HasKey(s.server, e.key) && e.key != r.key {
      assert r.at <= e.at;
      if r.at == e.at { PresentTells(s, r, e); }
      AboveAfter(s.server, r, e.at, e.granted, weak);
    }
  }

  lemma PendingBehind(s: State, r: Receipt, weak: bool)
    requires Shape(s) && s.proc.Some? && Present(s, r) && PendingAbove(s.server, s.proc.value, weak)
    ensures PendingAbove(s.server + [r], s.proc.value, weak)
  {
    var p := s.proc.value;
    PendingNewest(s, r);
    hide Shape, Above, Present;
    if PendingAt(p.slow).Some? { AboveAfter(s.server, r, PendingAt(p.slow).value, PendingGrant(p.slow), weak); }
    if p.mintOwed.Some? { AboveAfter(s.server, r, p.mintOwed.value.at, p.mintOwed.value.decision == Grant, weak); }
  }

  /** The receipt of the pass is known then, or still the first. */
  lemma FirstBehind(s: State, r: Receipt, weak: bool)
    requires Shape(s) && s.proc.Some? && NextDue(s, r, weak) && First(s, s.proc.value, weak)
    ensures var t := s.(server := s.server + [r]); First(t, s.proc.value, weak)
  {
    var p := s.proc.value;
    HasKeyAfter(s.server, r);
    if PassReceipt(p.pass).Some? {
      var x := PassReceipt(p.pass).value;
      if !HasKey(s.server, x.key) && x.key != r.key {
        assert Present(s, x);
        assert r.at == x.at;
        PresentTells(s, r, x);
        assert false;
      }
    }
    hide Shape, HasKey, Above, Foremost;
  }

  lemma RunningBehind(s: State, r: Receipt, weak: bool)
    requires Shape(s) && s.proc.Some? && NextDue(s, r, weak) && LogRunning(s, s.proc.value, weak)
    ensures var t := s.(server := s.server + [r]); LogRunning(t, s.proc.value, weak)
  {
    var p, t := s.proc.value, s.(server := s.server + [r]);
    HasKeyAfter(s.server, r);
    FirstBehind(s, r, weak);
    PendingBehind(s, r, weak);
    AnsweredAfter(s, t, p, p);
    forall e | e in p.box.receipts ensures Due(t.server, e, weak) { DueBehind(s, r, e, weak); }
    hide Shape, HasKey, Above, Due, Answered, First, PendingAbove, NextDue;
  }

  lemma RestBehind(s: State, r: Receipt, weak: bool)
    requires Shape(s) && NextDue(s, r, weak) && LogRest(s, weak) && (!weak ==> Grounded(s, r.at))
    ensures LogRest(s.(server := s.server + [r]), weak)
  {
    OrderedAfter(s.server, r, weak);
    forall e | e in Listed(s.disk.trail) ensures Due(s.server + [r], e, weak) { DueBehind(s, r, e, weak); }
    if !weak { ToppedAfter(s.disk.record, s.server, Listed(s.disk.trail), r); }
    hide Shape, HasKey, Above, Due, Ordered, NextDue, Dominated;
  }

  lemma GuardedBehind(s: State, r: Receipt, mints: bool)
    requires s.proc.Some? && Guarded(s, mints) && Grounded(s, r.at)
    ensures Guarded(s.(server := s.server + [r]), mints)
  {
    var t := s.(server := s.server + [r]);
    ToppedAfter(s.disk.record, s.server, s.proc.value.box.receipts, r);
    assert Healthy(t) by { ServerAside(s, t.server); hide Shape, Pairing, Marks, HasKey; }
    VettedAside(s, t, mints);
    hide Healthy, Vetted, Topped, Dominated, DenySafe, GrantSafe;
  }

  lemma VettedAside(s: State, t: State, mints: bool)
    requires s.proc.Some? && t == s.(server := t.server) && Vetted(s, s.proc.value, mints)
    ensures Vetted(t, s.proc.value, mints)
  {
    hide Marks, JudgedCovered, GrantsMinted, HasKey;
  }

  lemma DeliveredBehind(s: State, r: Receipt)
    requires PassDelivered(s)
    ensures PassDelivered(s.(server := s.server + [r]))
  {
    HasKeyAfter(s.server, r);
    hide HasKey;
  }

  /** A late receipt that is present is processed in its place. */
  lemma WiredBehind(s: State, r: Receipt, mints: bool, weak: bool)
    requires Wired(s, mints, weak) && Waits(s, r, weak) && Present(s, r) && !HasKey(s.server, r.key)
    ensures Wired(s.(server := s.server + [r]), mints, weak)
  {
    LateIsNext(s, r, mints, weak);
    ServerAside(s, s.server + [r]);
    DeliveredBehind(s, r);
    RestBehind(s, r, weak);
    if s.proc.Some? {
      RunningBehind(s, r, weak);
      if !weak { GuardedBehind(s, r, mints); }
    }
    hide Shape, PassDelivered, LogRest, LogRunning, Guarded, Present, HasKey, NextDue, Waits;
  }

  /** The answer of the post under way may now say that it was processed. */
  predicate Awaited(p: Proc, q: Proc) {
    p.pass.InFlight? && q == p.(pass := InFlight(p.pass.r, true))
  }

  lemma ShapeAwaited(s: State, t: State)
    requires Shape(s) && s.proc.Some? && t.proc.Some? && t == s.(proc := t.proc) && Awaited(s.proc.value, t.proc.value)
    ensures Shape(t)
  {
    hide Linked, Trail, HasKey, Newest, Ahead, Gone;
  }

  lemma PairingAwaited(disk: Disk, p: Proc, q: Proc)
    requires Pairing(disk, p) && Awaited(p, q)
    ensures Pairing(disk, q)
  {
    hide Covers;
  }

  lemma MarksAwaited(s: State, t: State)
    requires s.proc.Some? && t.proc.Some? && t == s.(proc := t.proc) && Awaited(s.proc.value, t.proc.value)
    requires Marks(s.disk, s.proc.value) && Unmarked(s, s.proc.value)
    ensures Marks(t.disk, t.proc.value) && Unmarked(t, t.proc.value)
  {
    hide HasKey, Covers;
  }

  lemma WarrantedAwaited(s: State, t: State, mints: bool)
    requires s.proc.Some? && t.proc.Some? && t == s.(proc := t.proc) && Awaited(s.proc.value, t.proc.value)
    requires Marks(s.disk, s.proc.value) && Unmarked(s, s.proc.value)
    requires Vetted(s, s.proc.value, mints)
    ensures Vetted(t, t.proc.value, mints)
  {
    MarksAwaited(s, t);
    hide HasKey, Covers, Marks, Unmarked;
  }

  lemma HoldsAwaited(s: State, t: State)
    requires s.proc.Some? && t.proc.Some? && t == s.(proc := t.proc) && Awaited(s.proc.value, t.proc.value)
    requires PassOnDisk(s, s.proc.value) && DenySafe(s.disk.record, s.proc.value) && GrantSafe(s.disk.record, s.proc.value)
    ensures PassOnDisk(t, t.proc.value) && DenySafe(t.disk.record, t.proc.value) && GrantSafe(t.disk.record, t.proc.value)
  {
    hide Dominated, Safe;
  }

  lemma WiredAwaited(s: State, r: Receipt, mints: bool, weak: bool)
    requires Wired(s, mints, weak) && HasKey(s.server, r.key) && s.proc.Some? && s.proc.value.pass == InFlight(r, false)
    ensures Wired(s.(proc := Some(s.proc.value.(pass := InFlight(r, true)))), mints, weak)
  {
    var t := s.(proc := Some(s.proc.value.(pass := InFlight(r, true))));
    hide Shape, LogRunning, Guarded, Ordered, AllDue, Topped, HasKey;
    ShapeAwaited(s, t);
    SendOldAwaited(s, t, weak);
    if !weak { GuardedAwaited(s, t, mints); }
  }

  lemma SendOldAwaited(s: State, t: State, weak: bool)
    requires s.proc.Some? && LogRunning(s, s.proc.value, weak)
    requires t == s.(proc := t.proc) && t.proc.Some? && t.proc.value == s.proc.value.(pass := t.proc.value.pass)
    requires PassReceipt(t.proc.value.pass) == PassReceipt(s.proc.value.pass)
    ensures LogRunning(t, t.proc.value, weak)
  {
    hide HasKey, Above, Due;
  }

  lemma GuardedAwaited(s: State, t: State, mints: bool)
    requires s.proc.Some? && t.proc.Some? && t == s.(proc := t.proc) && Awaited(s.proc.value, t.proc.value)
    requires Guarded(s, mints)
    ensures Guarded(t, mints)
  {
    hide Shape, Pairing, Marks, Unmarked, Vetted, Topped, PassOnDisk, DenySafe, GrantSafe;
    ShapeAwaited(s, t);
    PairingAwaited(s.disk, s.proc.value, t.proc.value);
    MarksAwaited(s, t);
    WarrantedAwaited(s, t, mints);
    HoldsAwaited(s, t);
  }

  lemma WiredArrived(s: State, r: Receipt, mints: bool, weak: bool)
    requires Wired(s, mints, weak) && Waits(s, r, weak) && InTime(s, r)
    ensures Wired(Arrived(s, r), mints, weak)
  {
    if HasKey(s.server, r.key) {
      if s.proc.Some? && s.proc.value.pass == InFlight(r, false) { WiredAwaited(s, r, mints, weak); }
    } else {
      WiredBehind(s, r, mints, weak);
      HasKeyAfter(s.server, r);
      if s.proc.Some? && s.proc.value.pass == InFlight(r, false) { WiredAwaited(s.(server := s.server + [r]), r, mints, weak); }
    }
    hide Wired, Waits, Present, HasKey;
  }

  lemma WaitsArrived(s: State, r: Receipt, x: Receipt, weak: bool)
    requires Waits(s, x, weak)
    ensures Waits(Arrived(s, r), x, weak)
  {
    HasKeyAfter(s.server, r);
    var t := Arrived(s, r);
    hide HasKey, Dominated;
    if Present(t, x) && Foremost(s, x) {
      forall e | Present(t, e) ensures HasKey(t.server, e.key) || x.at <= e.at { assert Present(s, e); }
    }
  }

  // ---------------------------------------------------------------- every event, every run

  /** What the order needs: of the floor what it always needs, and of an arrival that it comes in time. */
  ghost predicate Fair(w: Wire, event: Event, mints: bool) {
    match event
    case Floor(step) => WireFair(w.s, step, mints)
    case Arrive(r) => r in w.late ==> InTime(w.s, r)
  }

  ghost predicate FairEvents(w: Wire, events: seq<Event>, mints: bool) {
    events == [] ||
    (FairEvents(w, events[..|events| - 1], mints) && Fair(Events(w, events[..|events| - 1]), events[|events| - 1], mints))
  }

  ghost predicate AllWait(w: Wire, weak: bool) {
    forall r :: r in w.late ==> Waits(w.s, r, weak)
  }

  ghost predicate Posted(w: Wire, mints: bool, weak: bool) {
    Wired(w.s, mints, weak) && AllWait(w, weak)
  }

  /** The posts under way after a step of the floor. */
  lemma AllWaitFloor(w: Wire, step: Step, mints: bool, weak: bool)
    requires Posted(w, mints, weak)
    ensures AllWait(Befalls(w, Floor(step)), weak)
  {
    var s, t := w.s, NextRaw(w.s, step);
    forall r | r in w.late + Underway(s, step) ensures Waits(Next(s, step), r, weak) {
      if r in Underway(s, step) { WaitsSent(s, weak, mints); }
      else if s.proc.Some? && !step.Crash? { hide NextRaw, Waits, LogRest, LogRunning, PassDelivered; WaitsStep(s, step, r, weak); }
      else { hide NextRaw, Waits, LogRest, LogRunning, PassDelivered; WaitsTurn(s, step, r, weak); }
      hide NextRaw, Waits, Wired;
      WaitsObserve(t, r, weak);
    }
  }

  lemma AllWaitArrived(w: Wire, r: Receipt, weak: bool)
    requires AllWait(w, weak)
    ensures AllWait(Befalls(w, Arrive(r)), weak)
  {
    forall x | x in w.late ensures Waits(Arrived(w.s, r), x, weak) { WaitsArrived(w.s, r, x, weak); }
    hide Waits, Arrived;
  }

  lemma PostedAfter(w: Wire, event: Event, mints: bool)
    requires Posted(w, mints, false) && Fair(w, event, mints)
    ensures Posted(Befalls(w, event), mints, false)
  {
    hide Wired, AllWait, WireFair, Waits, InTime, Next, Arrived;
    match event
    case Floor(step) =>
      AllWaitFloor(w, step, mints, false);
      WiredStep(w.s, step, mints);
    case Arrive(r) =>
      AllWaitArrived(w, r, false);
      if r in w.late {
        assert Waits(w.s, r, false) by { WaitsIn(w, r, false); }
        WiredArrived(w.s, r, mints, false);
      }
  }

  lemma WaitsIn(w: Wire, r: Receipt, weak: bool)
    requires AllWait(w, weak) && r in w.late
    ensures Waits(w.s, r, weak)
  {
  }

  lemma {:induction false} PostedRun(w: Wire, events: seq<Event>, mints: bool)
    requires Posted(w, mints, false) && FairEvents(w, events, mints)
    ensures Posted(Events(w, events), mints, false)
  {
    hide Posted, Befalls, Fair;
    if events != [] {
      PostedRun(w, events[..|events| - 1], mints);
      PostedAfter(Events(w, events[..|events| - 1]), events[|events| - 1], mints);
    }
  }

  /**
   Wire order with late arrivals. The conditions are those of the order without them, and one more: a post
   that the server had not processed when it was sent is processed later, if at all, while the client still
   has its receipt to deliver, or once the server knows it. Then the server processes strictly newer
   decisions, whatever is retried, delayed, answered late or not at all, evicted or interrupted by crashes.
   */
  lemma LateOrder(w: Wire, events: seq<Event>, mints: bool)
    requires Shape(w.s) && w.s.proc.None? && LogRest(w.s, false) && AllWait(w, false) && FairEvents(w, events, mints)
    ensures Ordered(Events(w, events).s.server, false)
  {
    hide FairEvents, Events, Waits, Shape, Befalls, Ordered, Topped;
    assert Posted(w, mints, false);
    PostedRun(w, events, mints);
  }

  // ---------------------------------------------------------------- no grant after a newer denial

  /** What the weak order needs of an event. */
  ghost predicate Fairly(w: Wire, event: Event, mints: bool) {
    match event
    case Floor(step) => WireFairly(w.s, step, mints)
    case Arrive(r) => r in w.late ==> InTime(w.s, r)
  }

  ghost predicate FairlyEvents(w: Wire, events: seq<Event>, mints: bool) {
    events == [] ||
    (FairlyEvents(w, events[..|events| - 1], mints) && Fairly(Events(w, events[..|events| - 1]), events[|events| - 1], mints))
  }

  ghost predicate TrackedLate(w: Wire, mints: bool) {
    Tracked(w.s, mints) && AllWait(w, Absorbing(w.s.disk.record))
  }

  lemma WaitsWeakened(s: State, r: Receipt)
    requires Waits(s, r, false)
    ensures Waits(s, r, true)
  {
  }

  lemma AllWeakened(w: Wire)
    requires AllWait(w, false)
    ensures AllWait(w, true)
  {
    forall r | r in w.late ensures Waits(w.s, r, true) { WaitsWeakened(w.s, r); }
    hide Waits;
  }

  lemma LinearAwaited(p: Proc, q: Proc)
    requires Awaited(p, q) && Linear(p) && SlotTells(p) && Minor(p)
    ensures Linear(q) && SlotTells(q) && Minor(q) && Accepted(q) == Accepted(p)
  {
    hide LastDenial;
  }

  lemma TellsAwaited(record: RecordFile, p: Proc, q: Proc)
    requires Awaited(p, q) && RecordTells(record, p)
    ensures RecordTells(record, q)
  {
    hide RecordLive;
  }

  lemma CoherentServer(s: State, log: seq<Receipt>)
    requires Coherent(s)
    ensures Coherent(s.(server := log))
  {
    ServerAside(s, log);
    hide Shape, Pairing, RecordTells, Linear, SlotTells, Minor, HoldsMinor, Absorbing;
  }

  lemma CoherentAwaited(s: State, t: State)
    requires s.proc.Some? && t.proc.Some? && t == s.(proc := t.proc) && Awaited(s.proc.value, t.proc.value)
    requires Coherent(s)
    ensures Coherent(t)
  {
    hide Shape, Pairing, RecordTells, Linear, SlotTells, Minor, HoldsMinor, Absorbing, Awaited;
    ShapeAwaited(s, t);
    if Pairing(s.disk, s.proc.value) { PairingAwaited(s.disk, s.proc.value, t.proc.value); }
    LinearAwaited(s.proc.value, t.proc.value);
    TellsAwaited(s.disk.record, s.proc.value, t.proc.value);
  }

  /** The state is as coherent after an arrival as before. */
  lemma CoherentArrived(s: State, r: Receipt)
    requires Coherent(s)
    ensures Coherent(Arrived(s, r))
  {
    hide Coherent, HasKey;
    var t := s.(server := Arrived(s, r).server);
    CoherentServer(s, t.server);
    if s.proc.Some? && s.proc.value.pass == InFlight(r, false) { CoherentAwaited(t, Arrived(s, r)); }
  }

  lemma TrackedAfter(w: Wire, event: Event, mints: bool)
    requires TrackedLate(w, mints) && Fairly(w, event, mints)
    ensures TrackedLate(Befalls(w, event), mints)
  {
    var weak := Absorbing(w.s.disk.record);
    hide Coherent, Wired, AllWait, WireFairly, Waits, InTime, Next, Arrived, Absorbing;
    match event
    case Floor(step) =>
      AllWaitFloor(w, step, mints, weak);
      AbsorbingStays(w.s, step);
      TrackedStep(w.s, step, mints);
      if !weak && Absorbing(Next(w.s, step).disk.record) { AllWeakened(Befalls(w, event)); }
    case Arrive(r) =>
      AllWaitArrived(w, r, weak);
      ArrivedDisk(w.s, r);
      if r in w.late {
        assert Waits(w.s, r, weak) by { WaitsIn(w, r, weak); }
        WiredArrived(w.s, r, mints, weak);
        CoherentArrived(w.s, r);
      }
  }

  lemma ArrivedDisk(s: State, r: Receipt)
    ensures Arrived(s, r).disk == s.disk
  {
    hide HasKey;
  }

  lemma {:induction false} TrackedLateRun(w: Wire, events: seq<Event>, mints: bool)
    requires TrackedLate(w, mints) && FairlyEvents(w, events, mints)
    ensures TrackedLate(Events(w, events), mints)
  {
    hide TrackedLate, Befalls, Fairly;
    if events != [] {
      TrackedLateRun(w, events[..|events| - 1], mints);
      TrackedAfter(Events(w, events[..|events| - 1]), events[|events| - 1], mints);
    }
  }

  /** No grant after a newer denial, whatever record a start finds, with late arrivals in time. */
  lemma NoGrantAfterNewerDenialLate(w: Wire, events: seq<Event>, mints: bool, i: nat, j: nat)
    requires Shape(w.s) && w.s.proc.None? && LogRest(w.s, Absorbing(w.s.disk.record)) && AllWait(w, Absorbing(w.s.disk.record))
    requires FairlyEvents(w, events, mints)
    requires var log := Events(w, events).s.server; i < j < |log| && !log[i].granted && log[j].granted
    ensures var log := Events(w, events).s.server; log[i].at < log[j].at
  {
    hide FairlyEvents, Events, Waits, Befalls;
    assert TrackedLate(w, mints) by { CoherentRest(w.s); }
    TrackedLateRun(w, events, mints);
  }
}
