/**
 A handle and the shared plane: the platform's withdrawal moves the plane's generation and the
 credentials' epoch at once, and each handle notices at its next entry.
 */
module SubjectPlane {
  import opened Basics
  import opened SubjectHandle

  /** `seen` is the generation the handle has noticed, `epochs` what each fetch read at its dispatch. */
  datatype Plane = Plane(h: Handle, auth: nat, generation: nat, seen: nat, epochs: map<nat, nat>)

  /** When a withdrawal falls into a fetch's dispatch: not at all, before its epoch is read, or after. */
  datatype Race = Unraced | BeforeRead | AfterRead

  datatype Event =
    | Withdraw
    | Latch
    | Sync
    | Dispatch(key: string, band: Band, race: Race)
    | Settle(n: nat, answer: Answer, refused: bool)
    | Other(step: Step)

  /** syncSentinelLocked. */
  function Synced(p: Plane): Plane {
    if p.seen == p.generation then p else p.(h := Next(p.h, Sentinel), seen := p.generation)
  }

  /** applySentinelWithdrawalLocked, as far as a handle is concerned. */
  function Withdrawn(p: Plane): Plane {
    p.(auth := p.auth + 1, generation := p.generation + 1)
  }

  /** Fetch up to the request: the handle is synced, reads the epoch, declares, and is synced again. */
  function Dispatched(p: Plane, key: string, band: Band, race: Race): Plane {
    var q := if race == BeforeRead then Withdrawn(Synced(p)) else Synced(p);
    var r := q.(h := Next(q.h, Begin(key, band)), epochs := q.epochs[q.h.fetchSeq + 1 := q.auth]);
    Synced(if race == AfterRead then Withdrawn(r) else r)
  }

  /** The epoch has moved since the fetch read it. */
  predicate StaleEpoch(p: Plane, n: nat) {
    n !in p.epochs || p.epochs[n] != p.auth
  }

  /** The commit point, under both locks. */
  function Settled(p: Plane, n: nat, a: Answer, refused: bool): Plane {
    var q := Synced(p);
    q.(h := Next(q.h, Answered(n, a, Fences(refused, StaleEpoch(q, n)))))
  }

  function Happens(p: Plane, event: Event): Plane {
    match event
    case Withdraw => Withdrawn(p)
    case Latch => p.(auth := p.auth + 1)
    case Sync => Synced(p)
    case Dispatch(key, band, race) => Dispatched(p, key, band, race)
    case Settle(n, a, refused) => Settled(p, n, a, refused)
    case Other(step) => if step.Begin? || step.Answered? || step.Sentinel? then p else p.(h := Next(p.h, step))
  }

  function After(p: Plane, events: seq<Event>): Plane {
    if events == [] then p else Happens(After(p, events[..|events| - 1]), events[|events| - 1])
  }

  predicate Fresh(p: Plane) {
    Start(p.h) && p.seen == p.generation && p.epochs == map[]
  }

  // ---------------------------------------------------------------- who installed what is cached

  /** Epochs belong to dispatched fetches and lie behind, and every cached entry's fetch has read one. */
  ghost predicate Dated(p: Plane) {
    && p.seen <= p.generation
    && (forall n :: n in p.epochs ==> 0 < n <= p.h.fetchSeq && p.epochs[n] <= p.auth)
    && (forall k :: k in p.h.entries ==> p.h.entries[k].origin in p.epochs)
  }

  /** Nothing of epoch `since` or older is cached, or the handle has yet to notice a withdrawal since. */
  ghost predicate Since(p: Plane, since: nat) {
    since < p.auth && (p.seen == p.generation ==> forall k :: k in p.h.entries && p.h.entries[k].origin in p.epochs ==> p.epochs[p.h.entries[k].origin] > since)
  }

  lemma StaleInstallsNothing(h: Handle, n: nat, key: string, a: Answer, f: Fences)
    requires f.stale
    ensures forall k :: k in Applied(h, n, key, a, f).0.entries ==> k in h.entries && Applied(h, n, key, a, f).0.entries[k] == h.entries[k]
  {
    hide WithoutKey;
  }

  /** An answer caches what was cached, or its own assignment under a current epoch. */
  lemma AnsweredEntries(h: Handle, n: nat, a: Answer, f: Fences)
    ensures var t := Next(h, Answered(n, a, f));
            && t.fetchSeq == h.fetchSeq
            && forall k :: k in t.entries ==> (k in h.entries && t.entries[k] == h.entries[k]) || (t.entries[k].origin == n && !f.stale)
  {
    if n in h.fetches && !h.fetches[n].answered {
      AppliedEffects(h, n, h.fetches[n].key, a, f);
      if f.stale { StaleInstallsNothing(h, n, h.fetches[n].key, a, f); }
      hide Applied;
    }
  }

  /** The other steps cache nothing. */
  lemma OtherEntries(h: Handle, step: Step)
    requires !step.Begin? && !step.Answered?
    ensures var t := Next(h, step);
            t.fetchSeq == h.fetchSeq && forall k :: k in t.entries ==> k in h.entries && t.entries[k] == h.entries[k]
  {
    if step.End? { if step.n in h.fetches { EndEffects(h, step.n); } else { EndNothing(h, step.n); } hide Next; }
    else if Recording(step) { RecordingCore(h, step); hide Next; }
    else { WithdrawingEntries(h, step); hide Next; }
  }

  lemma WithdrawingEntries(h: Handle, step: Step)
    requires step.Consent? || step.Sentinel? || step.SealRefused?
    ensures var t := Next(h, step);
            t.fetchSeq == h.fetchSeq && forall k :: k in t.entries ==> k in h.entries && t.entries[k] == h.entries[k]
  {
    hide WithoutKey, ExposedElsewhere;
  }

  lemma SyncedDated(p: Plane)
    requires Dated(p)
    ensures var q := Synced(p); Dated(q) && q.seen == q.generation && q.auth == p.auth && q.epochs == p.epochs && q.h.fetchSeq == p.h.fetchSeq
    ensures forall since :: Since(p, since) ==> Since(Synced(p), since)
  {
    OtherEntries(p.h, Sentinel);
    assert Next(p.h, Sentinel).entries == map[];
    hide Next;
  }

  lemma BegunDated(p: Plane, key: string, band: Band)
    requires Dated(p)
    ensures var r := p.(h := Next(p.h, Begin(key, band)), epochs := p.epochs[p.h.fetchSeq + 1 := p.auth]);
            Dated(r) && forall since :: Since(p, since) ==> Since(r, since)
  {
    BeginEffects(p.h, key, band);
    hide Next;
  }

  lemma WithdrawnDated(p: Plane)
    requires Dated(p)
    ensures Dated(Withdrawn(p)) && forall since :: Since(p, since) || since == p.auth ==> Since(Withdrawn(p), since)
  {
  }

  lemma DispatchedDated(p: Plane, key: string, band: Band, race: Race)
    requires Dated(p)
    ensures var t := Dispatched(p, key, band, race); Dated(t) && forall since :: Since(p, since) ==> Since(t, since)
  {
    hide Next, Dated, Since;
    SyncedDated(p);
    var q := if race == BeforeRead then Withdrawn(Synced(p)) else Synced(p);
    if race == BeforeRead { WithdrawnDated(Synced(p)); }
    BegunDated(q, key, band);
    var r := q.(h := Next(q.h, Begin(key, band)), epochs := q.epochs[q.h.fetchSeq + 1 := q.auth]);
    if race == AfterRead { WithdrawnDated(r); }
    SyncedDated(if race == AfterRead then Withdrawn(r) else r);
    hide Synced, Withdrawn;
  }

  lemma SettledDated(p: Plane, n: nat, a: Answer, refused: bool)
    requires Dated(p)
    ensures var t := Settled(p, n, a, refused); Dated(t) && forall since :: Since(p, since) ==> Since(t, since)
  {
    SyncedDated(p);
    var q := Synced(p);
    AnsweredEntries(q.h, n, a, Fences(refused, StaleEpoch(q, n)));
    hide Next, Synced;
  }

  lemma HappensDated(p: Plane, event: Event)
    requires Dated(p)
    ensures Dated(Happens(p, event)) && forall since :: Since(p, since) ==> Since(Happens(p, event), since)
  {
    hide Dispatched, Settled, Synced;
    match event
    case Withdraw => WithdrawnDated(p);
    case Latch =>
    case Sync => SyncedDated(p);
    case Dispatch(key, band, race) => DispatchedDated(p, key, band, race);
    case Settle(n, a, refused) => SettledDated(p, n, a, refused);
    case Other(step) =>
      if !step.Begin? && !step.Answered? && !step.Sentinel? { OtherEntries(p.h, step); }
      hide Next;
  }

  /** A fetch reads its epoch once. */
  lemma EpochsStay(p: Plane, event: Event)
    requires Dated(p)
    ensures forall n :: n in p.epochs ==> n in Happens(p, event).epochs && Happens(p, event).epochs[n] == p.epochs[n]
  {
    SyncedDated(p);
    hide Next;
  }

  lemma {:induction false} EpochsKept(p: Plane, events: seq<Event>)
    requires Dated(p)
    ensures forall n :: n in p.epochs ==> n in After(p, events).epochs && After(p, events).epochs[n] == p.epochs[n]
  {
    hide Happens, Dated;
    if events != [] {
      EpochsKept(p, events[..|events| - 1]);
      AfterDated(p, events[..|events| - 1], 0);
      EpochsStay(After(p, events[..|events| - 1]), events[|events| - 1]);
    }
  }

  lemma {:induction false} AfterDated(p: Plane, events: seq<Event>, since: nat)
    requires Dated(p)
    ensures Dated(After(p, events)) && (Since(p, since) ==> Since(After(p, events), since))
  {
    hide Happens, Dated, Since;
    if events != [] {
      AfterDated(p, events[..|events| - 1], since);
      HappensDated(After(p, events[..|events| - 1]), events[|events| - 1]);
    }
  }

  /**
   The platform's withdrawal, with a declaration of some fetch pending. When the handle notices, nothing
   of the player stays cached, recorded, declared or to be followed, and the declaring fetch's end changes
   nothing more. And whatever happens after the withdrawal, in whatever order answers arrive, no fetch that
   had read its credentials' epoch by then is the source of anything the handle caches once it has noticed.
   */
  lemma WipedDeclaration(p: Plane, before: seq<Event>, n: nat, key: string, after: seq<Event>)
    requires Fresh(p)
    requires var h := After(p, before).h; key in h.declaring && h.declaring[key].seqNo == n
    ensures var w := Happens(After(p, before), Withdraw);
            var q := Synced(w).h;
            && q.entries == map[] && q.owed == [] && q.lastApplied == map[] && q.declaring == map[]
            && Next(q, End(n)) == q.(fetches := q.fetches - {n})
    ensures var w := Happens(After(p, before), Withdraw);
            var e := Synced(After(w, after)).h;
            forall k :: k in e.entries ==> e.entries[k].origin !in w.epochs
  {
    assert Dated(p);
    AfterDated(p, before, 0);
    var m := After(p, before);
    HappensDated(m, Withdraw);
    WipedAtOnce(m, n);
    hide After, Next, Happens;
    var w := Withdrawn(m);
    WithdrawnDated(m);
    AfterDated(w, after, m.auth);
    EpochsKept(w, after);
    SyncedDated(After(w, after));
    assert Happens(m, Withdraw) == w by { WithdrawIs(m); }
    hide Synced;
  }

  lemma WithdrawIs(m: Plane)
    ensures Happens(m, Withdraw) == Withdrawn(m)
  {
  }

  lemma WipedAtOnce(m: Plane, n: nat)
    requires Dated(m)
    ensures var q := Synced(Happens(m, Withdraw)).h;
            && q.entries == map[] && q.owed == [] && q.lastApplied == map[] && q.declaring == map[]
            && Next(q, End(n)) == q.(fetches := q.fetches - {n})
  {
  }
}
