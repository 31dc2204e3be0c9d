/**
 The event pipeline as a step machine: producers fill one bounded queue, the worker
 and any number of denial drains empty it side by side, the worker's held batch is
 partitioned by consent epoch, and a low-water mark tells which experiment facts have
 left queue and batch.
 */
module EventPipeline {
  import opened Basics

  /** `stamp` is the consent epoch at intake, `factSeq` the pipeline sequence of an experiment fact (0 otherwise). */
  datatype Event = Event(id: nat, stamp: nat, factSeq: nat, key: string, keyStamp: nat)

  /** How far the worker has come with a received event. */
  datatype Hand = Empty | Received(e: Event) | Settled(e: Event)

  datatype Worker = Worker(
    seen: nat,
    seenKey: nat,
    batch: seq<Event>,
    held: seq<Event>,
    hand: Hand,
    lastFactSeq: nat)

  /** One drain of the queue: what it has taken, and whether the last fact it took is on the mark yet. */
  datatype Drain = Drain(taken: seq<Event>, marking: Option<nat>)

  datatype State = State(
    capacity: nat,
    epoch: nat,
    keyGen: nat,
    withdrawn: map<string, nat>,
    queue: seq<Event>,
    drains: seq<Drain>,
    drainedFactSeq: nat,
    worker: Worker,
    factSeq: nat,
    low: nat,
    // accounting: the dropped counter, and where every admitted event went
    dropped: nat,
    admitted: seq<Event>,
    discarded: seq<Event>,
    delivered: seq<Event>)

  datatype Step =
    | Enqueue(id: nat, fact: bool, key: string)
    | Deny
    | Refuse(key: string)
    | StartDrain
    | DrainTake(d: nat)
    | DrainMark(d: nat)
    | DrainDone(d: nat)
    | Receive
    | SettleEpoch
    | Admit
    | FilterKeys
    | Separate(ids: set<nat>)
    | RejoinOne
    | DropBatch
    | DeliverBatch
    | PublishLow

  /** A refusal of this fact's experiment and subject came after it was built. */
  predicate Withdrawn(s: State, e: Event) {
    e.factSeq > 0 && e.key in s.withdrawn && e.keyStamp < s.withdrawn[e.key]
  }

  function Discard(s: State, es: seq<Event>): State {
    s.(dropped := s.dropped + |es|, discarded := s.discarded + es)
  }

  function Keep(s: State, es: seq<Event>): seq<Event> {
    if es == [] then []
    else if Withdrawn(s, es[0]) then Keep(s, es[1..]) else [es[0]] + Keep(s, es[1..])
  }

  function Strike(s: State, es: seq<Event>): seq<Event> {
    if es == [] then []
    else if Withdrawn(s, es[0]) then [es[0]] + Strike(s, es[1..]) else Strike(s, es[1..])
  }

  function Chosen(es: seq<Event>, ids: set<nat>, chosen: bool): seq<Event> {
    if es == [] then []
    else if (es[0].id in ids) == chosen then [es[0]] + Chosen(es[1..], ids, chosen) else Chosen(es[1..], ids, chosen)
  }

  /** dropKeyWithdrawnExperimentFacts: skipped while the refusal generation has not moved. */
  function FilterBatch(s: State): State {
    var w := s.worker;
    if s.keyGen == w.seenKey then s
    else Discard(s, Strike(s, w.batch)).(worker := w.(seenKey := s.keyGen, batch := Keep(s, w.batch)))
  }

  /** dropBatchOnConsentEpoch, its key filter first. */
  function SettleBatch(s: State): State {
    DropOutdated(FilterBatch(s))
  }

  function DropOutdated(s: State): State {
    var w := s.worker;
    if s.epoch == w.seen then s
    else Discard(s, w.batch).(worker := w.(seen := s.epoch, batch := []))
  }

  /** admitReceivedEvent, once the epoch is settled. */
  function AdmitEvent(s: State): State
    requires s.worker.hand.Settled?
  {
    var w, e := s.worker, s.worker.hand.e;
    var v := w.(hand := Empty, lastFactSeq := if e.factSeq > w.lastFactSeq then e.factSeq else w.lastFactSeq);
    if e.stamp < w.seen || Withdrawn(s, e) then Discard(s, [e]).(worker := v)
    else s.(worker := v.(batch := v.batch + [e]))
  }

  /** rejoinAgeHeld, for the oldest fact that waits. */
  function RejoinEvent(s: State): State
    requires s.worker.held != []
  {
    var w, e, rest := s.worker, s.worker.held[0], s.worker.held[1..];
    if e.stamp < s.epoch || Withdrawn(s, e) then Discard(s, [e]).(worker := w.(held := rest))
    else s.(worker := w.(held := rest, batch := w.batch + [e]))
  }

  function MinFact(es: seq<Event>, low: nat): nat {
    if es == [] then low
    else
      var rest := MinFact(es[..|es| - 1], low);
      var seqNo := es[|es| - 1].factSeq;
      if seqNo != 0 && seqNo < rest then seqNo else rest
  }

  /** publishExpPipelineLow. */
  function LowMark(s: State): nat {
    MinFact(s.worker.batch, Max(s.worker.lastFactSeq, s.drainedFactSeq) + 1)
  }

  function Next(s: State, step: Step): State {
    var w := s.worker;
    match step
    case Enqueue(id, fact, key) =>
      if exists i :: 0 <= i < |s.admitted| && s.admitted[i].id == id then s
      else if |s.queue| >= s.capacity then s.(factSeq := if fact then s.factSeq + 1 else s.factSeq)
      else
        var seqNo := if fact then s.factSeq + 1 else 0;
        var e := Event(id, s.epoch, seqNo, key, s.keyGen);
        s.(queue := s.queue + [e], admitted := s.admitted + [e], factSeq := if fact then seqNo else s.factSeq)
    case Deny => s.(epoch := s.epoch + 1)
    case Refuse(key) => s.(keyGen := s.keyGen + 1, withdrawn := s.withdrawn[key := s.keyGen + 1])
    case StartDrain => s.(drains := s.drains + [Drain([], None)])
    case DrainTake(d) =>
      if d >= |s.drains| || s.drains[d].marking.Some? || s.queue == [] then s
      else
        var e := s.queue[0];
        s.(queue := s.queue[1..],
           drains := s.drains[d := Drain(s.drains[d].taken + [e], if e.factSeq > 0 then Some(e.factSeq) else None)])
    case DrainMark(d) =>
      if d >= |s.drains| || s.drains[d].marking.None? then s
      else
        var seqNo := s.drains[d].marking.value;
        s.(drainedFactSeq := if seqNo > s.drainedFactSeq then seqNo else s.drainedFactSeq,
           drains := s.drains[d := s.drains[d].(marking := None)])
    case DrainDone(d) =>
      if d >= |s.drains| || s.drains[d].marking.Some? || s.queue != [] then s
      else Discard(s, s.drains[d].taken).(drains := s.drains[d := Drain([], None)])
    case Receive =>
      if w.hand != Empty || s.queue == [] then s
      else s.(queue := s.queue[1..], worker := w.(hand := Received(s.queue[0])))
    case SettleEpoch =>
      var t := SettleBatch(s);
      if w.hand.Received? then t.(worker := t.worker.(hand := Settled(w.hand.e))) else t
    case Admit => if w.hand.Settled? then AdmitEvent(s) else s
    case FilterKeys => if w.hand == Empty then FilterBatch(s) else s
    case Separate(ids) =>
      if w.hand != Empty then s
      else s.(worker := w.(batch := Chosen(w.batch, ids, false), held := w.held + Chosen(w.batch, ids, true)))
    case RejoinOne => if w.hand != Empty || w.held == [] then s else RejoinEvent(s)
    case DropBatch => if w.hand != Empty then s else Discard(s, w.batch).(worker := w.(batch := []))
    case DeliverBatch => if w.hand != Empty then s else s.(delivered := s.delivered + w.batch, worker := w.(batch := []))
    case PublishLow => if w.hand != Empty || w.held != [] then s else s.(low := LowMark(s))
  }

  function Run(s: State, steps: seq<Step>): State {
    if steps == [] then s else Next(Run(s, steps[..|steps| - 1]), steps[|steps| - 1])
  }

  /** A client just constructed. */
  predicate Fresh(s: State) {
    && s.queue == [] && s.drains == [] && s.admitted == [] && s.discarded == [] && s.delivered == [] && s.dropped == 0
    && s.epoch == 0 && s.keyGen == 0 && s.withdrawn == map[] && s.factSeq == 0 && s.drainedFactSeq == 0 && s.low == 0
    && s.worker == Worker(0, 0, [], [], Empty, 0)
  }

  // ---------------------------------------------------------------- epoch partition

  /** The worker never holds an event of another epoch than the one it has settled; nothing bears a stamp of the future. */
  ghost predicate Partitioned(s: State) {
    var w := s.worker;
    && w.seen <= s.epoch
    && (forall i :: 0 <= i < |s.queue| ==> s.queue[i].stamp <= s.epoch)
    && (forall i :: 0 <= i < |w.batch| ==> w.batch[i].stamp == w.seen)
    && (forall i :: 0 <= i < |w.held| ==> w.held[i].stamp <= w.seen)
    && (w.hand.Received? ==> w.hand.e.stamp <= s.epoch)
    && (w.hand.Settled? ==> w.hand.e.stamp <= w.seen)
  }

  lemma {:induction false} KeepIn(s: State, es: seq<Event>)
    ensures forall e :: e in Keep(s, es) ==> e in es && !Withdrawn(s, e)
  {
    hide Withdrawn;
    if es != [] { KeepIn(s, es[1..]); }
  }

  lemma {:induction false} KeepExactly(s: State, es: seq<Event>)
    ensures forall e :: e in Keep(s, es) <==> e in es && !Withdrawn(s, e)
    ensures forall e :: e in Strike(s, es) <==> e in es && Withdrawn(s, e)
    ensures multiset(Keep(s, es)) + multiset(Strike(s, es)) == multiset(es)
    ensures |Keep(s, es)| + |Strike(s, es)| == |es|
  {
    hide Withdrawn;
    if es != [] {
      assert es == [es[0]] + es[1..];
      KeepExactly(s, es[1..]);
    }
  }

  lemma {:induction false} KeepAll(s: State, es: seq<Event>)
    requires forall i :: 0 <= i < |es| ==> !Withdrawn(s, es[i])
    ensures Keep(s, es) == es
  {
    hide Withdrawn;
    if es != [] {
      assert es == [es[0]] + es[1..];
      KeepAll(s, es[1..]);
    }
  }

  lemma {:induction false} ChosenIn(es: seq<Event>, ids: set<nat>)
    ensures forall e, c :: e in Chosen(es, ids, c) ==> e in es
    ensures forall e, c :: e in es && (e.id in ids) == c ==> e in Chosen(es, ids, c)
    ensures forall e, c :: e in Chosen(es, ids, c) ==> (e.id in ids) == c
    ensures multiset(Chosen(es, ids, true)) + multiset(Chosen(es, ids, false)) == multiset(es)
    ensures |Chosen(es, ids, true)| + |Chosen(es, ids, false)| == |es|
  {
    if es != [] {
      ChosenIn(es[1..], ids);
      assert es == [es[0]] + es[1..];
    }
  }

  lemma AllOf(es: seq<Event>, from: seq<Event>, stamp: nat)
    requires forall e :: e in es ==> e in from
    requires forall i :: 0 <= i < |from| ==> from[i].stamp == stamp
    ensures forall i :: 0 <= i < |es| ==> es[i].stamp == stamp
  {
    forall i | 0 <= i < |es| ensures es[i].stamp == stamp { assert es[i] in es; }
  }

  lemma FilterPartitioned(s: State)
    requires Partitioned(s)
    ensures Partitioned(FilterBatch(s))
  {
    KeepIn(s, s.worker.batch);
    AllOf(Keep(s, s.worker.batch), s.worker.batch, s.worker.seen);
  }

  lemma PartitionedStep(s: State, step: Step)
    requires Partitioned(s)
    ensures Partitioned(Next(s, step))
  {
    hide Keep, Strike, Chosen;
    var w := s.worker;
    if step.SettleEpoch? { FilterPartitioned(s); hide FilterBatch; }
    else if step.FilterKeys? { FilterPartitioned(s); }
    else if step.Separate? {
      ChosenIn(w.batch, step.ids);
      AllOf(Chosen(w.batch, step.ids, false), w.batch, w.seen);
      AllOf(Chosen(w.batch, step.ids, true), w.batch, w.seen);
    }
  }

  // ---------------------------------------------------------------- the key filter may be skipped

  /** A batch member is withdrawn only by a refusal the worker has not looked at yet. */
  ghost predicate KeysSettled(s: State) {
    && s.worker.seenKey <= s.keyGen
    && (forall k :: k in s.withdrawn ==> s.withdrawn[k] <= s.keyGen)
    && (forall i :: 0 <= i < |s.worker.batch| && Withdrawn(s, s.worker.batch[i]) ==>
          s.withdrawn[s.worker.batch[i].key] > s.worker.seenKey)
  }

  lemma KeysSettledStep(s: State, step: Step)
    requires KeysSettled(s)
    ensures KeysSettled(Next(s, step))
  {
    hide Strike, Keep;
    if step.Separate? { ChosenIn(s.worker.batch, step.ids); SeparateSettles(s, step.ids); }
    else if step.FilterKeys? || step.SettleEpoch? { FilterSettles(s); hide FilterBatch; }
    else if step.Refuse? { RefuseSettles(s, step.key); }
    else if step.Admit? || step.RejoinOne? || step.Receive? { JoinSettles(s, step); }
    else { OtherSettles(s, step); }
  }

  lemma SeparateSettles(s: State, ids: set<nat>)
    requires KeysSettled(s) && forall e :: e in Chosen(s.worker.batch, ids, false) ==> e in s.worker.batch
    ensures KeysSettled(Next(s, Separate(ids)))
  {
    var es := Chosen(s.worker.batch, ids, false);
    forall i | 0 <= i < |es| && Withdrawn(s, es[i]) ensures s.withdrawn[es[i].key] > s.worker.seenKey { assert es[i] in es; }
  }

  lemma RefuseSettles(s: State, key: string)
    requires KeysSettled(s)
    ensures KeysSettled(Next(s, Refuse(key)))
  {
  }

  lemma JoinSettles(s: State, step: Step)
    requires KeysSettled(s) && (step.Admit? || step.RejoinOne? || step.Receive?)
    ensures KeysSettled(Next(s, step))
  {
  }

  lemma OtherSettles(s: State, step: Step)
    requires KeysSettled(s)
    requires !step.Separate? && !step.FilterKeys? && !step.SettleEpoch? && !step.Refuse? && !step.Admit? && !step.RejoinOne? && !step.Receive?
    ensures KeysSettled(Next(s, step))
  {
    hide LowMark;
    assert Next(s, step).withdrawn == s.withdrawn && Next(s, step).keyGen == s.keyGen;
    assert Next(s, step).worker.seenKey == s.worker.seenKey;
    assert Next(s, step).worker.batch == s.worker.batch || Next(s, step).worker.batch == [];
  }

  lemma FilterSettles(s: State)
    requires KeysSettled(s)
    ensures KeysSettled(FilterBatch(s))
  {
    hide Strike, Keep;
    KeepIn(s, s.worker.batch);
    var es := Keep(s, s.worker.batch);
    forall i | 0 <= i < |es| ensures !Withdrawn(s, es[i]) { assert es[i] in es; }
  }

  /** Skipping the filter while the generation stands still gives the batch that filtering would give. */
  lemma SkippingIsFiltering(s: State)
    requires KeysSettled(s)
    ensures FilterBatch(s).worker.batch == Keep(s, s.worker.batch)
  {
    if s.keyGen == s.worker.seenKey {
      KeepAll(s, s.worker.batch);
    }
  }

  // ---------------------------------------------------------------- conservation

  function Count(es: seq<Event>, e: Event): nat {
    multiset(es)[e]
  }

  function TakenCount(drains: seq<Drain>, e: Event): nat {
    if drains == [] then 0 else TakenCount(drains[..|drains| - 1], e) + Count(drains[|drains| - 1].taken, e)
  }

  function HandCount(h: Hand, e: Event): nat {
    if h != Empty && h.e == e then 1 else 0
  }

  /** How often `e` is under way: queued, being drained, received, batched or held. */
  function UnderWay(s: State, e: Event): nat {
    Count(s.queue, e) + TakenCount(s.drains, e) + HandCount(s.worker.hand, e) + Count(s.worker.batch, e) + Count(s.worker.held, e)
  }

  predicate Placed(s: State, e: Event) {
    Count(s.admitted, e) == UnderWay(s, e) + Count(s.discarded, e) + Count(s.delivered, e)
  }

  ghost predicate Conserved(s: State) {
    && (forall e :: Placed(s, e))
    && s.dropped == |s.discarded|
    && (forall i, j :: 0 <= i < j < |s.admitted| ==> s.admitted[i].id != s.admitted[j].id)
  }

  lemma CountConcat(a: seq<Event>, b: seq<Event>, e: Event)
    ensures Count(a + b, e) == Count(a, e) + Count(b, e)
  {
  }

  lemma CountOne(x: Event, e: Event)
    ensures Count([x], e) == if x == e then 1 else 0
    ensures Count([], e) == 0
  {
  }

  lemma CountHead(es: seq<Event>, e: Event)
    requires es != []
    ensures Count(es, e) == (if es[0] == e then 1 else 0) + Count(es[1..], e)
  {
    assert es == [es[0]] + es[1..];
    CountConcat([es[0]], es[1..], e);
    CountOne(es[0], e);
  }

  lemma {:induction false} TakenUpdate(drains: seq<Drain>, d: nat, x: Drain, e: Event)
    requires d < |drains|
    ensures TakenCount(drains[d := x], e) + Count(drains[d].taken, e) == TakenCount(drains, e) + Count(x.taken, e)
  {
    var front := drains[..|drains| - 1];
    if d == |drains| - 1 {
      assert drains[d := x][..|drains| - 1] == front;
    } else {
      assert drains[d := x][..|drains| - 1] == front[d := x];
      assert drains[d := x][|drains| - 1] == drains[|drains| - 1];
      TakenUpdate(front, d, x, e);
    }
  }

  lemma PlacedDrain(s: State, step: Step, e: Event)
    requires Placed(s, e) && (step.StartDrain? || step.DrainTake? || step.DrainMark? || step.DrainDone?)
    ensures Placed(Next(s, step), e)
  {
    hide Count;
    var t := Next(s, step);
    CountOne(e, e);
    if t == s { return; }
    if step.StartDrain? { assert t.drains[..|s.drains|] == s.drains; }
    else {
      TakenUpdate(s.drains, step.d, t.drains[step.d], e);
      if step.DrainTake? {
        CountHead(s.queue, e);
        CountConcat(s.drains[step.d].taken, [s.queue[0]], e);
        CountOne(s.queue[0], e);
      }
      if step.DrainDone? { CountConcat(s.discarded, s.drains[step.d].taken, e); }
    }
  }

  lemma PlacedFilter(s: State, e: Event)
    requires Placed(s, e)
    ensures Placed(FilterBatch(s), e) && FilterBatch(s).worker.hand == s.worker.hand
  {
    KeepCount(s, s.worker.batch, e);
    hide Count, Keep, Strike, TakenCount;
    CountConcat(s.discarded, Strike(s, s.worker.batch), e);
  }

  lemma {:induction false} KeepCount(s: State, es: seq<Event>, e: Event)
    ensures Count(Keep(s, es), e) + Count(Strike(s, es), e) == Count(es, e)
  {
    if es != [] {
      KeepCount(s, es[1..], e);
      hide Withdrawn, Count;
      CountHead(es, e);
      CountConcat([es[0]], Keep(s, es[1..]), e);
      CountConcat([es[0]], Strike(s, es[1..]), e);
      CountOne(es[0], e);
    }
  }

  lemma ChosenCount(es: seq<Event>, ids: set<nat>, e: Event)
    ensures Count(Chosen(es, ids, true), e) + Count(Chosen(es, ids, false), e) == Count(es, e)
  {
    ChosenIn(es, ids);
    assert (multiset(Chosen(es, ids, true)) + multiset(Chosen(es, ids, false)))[e] == multiset(es)[e];
  }

  lemma PlacedSettle(s: State, e: Event)
    requires Placed(s, e)
    ensures Placed(Next(s, SettleEpoch), e)
  {
    PlacedFilter(s, e);
    PlacedOutdated(FilterBatch(s), e);
    hide Count, TakenCount, SettleBatch;
    assert SettleBatch(s) == DropOutdated(FilterBatch(s)) by { OutdatedFilter(s); }
    hide FilterBatch, DropOutdated;
  }

  /** With nothing received, settling the epoch is settling the batch. */
  lemma SettleIdle(s: State)
    requires !s.worker.hand.Received?
    ensures Next(s, SettleEpoch) == SettleBatch(s)
  {
    hide SettleBatch;
  }

  lemma OutdatedFilter(s: State)
    ensures SettleBatch(s) == DropOutdated(FilterBatch(s))
  {
  }

  lemma PlacedOutdated(s: State, e: Event)
    requires Placed(s, e)
    ensures Placed(DropOutdated(s), e) && DropOutdated(s).worker.hand == s.worker.hand
  {
    hide Count, TakenCount;
    CountConcat(s.discarded, s.worker.batch, e);
    CountOne(e, e);
  }

  lemma PlacedJoin(s: State, step: Step, e: Event)
    requires Placed(s, e) && (step.Receive? || step.Admit? || step.RejoinOne?)
    ensures Placed(Next(s, step), e)
  {
    hide Count, TakenCount, Withdrawn;
    var w := s.worker;
    if step.Receive? && s.queue != [] { CountHead(s.queue, e); }
    if w.hand != Empty {
      CountOne(w.hand.e, e);
      CountConcat(s.discarded, [w.hand.e], e);
      CountConcat(w.batch, [w.hand.e], e);
    }
    if w.held != [] {
      CountHead(w.held, e);
      CountOne(w.held[0], e);
      CountConcat(s.discarded, [w.held[0]], e);
      CountConcat(w.batch, [w.held[0]], e);
    }
  }

  lemma PlacedBatch(s: State, step: Step, e: Event)
    requires Placed(s, e) && (step.Separate? || step.DropBatch? || step.DeliverBatch?)
    ensures Placed(Next(s, step), e)
  {
    hide Count, TakenCount, Chosen;
    var w := s.worker;
    CountOne(e, e);
    CountConcat(s.discarded, w.batch, e);
    CountConcat(s.delivered, w.batch, e);
    if step.Separate? {
      ChosenCount(w.batch, step.ids, e);
      CountConcat(w.held, Chosen(w.batch, step.ids, true), e);
    }
  }

  lemma PlacedOther(s: State, step: Step, e: Event)
    requires Placed(s, e) && (step.Enqueue? || step.Deny? || step.Refuse? || step.PublishLow?)
    ensures Placed(Next(s, step), e)
  {
    hide Count, TakenCount, LowMark;
    if step.Enqueue? {
      var x := Event(step.id, s.epoch, if step.fact then s.factSeq + 1 else 0, step.key, s.keyGen);
      CountConcat(s.queue, [x], e);
      CountConcat(s.admitted, [x], e);
    }
  }

  lemma PlacedStep(s: State, step: Step, e: Event)
    requires Placed(s, e)
    ensures Placed(Next(s, step), e)
  {
    hide Placed, Next;
    if step.StartDrain? || step.DrainTake? || step.DrainMark? || step.DrainDone? { PlacedDrain(s, step, e); }
    else if step.FilterKeys? { PlacedFilter(s, e); FilterStep(s); }
    else if step.SettleEpoch? { PlacedSettle(s, e); }
    else if step.Receive? || step.Admit? || step.RejoinOne? { PlacedJoin(s, step, e); }
    else if step.Enqueue? || step.Deny? || step.Refuse? || step.PublishLow? { PlacedOther(s, step, e); }
    else { PlacedBatch(s, step, e); }
  }

  lemma FilterStep(s: State)
    ensures Next(s, FilterKeys) == if s.worker.hand == Empty then FilterBatch(s) else s
  {
  }

  /** The counter counts each discarded event once; ids stay distinct. */
  lemma CountedStep(s: State, step: Step)
    requires s.dropped == |s.discarded|
    requires forall i, j :: 0 <= i < j < |s.admitted| ==> s.admitted[i].id != s.admitted[j].id
    ensures var t := Next(s, step);
            && t.dropped == |t.discarded|
            && (forall i, j :: 0 <= i < j < |t.admitted| ==> t.admitted[i].id != t.admitted[j].id)
  {
    if step.Enqueue? { hide LowMark; }
    else {
      DiscardCounts(s, step);
      hide Next;
    }
  }

  lemma DiscardCounts(s: State, step: Step)
    requires !step.Enqueue?
    ensures Next(s, step).admitted == s.admitted
    ensures s.dropped == |s.discarded| ==> Next(s, step).dropped == |Next(s, step).discarded|
  {
    FilterCounts(s);
    hide FilterBatch, Chosen, LowMark, Withdrawn;
  }

  lemma FilterCounts(s: State)
    ensures FilterBatch(s).admitted == s.admitted
    ensures s.dropped == |s.discarded| ==> FilterBatch(s).dropped == |FilterBatch(s).discarded|
  {
    hide Keep, Strike;
  }

  lemma ConservedStep(s: State, step: Step)
    requires Conserved(s)
    ensures Conserved(Next(s, step))
  {
    hide Placed, Next;
    forall e ensures Placed(Next(s, step), e) { PlacedStep(s, step, e); }
    CountedStep(s, step);
  }

  // ---------------------------------------------------------------- the low-water mark

  /** Queued facts stand in sequence order, above everything taken off the queue. */
  ghost predicate Sequenced(s: State) {
    var w := s.worker;
    && (forall i, j :: 0 <= i < j < |s.queue| && s.queue[i].factSeq > 0 && s.queue[j].factSeq > 0 ==> s.queue[i].factSeq < s.queue[j].factSeq)
    && (forall i :: 0 <= i < |s.queue| && s.queue[i].factSeq > 0 ==>
          && s.queue[i].factSeq <= s.factSeq
          && s.queue[i].factSeq > w.lastFactSeq && s.queue[i].factSeq > s.drainedFactSeq
          && (w.hand != Empty ==> s.queue[i].factSeq > w.hand.e.factSeq)
          && forall d :: 0 <= d < |s.drains| && s.drains[d].marking.Some? ==> s.queue[i].factSeq > s.drains[d].marking.value)
    && w.lastFactSeq <= s.factSeq && s.drainedFactSeq <= s.factSeq
    && (w.hand != Empty ==> w.hand.e.factSeq <= s.factSeq)
    && (forall d :: 0 <= d < |s.drains| && s.drains[d].marking.Some? ==> s.drains[d].marking.value <= s.factSeq)
  }

  predicate AtLeast(es: seq<Event>, low: nat) {
    forall i :: 0 <= i < |es| && es[i].factSeq > 0 ==> es[i].factSeq >= low
  }

  /** Every fact below the mark has left queue and batch, for good. */
  ghost predicate LowHolds(s: State) {
    var w := s.worker;
    && AtLeast(s.queue, s.low) && AtLeast(w.batch, s.low) && AtLeast(w.held, s.low)
    && (w.hand != Empty && w.hand.e.factSeq > 0 ==> w.hand.e.factSeq >= s.low)
    && s.low <= s.factSeq + 1
    && s.low <= Max(w.lastFactSeq, s.drainedFactSeq) + 1
  }

  lemma {:induction false} MinFactIs(es: seq<Event>, low: nat)
    ensures MinFact(es, low) <= low && AtLeast(es, MinFact(es, low))
  {
    if es != [] {
      MinFactIs(es[..|es| - 1], low);
      assert es == es[..|es| - 1] + [es[|es| - 1]];
    }
  }

  lemma {:induction false} MinFactGreatest(es: seq<Event>, low: nat, bound: nat)
    requires bound <= low && AtLeast(es, bound)
    ensures bound <= MinFact(es, low)
  {
    if es != [] {
      var front := es[..|es| - 1];
      assert AtLeast(front, bound) by { AtLeastIn(front, es, bound); }
      MinFactGreatest(front, low, bound);
    }
  }

  lemma SequencedEnqueue(s: State, step: Step)
    requires Sequenced(s) && step.Enqueue?
    ensures Sequenced(Next(s, step))
  {
    hide Withdrawn, LowMark;
    var t := Next(s, step);
    assert t.drains == s.drains && t.worker == s.worker && t.drainedFactSeq == s.drainedFactSeq && t.factSeq >= s.factSeq;
    assert t.queue == s.queue || (t.queue == s.queue + [t.queue[|s.queue|]] && t.factSeq >= t.queue[|s.queue|].factSeq);
  }

  lemma SequencedWorker(s: State, step: Step)
    requires Sequenced(s) && (step.Receive? || step.Admit? || step.PublishLow?)
    ensures Sequenced(Next(s, step))
  {
    hide Withdrawn, LowMark;
    var t := Next(s, step);
    assert t.drains == s.drains && t.drainedFactSeq == s.drainedFactSeq && t.factSeq == s.factSeq;
    assert t.queue == s.queue || (s.queue != [] && t.queue == s.queue[1..]);
  }

  lemma SequencedDrain(s: State, step: Step)
    requires Sequenced(s) && (step.StartDrain? || step.DrainTake? || step.DrainMark? || step.DrainDone?)
    ensures Sequenced(Next(s, step))
  {
    hide Withdrawn, LowMark, FilterBatch, SettleBatch, Chosen;
    if step.DrainTake? {
      var t := Next(s, step);
      assert t.queue == s.queue || (s.queue != [] && t.queue == s.queue[1..]);
    }
  }

  /** The other steps leave the queue and every sequence alone. */
  lemma SequencedOther(s: State, step: Step)
    requires Sequenced(s)
    requires !step.Enqueue? && !step.Receive? && !step.Admit? && !step.PublishLow?
    requires !step.StartDrain? && !step.DrainTake? && !step.DrainMark? && !step.DrainDone?
    ensures Sequenced(Next(s, step))
  {
    QueueStays(s, step);
    hide Next;
  }

  lemma QueueStays(s: State, step: Step)
    requires !step.Enqueue? && !step.Receive? && !step.Admit? && !step.PublishLow?
    requires !step.StartDrain? && !step.DrainTake? && !step.DrainMark? && !step.DrainDone?
    ensures var t := Next(s, step);
            && t.queue == s.queue && t.drains == s.drains && t.factSeq == s.factSeq && t.drainedFactSeq == s.drainedFactSeq
            && t.worker.lastFactSeq == s.worker.lastFactSeq
            && (t.worker.hand == s.worker.hand || (s.worker.hand.Received? && t.worker.hand == Settled(s.worker.hand.e)))
  {
    hide Withdrawn, Chosen, LowMark;
    FilterStays(s);
    hide FilterBatch;
  }

  lemma FilterStays(s: State)
    ensures var t := FilterBatch(s);
            && t.queue == s.queue && t.drains == s.drains && t.factSeq == s.factSeq && t.drainedFactSeq == s.drainedFactSeq
            && t.worker.lastFactSeq == s.worker.lastFactSeq && t.worker.hand == s.worker.hand
  {
    hide Keep, Strike;
  }

  lemma SequencedStep(s: State, step: Step)
    requires Sequenced(s)
    ensures Sequenced(Next(s, step))
  {
    hide Sequenced, Next;
    if step.Enqueue? { SequencedEnqueue(s, step); }
    else if step.Receive? || step.Admit? || step.PublishLow? { SequencedWorker(s, step); }
    else if step.StartDrain? || step.DrainTake? || step.DrainMark? || step.DrainDone? { SequencedDrain(s, step); }
    else { SequencedOther(s, step); }
  }

  lemma AtLeastIn(es: seq<Event>, from: seq<Event>, low: nat)
    requires AtLeast(from, low) && forall e :: e in es ==> e in from
    ensures AtLeast(es, low)
  {
    forall i | 0 <= i < |es| && es[i].factSeq > 0 ensures es[i].factSeq >= low { assert es[i] in es; }
  }

  lemma LowPublish(s: State)
    requires LowHolds(s)
    requires Sequenced(s)
    ensures LowHolds(Next(s, PublishLow)) && Next(s, PublishLow).low >= s.low
  {
    var w := s.worker;
    var top := Max(w.lastFactSeq, s.drainedFactSeq) + 1;
    MinFactIs(w.batch, top);
    MinFactGreatest(w.batch, top, s.low);
    hide MinFact;
  }

  lemma LowSeparate(s: State, ids: set<nat>)
    requires LowHolds(s)
    ensures LowHolds(Next(s, Separate(ids))) && Next(s, Separate(ids)).low == s.low
  {
    var w := s.worker;
    ChosenIn(w.batch, ids);
    AtLeastIn(Chosen(w.batch, ids, false), w.batch, s.low);
    AtLeastIn(Chosen(w.batch, ids, true), w.batch, s.low);
    hide Chosen;
  }

  lemma LowFilter(s: State)
    requires LowHolds(s)
    ensures LowHolds(FilterBatch(s)) && FilterBatch(s).low == s.low && FilterBatch(s).worker.hand == s.worker.hand
  {
    KeepIn(s, s.worker.batch);
    AtLeastIn(Keep(s, s.worker.batch), s.worker.batch, s.low);
    hide Keep, Strike;
  }

  lemma LowSettle(s: State)
    requires LowHolds(s)
    ensures LowHolds(Next(s, SettleEpoch)) && Next(s, SettleEpoch).low == s.low
  {
    LowFilter(s);
    hide FilterBatch;
  }

  lemma LowOther(s: State, step: Step)
    requires Sequenced(s) && LowHolds(s) && !step.PublishLow? && !step.FilterKeys? && !step.SettleEpoch? && !step.Separate?
    ensures LowHolds(Next(s, step)) && Next(s, step).low == s.low
  {
    hide Withdrawn;
  }

  lemma LowStep(s: State, step: Step)
    requires Sequenced(s) && LowHolds(s)
    ensures LowHolds(Next(s, step)) && Next(s, step).low >= s.low
  {
    hide Sequenced, LowHolds, Next;
    if step.PublishLow? { LowPublish(s); }
    else if step.FilterKeys? { LowFilter(s); FilterStep(s); }
    else if step.SettleEpoch? { LowSettle(s); }
    else if step.Separate? { LowSeparate(s, step.ids); }
    else { LowOther(s, step); }
  }

  // ---------------------------------------------------------------- over whole runs

  ghost predicate Sane(s: State) {
    Partitioned(s) && KeysSettled(s) && Conserved(s) && Sequenced(s) && LowHolds(s)
  }

  lemma FreshSane(s: State)
    requires Fresh(s)
    ensures Sane(s)
  {
  }

  lemma SaneStep(s: State, step: Step)
    requires Sane(s)
    ensures Sane(Next(s, step)) && Next(s, step).low >= s.low
  {
    hide Partitioned, KeysSettled, Conserved, Sequenced, LowHolds, Next;
    PartitionedStep(s, step);
    KeysSettledStep(s, step);
    ConservedStep(s, step);
    SequencedStep(s, step);
    LowStep(s, step);
  }

  lemma {:induction false} SaneRun(s: State, steps: seq<Step>)
    requires Sane(s)
    ensures Sane(Run(s, steps)) && Run(s, steps).low >= s.low
  {
    hide Sane, Next;
    if steps != [] {
      SaneRun(s, steps[..|steps| - 1]);
      SaneStep(Run(s, steps[..|steps| - 1]), steps[|steps| - 1]);
    }
  }

  /**
   Epoch partition and conservation. However the denials' drains race the worker for the queue: at
   every step the held batch carries exactly the epoch the worker has settled, every admitted event
   is in exactly one place, and the counter equals the number of discarded events.
   */
  lemma PartitionAndConservation(s: State, steps: seq<Step>, e: Event)
    requires Fresh(s)
    ensures var r := Run(s, steps);
            && (forall i :: 0 <= i < |r.worker.batch| ==> r.worker.batch[i].stamp == r.worker.seen)
            && r.dropped == |r.discarded|
            && (e in r.admitted ==> UnderWay(r, e) + Count(r.discarded, e) + Count(r.delivered, e) == 1)
            && (e !in r.admitted ==> UnderWay(r, e) + Count(r.discarded, e) + Count(r.delivered, e) == 0)
  {
    FreshSane(s);
    SaneRun(s, steps);
    var r := Run(s, steps);
    hide Run, UnderWay;
    assert Placed(r, e);
    DistinctCount(r.admitted, e);
  }

  lemma {:induction false} DistinctCount(es: seq<Event>, e: Event)
    requires forall i, j :: 0 <= i < j < |es| ==> es[i].id != es[j].id
    ensures Count(es, e) == if e in es then 1 else 0
  {
    if es != [] {
      CountHead(es, e);
      var tail := es[1..];
      forall i, j | 0 <= i < j < |tail| ensures tail[i].id != tail[j].id { assert tail[i] == es[i + 1] && tail[j] == es[j + 1]; }
      DistinctCount(tail, e);
      assert es[0] !in tail by { forall i | 0 <= i < |tail| ensures tail[i] != es[0] { assert tail[i] == es[i + 1]; } }
      assert es == [es[0]] + tail;
    }
  }

  /**
   The low-water mark. It never decreases, and at every step no experiment fact below it is in the
   queue, in the worker's hands or in its batch.
   */
  lemma LowWaterMark(s: State, steps: seq<Step>, more: seq<Step>)
    requires Fresh(s)
    ensures var r := Run(s, steps);
            && Run(r, more).low >= r.low
            && AtLeast(r.queue, r.low) && AtLeast(r.worker.batch, r.low) && AtLeast(r.worker.held, r.low)
            && FilterBatch(r).worker.batch == Keep(r, r.worker.batch)
  {
    FreshSane(s);
    SaneRun(s, steps);
    SaneRun(Run(s, steps), more);
    var r := Run(s, steps);
    hide Run, FilterBatch, Keep;
    SkippingIsFiltering(r);
  }

  // ---------------------------------------------------------------- why an event is discarded

  /** A denial or a refusal of the event's experiment and subject came after its intake. */
  ghost predicate Condemned(s: State, e: Event) {
    e.stamp < s.epoch || Withdrawn(s, e)
  }

  /** Step `i` of the run discards the whole batch, or ends the drain that took `e`. */
  ghost predicate Taken(s: State, steps: seq<Step>, i: nat, e: Event)
    requires i < |steps|
  {
    var at := Run(s, steps[..i]);
    match steps[i]
    case DropBatch => e in at.worker.batch
    case DrainDone(d) => d < |at.drains| && e in at.drains[d].taken
    case _ => false
  }

  lemma CondemnedStays(s: State, step: Step)
    requires KeysSettled(s)
    ensures forall e :: Condemned(s, e) ==> Condemned(Next(s, step), e)
  {
    var t := Next(s, step);
    PeriodMoves(s, step);
    forall e | Condemned(s, e) ensures Condemned(t, e) {
      if Withdrawn(s, e) { assert s.withdrawn[e.key] <= s.keyGen; }
    }
    hide Next;
  }

  lemma PeriodMoves(s: State, step: Step)
    ensures var t := Next(s, step);
            && t.epoch >= s.epoch
            && t.withdrawn == if step.Refuse? then s.withdrawn[step.key := s.keyGen + 1] else s.withdrawn
  {
    FilterMoves(s);
    hide Chosen, LowMark, Withdrawn, FilterBatch;
  }

  lemma FilterMoves(s: State)
    ensures var t := FilterBatch(s);
            t.epoch == s.epoch && t.withdrawn == s.withdrawn && t.keyGen == s.keyGen && t.worker.seen == s.worker.seen
  {
    hide Keep, Strike;
  }

  lemma FilterDiscards(s: State)
    ensures var t := FilterBatch(s);
            && (forall e :: e in t.discarded ==> e in s.discarded || Withdrawn(s, e))
            && (forall e :: e in t.worker.batch ==> e in s.worker.batch)
  {
    KeepExactly(s, s.worker.batch);
    hide Keep, Strike, Withdrawn;
  }

  /** What one step newly discards is condemned, unless a drain or the batch's own end takes it. */
  lemma DiscardedStep(s: State, step: Step, e: Event)
    requires Partitioned(s) && e in Next(s, step).discarded && e !in s.discarded
    ensures
      || Condemned(Next(s, step), e)
      || (step.DropBatch? && e in s.worker.batch)
      || (step.DrainDone? && step.d < |s.drains| && e in s.drains[step.d].taken)
  {
    if step.SettleEpoch? || step.FilterKeys? { SettledDiscards(s, step, e); }
    else { hide Chosen, LowMark, Withdrawn; }
  }

  lemma SettledDiscards(s: State, step: Step, e: Event)
    requires Partitioned(s) && (step.SettleEpoch? || step.FilterKeys?)
    requires e in Next(s, step).discarded && e !in s.discarded
    ensures Condemned(Next(s, step), e)
  {
    FilterDiscards(s);
    FilterMoves(s);
    PeriodMoves(s, step);
    hide FilterBatch;
    var t := FilterBatch(s);
    if e !in t.discarded {
      assert s.epoch != s.worker.seen && e in t.worker.batch;
      var i :| 0 <= i < |s.worker.batch| && s.worker.batch[i] == e;
      assert e.stamp == s.worker.seen;
    }
  }

  /**
   Nothing is discarded without a reason. In every run an event among the discarded was taken by a
   denial's drain or with the whole batch, or a denial or a refusal came after its intake.
   */
  lemma {:induction false} DiscardedForCause(s: State, steps: seq<Step>, e: Event)
    requires Fresh(s) && e in Run(s, steps).discarded
    ensures Condemned(Run(s, steps), e) || exists i :: 0 <= i < |steps| && Taken(s, steps, i, e)
  {
    if steps != [] {
      var front, step := steps[..|steps| - 1], steps[|steps| - 1];
      var r := Run(s, front);
      FreshSane(s);
      SaneRun(s, front);
      CondemnedStays(r, step);
      hide Sane, Run, Next, Condemned;
      if e in r.discarded {
        DiscardedForCause(s, front, e);
        if !Condemned(r, e) {
          var i :| 0 <= i < |front| && Taken(s, front, i, e);
          assert steps[..i] == front[..i];
          assert Taken(s, steps, i, e);
        }
      } else {
        DiscardedStep(r, step, e);
        if !Condemned(Next(r, step), e) { assert Taken(s, steps, |front|, e); }
      }
    }
  }
}
