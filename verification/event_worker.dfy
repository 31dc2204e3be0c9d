/**
 The queue, its drains and the worker in place: each loop of the original, and the
 steps of the pipeline it amounts to when nothing interleaves.
 */
module EventWorker {
  import opened Basics
  import opened EventPipeline

  lemma RunNothing(s: State)
    ensures Run(s, []) == s
  {
  }

  lemma AdmitIs(s: State)
    ensures s.worker.hand.Settled? ==> Next(s, Admit) == AdmitEvent(s)
    ensures s.worker.hand == Empty && s.worker.held != [] ==> Next(s, RejoinOne) == RejoinEvent(s)
  {
    hide AdmitEvent, RejoinEvent;
  }

  lemma SeparateIs(s: State, ids: set<nat>)
    requires s.worker.hand == Empty
    ensures Next(s, Separate(ids)) ==
            s.(worker := s.worker.(batch := Chosen(s.worker.batch, ids, false),
                                   held := s.worker.held + Chosen(s.worker.batch, ids, true)))
  {
    hide Chosen;
  }

  /** Adds one step to a run that has led this far. */
  lemma Then(s: State, steps: seq<Step>, step: Step) returns (longer: seq<Step>)
    ensures longer == steps + [step] && Run(s, longer) == Next(Run(s, steps), step)
  {
    hide Next;
    longer := steps + [step];
    assert longer[..|steps|] == steps;
  }

  /** Nothing of `before` is lost between `kept` and the newly counted, which are listed once each. */
  ghost predicate Parted(before: seq<Event>, kept: seq<Event>, was: seq<Event>, discarded: seq<Event>) {
    && was <= discarded
    && multiset(kept) + multiset(discarded[|was|..]) == multiset(before)
  }

  /** One more event, kept at the end or counted at the end. */
  lemma PartedThen(before: seq<Event>, kept: seq<Event>, was: seq<Event>, discarded: seq<Event>, e: Event, joins: bool)
    requires Parted(before, kept, was, discarded)
    ensures Parted(before + [e], kept + (if joins then [e] else []), was, discarded + (if joins then [] else [e]))
  {
    if joins { assert discarded + [] == discarded; }
    else {
      assert (discarded + [e])[|was|..] == discarded[|was|..] + [e];
      assert kept + [] == kept;
    }
  }

  /** The greatest sequence number among `low` and those of the events. */
  predicate HighestOf(low: nat, es: seq<Event>, high: nat) {
    && low <= high
    && (forall i :: 0 <= i < |es| ==> es[i].factSeq <= high)
    && (high == low || exists i :: 0 <= i < |es| && es[i].factSeq == high)
  }

  lemma TailKept(after: seq<Event>, tail: seq<Event>)
    requires |tail| <= |after| && after[|after| - |tail|..] == tail
    ensures forall e :: e in tail ==> e in after
    ensures after[..|after| - |tail|] <= after
  {
  }

  class Pipeline {
    const capacity: nat
    var epoch: nat
    var keyGen: nat
    var withdrawn: map<string, nat>
    var queue: seq<Event>
    var drainedFactSeq: nat
    var expFactSeq: nat
    var low: nat
    var dropped: nat
    // the worker's own
    var seenEpoch: nat
    var seenKey: nat
    var batch: seq<Event>
    var held: seq<Event>
    var lastFactSeq: nat
    // where the sections stand, and the accounting of where every event went
    ghost var hand: Hand
    ghost var drains: seq<Drain>
    ghost var admitted: seq<Event>
    ghost var discarded: seq<Event>
    ghost var delivered: seq<Event>

    constructor (capacity: nat)
      ensures Value().capacity == capacity && Fresh(Value())
    {
      this.capacity := capacity;
      epoch, keyGen, withdrawn, queue, drainedFactSeq, expFactSeq, low, dropped := 0, 0, map[], [], 0, 0, 0, 0;
      seenEpoch, seenKey, batch, held, lastFactSeq := 0, 0, [], [], 0;
      hand, drains, admitted, discarded, delivered := Empty, [], [], [], [];
    }

    ghost function Value(): State
      reads this
    {
      State(capacity, epoch, keyGen, withdrawn, queue, drains, drainedFactSeq,
            Worker(seenEpoch, seenKey, batch, held, hand, lastFactSeq),
            expFactSeq, low, dropped, admitted, discarded, delivered)
    }

    predicate IsWithdrawn(e: Event)
      reads this`withdrawn
    {
      e.factSeq > 0 && e.key in withdrawn && e.keyStamp < withdrawn[e.key]
    }

    /** boundedQueue.enqueue under the intake lock: a full queue refuses, and a refused fact burns its sequence number. */
    method Enqueue(id: nat, fact: bool, key: string) returns (accepted: bool)
      requires forall i :: 0 <= i < |admitted| ==> admitted[i].id != id
      modifies this`queue, this`expFactSeq, this`admitted
      ensures accepted == (|old(queue)| < capacity) && Value() == Next(old(Value()), EventPipeline.Enqueue(id, fact, key))
      ensures expFactSeq == old(expFactSeq) + (if fact then 1 else 0)
      ensures queue == old(queue) + (if accepted then [Event(id, epoch, if fact then expFactSeq else 0, key, keyGen)] else [])
      ensures accepted ==> queue[|queue| - 1] in admitted
    {
      var seqNo := 0;
      if fact {
        expFactSeq := expFactSeq + 1;
        seqNo := expFactSeq;
      }
      if |queue| >= capacity { return false; }
      var e := Event(id, epoch, seqNo, key, keyGen);
      queue := queue + [e];
      admitted := admitted + [e];
      return true;
    }

    /** dropKeyWithdrawnExperimentFacts: the survivors keep their order. */
    method DropKeyWithdrawn()
      modifies this`seenKey, this`batch, this`dropped, this`discarded
      ensures Value() == FilterBatch(old(Value()))
      ensures seenKey == keyGen
      ensures forall e :: e in batch <==> e in old(batch) && (old(seenKey) == keyGen || !IsWithdrawn(e))
      ensures old(seenKey) == keyGen ==> batch == old(batch)
      ensures Parted(old(batch), batch, old(discarded), discarded) && dropped == old(dropped) + |old(batch)| - |batch|
    {
      if keyGen == seenKey {
        assert discarded[|discarded|..] == [];
        return;
      }
      hide Keep, Strike, Withdrawn, IsWithdrawn;
      ghost var s := Value();
      var kept, gone, removed := Sift(s);
      KeepExactly(s, batch);
      WithdrawnHere(s);
      seenKey := keyGen;
      batch := kept;
      dropped := dropped + removed;
      discarded := discarded + gone;
      assert discarded[|old(discarded)|..] == gone;
    }

    lemma WithdrawnHere(s: State)
      requires s.withdrawn == withdrawn
      ensures forall e :: IsWithdrawn(e) == Withdrawn(s, e)
    {
    }

    /** The survivors of the batch, in order, and the withdrawn. */
    method Sift(ghost s: State) returns (kept: seq<Event>, ghost gone: seq<Event>, removed: nat)
      requires s == Value()
      ensures kept == Keep(s, batch) && gone == Strike(s, batch) && removed == |gone|
    {
      WithdrawnHere(s);
      hide Withdrawn, IsWithdrawn, Value;
      kept, gone, removed := [], [], 0;
      for i := 0 to |batch|
        invariant Keep(s, batch) == kept + Keep(s, batch[i..])
        invariant Strike(s, batch) == gone + Strike(s, batch[i..])
        invariant removed == |gone|
      {
        assert batch[i..][1..] == batch[i + 1..];
        if IsWithdrawn(batch[i]) {
          removed := removed + 1;
          gone := gone + [batch[i]];
        } else {
          kept := kept + [batch[i]];
        }
      }
      assert batch[|batch|..] == [];
    }

    /** The received event belongs to the epoch of this moment, and nothing has refused it. */
    predicate Joins(e: Event)
      reads this`epoch, this`withdrawn
    {
      e.stamp >= epoch && !IsWithdrawn(e)
    }

    /** admitReceivedEvent: the epoch settles first, then the event joins it or is dropped, counted once. */
    method AdmitReceived(e: Event)
      requires hand == Received(e)
      modifies this`seenEpoch, this`seenKey, this`batch, this`dropped, this`discarded, this`lastFactSeq, this`hand
      ensures Value() == Next(Next(old(Value()), SettleEpoch), Admit)
      ensures hand == Empty && seenEpoch == epoch && seenKey == keyGen
      ensures lastFactSeq == Max(old(lastFactSeq), e.factSeq)
      ensures var joined := if Joins(e) then [e] else [];
              && |joined| <= |batch| && batch[|batch| - |joined|..] == joined
              && Resettled(old(seenEpoch) == epoch, old(seenKey) == keyGen, old(batch), batch[..|batch| - |joined|])
              && dropped == old(dropped) + |old(batch)| + 1 - |batch|
      ensures !Joins(e) ==> discarded != [] && discarded[|discarded| - 1] == e
      ensures Parted(old(batch) + [e], batch, old(discarded), discarded)
    {
      hide Next, Value, IsWithdrawn, Resettled, Parted;
      SettleReceived(e);
      ghost var settled, counted := batch, discarded;
      AdmitSettled(e);
      assert batch[..|settled|] == settled;
      PartedThen(old(batch), settled, old(discarded), counted, e, Joins(e));
    }

    /** What settling leaves of a held batch: nothing across an epoch, else whatever no refusal has met. */
    predicate Resettled(sameEpoch: bool, sameKeys: bool, before: seq<Event>, after: seq<Event>)
      reads this`withdrawn
    {
      && (!sameEpoch ==> after == [])
      && (sameEpoch && sameKeys ==> after == before)
      && (sameEpoch ==> (forall e :: e in after ==> e in before && (sameKeys || !IsWithdrawn(e)))
                        && (forall e :: e in before && (sameKeys || !IsWithdrawn(e)) ==> e in after))
    }

    /** dropBatchOnConsentEpoch. */
    method DropBatchOnConsentEpoch()
      modifies this`seenEpoch, this`seenKey, this`batch, this`dropped, this`discarded
      ensures Value() == SettleBatch(old(Value()))
      ensures seenEpoch == epoch && seenKey == keyGen
      ensures Resettled(old(seenEpoch) == epoch, old(seenKey) == keyGen, old(batch), batch)
      ensures Parted(old(batch), batch, old(discarded), discarded) && dropped == old(dropped) + |old(batch)| - |batch|
    {
      hide FilterBatch;
      DropKeyWithdrawn();
      ghost var filtered, gone := batch, discarded[|old(discarded)|..];
      if epoch != seenEpoch {
        seenEpoch := epoch;
        dropped := dropped + |batch|;
        discarded := discarded + batch;
        batch := [];
        assert discarded[|old(discarded)|..] == gone + filtered;
      }
    }

    method SettleReceived(e: Event)
      requires hand == Received(e)
      modifies this`seenEpoch, this`seenKey, this`batch, this`dropped, this`discarded, this`hand
      ensures Value() == Next(old(Value()), SettleEpoch) && hand == Settled(e)
      ensures seenEpoch == epoch && seenKey == keyGen
      ensures Resettled(old(seenEpoch) == epoch, old(seenKey) == keyGen, old(batch), batch)
      ensures Parted(old(batch), batch, old(discarded), discarded) && dropped == old(dropped) + |old(batch)| - |batch|
    {
      hide SettleBatch;
      DropBatchOnConsentEpoch();
      hand := Settled(e);
    }

    method AdmitSettled(e: Event)
      requires hand == Settled(e)
      modifies this`batch, this`dropped, this`discarded, this`lastFactSeq, this`hand
      ensures Value() == Next(old(Value()), Admit) && hand == Empty
      ensures lastFactSeq == Max(old(lastFactSeq), e.factSeq)
      ensures var joins := e.stamp >= seenEpoch && !IsWithdrawn(e);
              && batch == old(batch) + (if joins then [e] else [])
              && discarded == old(discarded) + (if joins then [] else [e])
              && dropped == old(dropped) + (if joins then 0 else 1)
    {
      hide Next;
      AdmitIs(Value());
      if e.factSeq > lastFactSeq { lastFactSeq := e.factSeq; }
      hand := Empty;
      if e.stamp < seenEpoch || IsWithdrawn(e) {
        dropped := dropped + 1;
        discarded := discarded + [e];
      } else {
        batch := batch + [e];
      }
    }

    /** drainQueueAdmitted: receive and admit one by one until the batch is full or the queue empty. */
    method DrainQueueAdmitted(batchSize: nat) returns (ghost steps: seq<Step>)
      requires hand == Empty
      modifies this`seenEpoch, this`seenKey, this`batch, this`dropped, this`discarded, this`lastFactSeq, this`hand, this`queue
      ensures Value() == Run(old(Value()), steps)
      ensures |batch| >= batchSize || queue == []
      ensures hand == Empty && seenEpoch == epoch && seenKey == keyGen
      ensures |queue| <= |old(queue)| && queue == old(queue)[|old(queue)| - |queue|..]
      ensures forall e :: e in old(queue)[..|old(queue)| - |queue|] && Joins(e) ==> e in batch
      ensures dropped == old(dropped) + |old(batch)| + |old(queue)| - |queue| - |batch|
    {
      hide Next, Run, SettleBatch, Joins, Resettled, Parted;
      ghost var s := Value();
      SettleIdle(s);
      hide Value;
      DropBatchOnConsentEpoch();
      steps := Then(s, [], SettleEpoch);
      RunNothing(s);
      steps := DrainSettled(batchSize, s, steps);
    }

    /** The receiving loop, on a batch of this moment's epoch; `before` is the run so far from `s`. */
    method DrainSettled(batchSize: nat, ghost s: State, ghost before: seq<Step>) returns (ghost steps: seq<Step>)
      requires hand == Empty && seenEpoch == epoch && seenKey == keyGen && Value() == Run(s, before)
      modifies this`seenEpoch, this`seenKey, this`batch, this`dropped, this`discarded, this`lastFactSeq, this`hand, this`queue
      ensures Value() == Run(s, steps) && hand == Empty && seenEpoch == epoch && seenKey == keyGen
      ensures |batch| >= batchSize || queue == []
      ensures |queue| <= |old(queue)| && queue == old(queue)[|old(queue)| - |queue|..]
      ensures forall e :: e in old(queue)[..|old(queue)| - |queue|] && Joins(e) ==> e in batch
      ensures dropped == old(dropped) + |old(batch)| + |old(queue)| - |queue| - |batch|
    {
      hide Next, Run, Joins, Value;
      ghost var taken: seq<Event> := [];
      steps := before;
      while |batch| < batchSize && queue != []
        invariant Value() == Run(s, steps) && hand == Empty
        invariant seenEpoch == epoch && seenKey == keyGen
        invariant old(queue) == taken + queue
        invariant forall e :: e in taken && Joins(e) ==> e in batch
        invariant dropped + |queue| + |batch| == old(dropped) + |old(batch)| + |old(queue)|
        decreases |queue|
      {
        ghost var e := queue[0];
        assert [e] + queue[1..] == queue;
        steps := ReceiveOne(s, steps);
        taken := taken + [e];
      }
      assert old(queue)[..|taken|] == taken;
    }

    /** One event of the queue, received and admitted; `before` is the run so far from `s`. */
    method ReceiveOne(ghost s: State, ghost before: seq<Step>) returns (ghost steps: seq<Step>)
      requires hand == Empty && queue != [] && Value() == Run(s, before)
      modifies this`seenEpoch, this`seenKey, this`batch, this`dropped, this`discarded, this`lastFactSeq, this`hand, this`queue
      ensures Value() == Run(s, steps) && hand == Empty && queue == old(queue[1..])
      ensures seenEpoch == epoch && seenKey == keyGen
      ensures Joins(old(queue[0])) ==> old(queue[0]) in batch
      ensures old(seenEpoch) == epoch && old(seenKey) == keyGen ==> forall x :: x in old(batch) ==> x in batch
      ensures dropped == old(dropped) + |old(batch)| + 1 - |batch|
    {
      hide Next, Run, Joins, Parted, Resettled, Value;
      var e := Take();
      steps := Then(s, before, Step.Receive);
      AdmitReceived(e);
      steps := Then(s, steps, SettleEpoch);
      steps := Then(s, steps, Admit);
      ghost var joined := if Joins(e) then [e] else [];
      TailKept(batch, joined);
      if old(seenEpoch) == epoch && old(seenKey) == keyGen { ResettledSame(old(batch), batch[..|batch| - |joined|]); }
    }

    lemma ResettledSame(before: seq<Event>, after: seq<Event>)
      requires Resettled(true, true, before, after)
      ensures after == before
    {
    }

    method Take() returns (e: Event)
      requires hand == Empty && queue != []
      modifies this`queue, this`hand
      ensures Value() == Next(old(Value()), Step.Receive)
      ensures hand == Received(e) && e == old(queue[0]) && queue == old(queue[1..])
    {
      e := queue[0];
      queue := queue[1..];
      hand := Received(e);
    }

    /** separateAgeHeld: the facts of an undecided age wait aside, in order. */
    method SeparateAgeHeld(ids: set<nat>)
      requires hand == Empty
      modifies this`batch, this`held
      ensures Value() == Next(old(Value()), Separate(ids))
      ensures forall e :: e in batch <==> e in old(batch) && e.id !in ids
      ensures |batch| + |held| == |old(batch)| + |old(held)| && old(held) <= held
      ensures forall e :: e in held[|old(held)|..] <==> e in old(batch) && e.id in ids
    {
      hide Next;
      SeparateIs(Value(), ids);
      var ready: seq<Event> := [];
      var aside: seq<Event> := [];
      for i := 0 to |batch|
        invariant Value() == old(Value())
        invariant Chosen(batch, ids, false) == ready + Chosen(batch[i..], ids, false)
        invariant Chosen(batch, ids, true) == aside + Chosen(batch[i..], ids, true)
      {
        assert batch[i..][1..] == batch[i + 1..];
        if batch[i].id in ids { aside := aside + [batch[i]]; } else { ready := ready + [batch[i]]; }
      }
      assert batch[|batch|..] == [];
      ChosenIn(batch, ids);
      batch := ready;
      held := held + aside;
      assert held[|old(held)|..] == aside;
    }

    /** rejoinAgeHeld: each waiting fact is judged against the epoch and the refusals of that moment. */
    method RejoinAgeHeld() returns (ghost steps: seq<Step>)
      requires hand == Empty
      modifies this`batch, this`held, this`dropped, this`discarded
      ensures Value() == Run(old(Value()), steps)
      ensures held == [] && old(batch) <= batch
      ensures forall e :: e in batch[|old(batch)|..] <==> e in old(held) && Joins(e)
      ensures dropped == old(dropped) + |old(held)| + |old(batch)| - |batch|
    {
      hide Next, Run, Joins;
      ghost var s := Value();
      ghost var joined: seq<Event> := [];
      steps := [];
      RunNothing(s);
      while held != []
        invariant Value() == Run(s, steps) && hand == Empty && batch == old(batch) + joined
        invariant |held| <= |old(held)| && held == old(held)[|old(held)| - |held|..]
        invariant forall e :: e in joined <==> e in old(held)[..|old(held)| - |held|] && Joins(e)
        invariant dropped + |held| + |batch| == old(dropped) + |old(held)| + |old(batch)|
        decreases |held|
      {
        ghost var n := |old(held)| - |held|;
        assert old(held)[..n + 1] == old(held)[..n] + [held[0]];
        if Joins(held[0]) { joined := joined + [held[0]]; }
        RejoinHead();
        steps := Then(s, steps, RejoinOne);
      }
      assert batch[|old(batch)|..] == joined;
    }

    method RejoinHead()
      requires hand == Empty && held != []
      modifies this`batch, this`held, this`dropped, this`discarded
      ensures Value() == Next(old(Value()), RejoinOne) && held == old(held[1..])
      ensures batch == old(batch) + (if Joins(old(held[0])) then [old(held[0])] else [])
      ensures dropped == old(dropped) + (if Joins(old(held[0])) then 0 else 1)
    {
      hide Next;
      AdmitIs(Value());
      var e := held[0];
      held := held[1..];
      if e.stamp < epoch || IsWithdrawn(e) {
        dropped := dropped + 1;
        discarded := discarded + [e];
      } else {
        batch := batch + [e];
      }
    }

    /** drainAllVisit on behalf of a denial: every event taken is counted by this drain, once, at its end. */
    method DrainAll(ghost d: nat) returns (count: nat, ghost steps: seq<Step>)
      requires d < |drains| && drains[d] == Drain([], None)
      modifies this`queue, this`drainedFactSeq, this`drains, this`dropped, this`discarded
      ensures Value() == Run(old(Value()), steps)
      ensures queue == [] && count == |old(queue)| && dropped == old(dropped) + count
      ensures discarded == old(discarded) + old(queue)
      ensures HighestOf(old(drainedFactSeq), old(queue), drainedFactSeq)
    {
      hide Next, Run;
      ghost var s := Value();
      count, steps := 0, [];
      RunNothing(s);
      while queue != []
        invariant Value() == Run(s, steps)
        invariant d < |drains| && count <= |old(queue)| && dropped == old(dropped)
        invariant drains[d] == Drain(old(queue)[..count], None)
        invariant queue == old(queue)[count..] && discarded == old(discarded)
        invariant HighestOf(old(drainedFactSeq), old(queue)[..count], drainedFactSeq)
        decreases |queue|
      {
        assert old(queue)[..count + 1] == old(queue)[..count] + [queue[0]];
        ghost var marks := TakeOne(d);
        RunConcat(s, steps, marks);
        steps := steps + marks;
        count := count + 1;
      }
      assert old(queue)[..count] == old(queue);
      FinishDrain(d, count);
      steps := Then(s, steps, DrainDone(d));
    }

    method TakeOne(ghost d: nat) returns (ghost steps: seq<Step>)
      requires queue != [] && d < |drains| && drains[d].marking.None?
      modifies this`queue, this`drainedFactSeq, this`drains
      ensures Value() == Run(old(Value()), steps)
      ensures queue == old(queue[1..]) && |drains| == |old(drains)|
      ensures drains[d] == Drain(old(drains[d]).taken + [old(queue[0])], None)
      ensures drainedFactSeq == Max(old(drainedFactSeq), old(queue[0]).factSeq)
    {
      hide Next, Run;
      ghost var s := Value();
      var e := PopFor(d);
      steps := Then(s, [], DrainTake(d));
      RunNothing(s);
      if e.factSeq > 0 {
        RaiseMark(d, e.factSeq);
        steps := Then(s, steps, DrainMark(d));
      }
    }

    method PopFor(ghost d: nat) returns (e: Event)
      requires queue != [] && d < |drains| && drains[d].marking.None?
      modifies this`queue, this`drains
      ensures Value() == Next(old(Value()), DrainTake(d))
      ensures e == old(queue[0]) && queue == old(queue[1..]) && |drains| == |old(drains)|
      ensures drains[d] == Drain(old(drains[d]).taken + [e], if e.factSeq > 0 then Some(e.factSeq) else None)
    {
      e := queue[0];
      queue := queue[1..];
      drains := drains[d := Drain(drains[d].taken + [e], if e.factSeq > 0 then Some(e.factSeq) else None)];
    }

    method RaiseMark(ghost d: nat, seqNo: nat)
      requires d < |drains| && drains[d].marking == Some(seqNo)
      modifies this`drainedFactSeq, this`drains
      ensures Value() == Next(old(Value()), DrainMark(d))
      ensures |drains| == |old(drains)| && drains[d] == old(drains[d]).(marking := None)
      ensures drainedFactSeq == Max(old(drainedFactSeq), seqNo)
    {
      if seqNo > drainedFactSeq { drainedFactSeq := seqNo; }
      drains := drains[d := drains[d].(marking := None)];
    }

    method FinishDrain(ghost d: nat, count: nat)
      requires queue == [] && d < |drains| && drains[d].marking.None? && count == |drains[d].taken|
      modifies this`drains, this`dropped, this`discarded
      ensures Value() == Next(old(Value()), DrainDone(d))
      ensures queue == [] && dropped == old(dropped) + count && discarded == old(discarded) + old(drains[d]).taken
    {
      dropped := dropped + count;
      discarded := discarded + drains[d].taken;
      drains := drains[d := Drain([], None)];
    }

    /** publishExpPipelineLow. */
    method PublishExpPipelineLow()
      requires hand == Empty && held == []
      modifies this`low
      ensures Value() == Next(old(Value()), PublishLow)
      ensures AtLeast(batch, low) && low <= Max(lastFactSeq, drainedFactSeq) + 1
      ensures low == Max(lastFactSeq, drainedFactSeq) + 1 || exists i :: 0 <= i < |batch| && batch[i].factSeq == low
    {
      var mark := Max(lastFactSeq, drainedFactSeq) + 1;
      var top := mark;
      for i := 0 to |batch|
        invariant mark == MinFact(batch[..i], top) && Value() == old(Value())
        invariant mark <= top && forall k :: 0 <= k < i && batch[k].factSeq > 0 ==> batch[k].factSeq >= mark
        invariant mark == top || exists k :: 0 <= k < i && batch[k].factSeq == mark
      {
        assert batch[..i + 1][..i] == batch[..i];
        if batch[i].factSeq != 0 && batch[i].factSeq < mark { mark := batch[i].factSeq; }
      }
      assert batch[..|batch|] == batch;
      low := mark;
    }
  }

  lemma {:induction false} RunConcat(s: State, a: seq<Step>, b: seq<Step>)
    ensures Run(s, a + b) == Run(Run(s, a), b)
  {
    hide Next;
    if b == [] { assert a + b == a; }
    else {
      RunConcat(s, a, b[..|b| - 1]);
      assert (a + b)[..|a + b| - 1] == a + b[..|b| - 1];
    }
  }
}
