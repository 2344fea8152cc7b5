/** The life of a single item of the work queue: when it is recovered, what it carries, when it is next. */
module QueueItems {
  import opened Options
  import opened Durations
  import opened RedisQueue
  import opened QueueRuns
  import opened QueueTheorems

  // ---- recovery, from the time of the dequeue ----

  predicate HeldSince(w: World, id: string, t: int) {
    At(w.place, id, Working) && StampKey(id) in w.s.processing && w.s.processing[StampKey(id)] == Stamp(t)
  }

  lemma {:induction false} RemovalLeavesOthers(w: World, id: string, other: string)
    requires Inv(w) && At(w.place, id, Working) && other != id
    requires other in w.place || !Clashes(other, w.origin.Keys)
    ensures SameField(w.s, Removed(w.s, other), StampKey(id))
  {
    hide Inv; hide OnBudget;
    PlaceHasFields(w, id);
    InPlace(w, id);
    if other in w.place {
      PlacesApart(w, id, other);
    } else if StampKey(id) == StampKey(other) {
      StampKeyInjective(id, other);
    }
  }

  lemma {:induction false} QueuedIsPlaced(w: World, r: Record)
    requires Inv(w) && r in w.s.queue
    ensures At(w.place, r.id, Queued(r))
  {
    hide ProcessingOk; hide DlqOk; hide PlacesOk; hide OwnersOk; hide OnBudget;
  }

  lemma {:induction false} PopLeavesOthers(s: State, r: Record, now: int, field: string)
    requires field in s.processing && field != r.id && field != StampKey(r.id)
    ensures SameField(s, Popped(s, r, now), field)
  {
    hide StampKey;
  }

  lemma {:induction false} TakeLeavesOthers(w: World, r: Record, now: int, id: string)
    requires Inv(w) && At(w.place, id, Working) && r in w.s.queue && r.id != id
    ensures SameField(w.s, Taken(w, r, now).s, StampKey(id)) && At(Taken(w, r, now).place, id, Working)
  {
    hide Inv; hide OnBudget; hide StampKey; hide Popped; hide SameField;
    QueuedIsPlaced(w, r);
    PlaceHasFields(w, id);
    PlacesApart(w, id, r.id);
    PopLeavesOthers(w.s, r, now, StampKey(id));
  }

  /** The last turn of a recovery: its item is still in hand, and goes where a retry sends it. */
  lemma {:induction false} LastTurn(w: World, maxSize: int, order: seq<string>, now: int)
    requires Inv(w) && Visits(w.s.processing, order) && order != []
    ensures var n, h := |order| - 1, w.s.processing;
      var k, prior := order[n], order[..n];
      var before, after := RetriedAll(w, maxSize, h, prior, now), RetriedAll(w, maxSize, h, order, now);
      && Visits(h, prior) && k !in prior && order == prior + [k]
      && before.s == RecoverSteps(w.s, maxSize, h, prior, now)
      && k in before.place
      && after.place == before.place[k := AfterRetry(Full(before.s, maxSize), h[k].item, now)]
  {
    hide Inv; hide StampKey; hide RetryStep;
    var n, h := |order| - 1, w.s.processing;
    var k, prior := order[n], order[..n];
    assert forall a :: a in prior ==> a in order;
    RecoverIsRetries(w, maxSize, prior, now);
    var before := RetriedAll(w, maxSize, h, prior, now);
    PayloadIsWorking(w, k);
    assert k !in prior;
    assert Untouched(w, before, k);
    PayloadIsWorking(before, k);
    RetryMovesOne(before, maxSize, h[k].item, now);
    hide Retried;
  }

  /** What a recovery takes is in processing no longer, wherever it went. */
  lemma {:induction false} RecoveredAreReleased(w: World, maxSize: int, order: seq<string>, now: int)
    requires Inv(w) && Visits(w.s.processing, order)
    ensures var w' := RetriedAll(w, maxSize, w.s.processing, order, now);
      forall k :: k in order ==> !At(w'.place, k, Working)
    decreases |order|
  {
    if order != [] {
      LastTurn(w, maxSize, order, now);
      hide Inv; hide Visits; hide RetriedAll; hide Full; hide Exhausted; hide RecoverSteps;
      RecoveredAreReleased(w, maxSize, order[..|order| - 1], now);
    }
  }

  /** Those of the visited items that are still with the queue, waiting or dead. */
  function Kept(w: World, order: seq<string>): set<string> {
    set k | k in order && k in w.place && w.place[k] != Gone(Dropped)
  }

  /** What a recovery reports is the number of items it kept: one that a full queue refused is lost and
      not counted. */
  lemma {:induction false} RecoveredCountIsKept(w: World, maxSize: int, order: seq<string>, now: int)
    requires Inv(w) && Visits(w.s.processing, order)
    ensures RecoveredCount(w.s, maxSize, w.s.processing, order, now) ==
            |Kept(RetriedAll(w, maxSize, w.s.processing, order, now), order)|
    decreases |order|
  {
    if order == [] {
      assert Kept(w, []) == {};
    } else {
      var n, h := |order| - 1, w.s.processing;
      var k, prior := order[n], order[..n];
      LastTurn(w, maxSize, order, now);
      hide Inv; hide Visits; hide RetriedAll; hide RetryStep; hide Full; hide AfterRetry; hide Kept;
      RecoveredCountIsKept(w, maxSize, prior, now);
      var before := RetriedAll(w, maxSize, h, prior, now);
      hide RecoverSteps;
      RetryOutcome(before.s, maxSize, h[k].item, now);
      KeptOneMore(before, RetriedAll(w, maxSize, h, order, now), prior, k,
                  AfterRetry(Full(before.s, maxSize), h[k].item, now));
    }
  }

  lemma {:induction false} RetryOutcome(s: State, maxSize: int, r: Record, now: int)
    ensures RetryStep(s, maxSize, r, now).outcome.Ok? <==> AfterRetry(Full(s, maxSize), r, now) != Gone(Dropped)
  {
    hide StampKey;
  }

  lemma {:induction false} KeptOneMore(w: World, w': World, prior: seq<string>, k: string, p: Place)
    requires k !in prior && k in w.place && w'.place == w.place[k := p]
    ensures |Kept(w', prior + [k])| == |Kept(w, prior)| + if p == Gone(Dropped) then 0 else 1
  {
    assert Kept(w', prior + [k]) == Kept(w, prior) + if p == Gone(Dropped) then {} else {k};
  }

  /** An item that is in processing after a step that did not take it was there before, with the same
      timestamp. */
  lemma {:induction false} StepKeepsStamp(w: World, maxSize: int, op: Op, id: string)
    requires Inv(w) && Enabled(w, op) && At(Apply(w, maxSize, op).place, id, Working)
    requires op.Take? ==> op.item.id != id
    ensures At(w.place, id, Working) && SameField(w.s, Apply(w, maxSize, op).s, StampKey(id))
  {
    hide Inv; hide StampKey; hide RetryStep; hide OnBudget;
    match op
    case Produce(r, now) => ProduceKeepsStamp(w, maxSize, r, now, id);
    case Take(r, now) => TakeLeavesOthers(w, r, now, id);
    case Finish(k) => FinishKeepsStamp(w, k, id);
    case Again(r, now) =>
      RetryMovesOne(w, maxSize, r, now);
      assert Untouched(w, Retried(w, maxSize, r, now), id);
    case Bury(r, reason, now) =>
      PayloadIsWorking(w, r.id);
      RemovalLeavesOthers(w, id, r.id);
    case Recover(order, _, now) =>
      RecoveredAreReleased(w, maxSize, order, now);
      RecoverIsRetries(w, maxSize, order, now);
      WasWorking(w, Apply(w, maxSize, op), id);
    case Clear => PlaceHasFields(w, id);
  }

  lemma {:induction false} WasWorking(w: World, w': World, id: string)
    requires Inv(w) && Inv(w') && w'.origin == w.origin && At(w'.place, id, Working)
    requires forall k :: k in w.place && At(w'.place, k, Working) ==> At(w'.place, k, w.place[k])
    ensures At(w.place, id, Working)
  {
    SamePlaces(w, w');
  }

  lemma {:induction false} ProduceKeepsStamp(w: World, maxSize: int, r: Record, now: int, id: string)
    requires Inv(w) && Enabled(w, Produce(r, now)) && At(Produced(w, maxSize, r, now).place, id, Working)
    ensures At(w.place, id, Working) && SameField(w.s, Produced(w, maxSize, r, now).s, StampKey(id))
  {
    hide Inv; hide StampKey;
    PlaceHasFields(w, id);
    hide OnBudget;
  }

  lemma {:induction false} FinishKeepsStamp(w: World, k: string, id: string)
    requires Inv(w) && Enabled(w, Finish(k)) && At(Finished(w, k).place, id, Working)
    ensures At(w.place, id, Working) && SameField(w.s, Finished(w, k).s, StampKey(id))
  {
    hide Inv; hide StampKey;
    HeldIsWorking(w, k);
    RemovalLeavesOthers(w, id, k);
  }

  lemma {:induction false} RunKeepsStamp(w: World, maxSize: int, ops: seq<Op>, id: string, t: int)
    requires Inv(w) && Runs(w, maxSize, ops) && (At(w.place, id, Working) ==> HeldSince(w, id, t))
    requires forall op :: op in ops && op.Take? ==> op.item.id != id
    ensures At(Final(w, maxSize, ops).place, id, Working) ==> HeldSince(Final(w, maxSize, ops), id, t)
    decreases |ops|
  {
    hide Inv; hide StampKey;
    if ops != [] {
      var w' := Apply(w, maxSize, ops[0]);
      assert ops[0] in ops;
      StepKeepsInv(w, maxSize, ops[0]);
      if At(w'.place, id, Working) { StepKeepsStamp(w, maxSize, ops[0], id); }
      hide Enabled; hide Apply;
      RunKeepsStamp(w', maxSize, ops[1..], id, t);
    }
  }

  /** The item is dequeued at t, these steps follow, none of them dequeues it again, and it is still in
      processing. */
  ghost predicate HeldThrough(w: World, maxSize: int, r: Record, t: int, ops: seq<Op>) {
    && Enabled(w, Take(r, t)) && Runs(Apply(w, maxSize, Take(r, t)), maxSize, ops)
    && (forall op :: op in ops && op.Take? ==> op.item.id != r.id)
    && At(Final(Apply(w, maxSize, Take(r, t)), maxSize, ops).place, r.id, Working)
  }

  function HashAfter(w: World, maxSize: int, r: Record, t: int, ops: seq<Op>): map<string, HashValue> {
    Final(Apply(w, maxSize, Take(r, t)), maxSize, ops).s.processing
  }

  /** An item dequeued at t, and in processing ever since whatever else happened, is taken by a recovery
      exactly when that comes more than the timeout's whole seconds later, unless its ID looks like a
      timestamp field. */
  lemma {:induction false} RecoveredExactlyWhenDequeuedLongAgo(
      w: World, maxSize: int, r: Record, t: int, ops: seq<Op>, order: seq<string>, timeout: int, now: int)
    requires Inv(w)
    ensures HeldThrough(w, maxSize, r, t, ops) && VisitsStale(HashAfter(w, maxSize, r, t, ops), order, timeout, now) ==>
              (r.id in order <==> now - t > WholeSeconds(timeout) && !IsStampKey(r.id))
  {
    hide Inv; hide Stale; hide VisitsStale; hide StampKey; hide IsStampKey;
    if HeldThrough(w, maxSize, r, t, ops) && VisitsStale(HashAfter(w, maxSize, r, t, ops), order, timeout, now) {
      var taken := Apply(w, maxSize, Take(r, t));
      StepKeepsInv(w, maxSize, Take(r, t));
      TakenIsHeld(w, maxSize, r, t);
      RunKeepsStamp(taken, maxSize, ops, r.id, t);
      RunKeepsInv(taken, maxSize, ops);
      HeldIsRecovered(Final(taken, maxSize, ops), r.id, t, order, timeout, now);
    }
  }

  /** A dequeue starts such a stretch, with its own time as the timestamp. */
  lemma {:induction false} TakenIsHeld(w: World, maxSize: int, r: Record, t: int)
    requires Enabled(w, Take(r, t))
    ensures HeldThrough(w, maxSize, r, t, []) && HeldSince(Apply(w, maxSize, Take(r, t)), r.id, t)
  {
    hide StampKey; hide IsHead;
  }

  lemma {:induction false} HeldIsRecovered(
      w: World, id: string, t: int, order: seq<string>, timeout: int, now: int)
    requires Inv(w) && HeldSince(w, id, t) && VisitsStale(w.s.processing, order, timeout, now)
    ensures id in order <==> now - t > WholeSeconds(timeout) && !IsStampKey(id)
  {
    hide Inv; hide StampKey; hide IsStampKey; hide WholeSeconds;
    PlaceHasFields(w, id);
  }

  /** The keys a recovery skips are exactly the timestamp fields of IDs that are not empty. */
  lemma {:induction false} SkippedAreTimestampFields(key: string)
    ensures IsStampKey(key) <==> exists id :: id != "" && key == id + ":timestamp"
  {
    if IsStampKey(key) {
      assert key == key[..|key| - 10] + ":timestamp";
    }
  }

  // ---- what an item carries ----

  /** The record has the data and the creation time the producer's call gave it. */
  predicate MadeBy(r: Record, op: Op) {
    && op.Produce? && r.id == op.item.id && r.data == op.item.data
    && r.createdAt == Some(if op.item.createdAt.Some? then op.item.createdAt.value else op.now)
  }

  ghost predicate Made(r: Record, made: seq<Op>) { exists op :: op in made && MadeBy(r, op) }

  ghost predicate AllMade(s: State, made: seq<Op>) {
    && (forall r :: r in s.queue ==> Made(r, made))
    && (forall k :: k in s.processing && s.processing[k].Payload? ==> Made(s.processing[k].item, made))
    && (forall e :: e in s.dlq ==> Made(e.item, made))
  }

  predicate SameContent(q: Record, r: Record) { q.id == r.id && q.data == r.data && q.createdAt == r.createdAt }

  /** Workers hand back the item as they got it. */
  predicate Unedited(s: State, op: Op) {
    && (op.Again? && Holds(s, op.item.id) ==> SameContent(op.item, s.processing[op.item.id].item))
    && (op.Bury? && Holds(s, op.item.id) ==> SameContent(op.item, s.processing[op.item.id].item))
  }

  predicate UneditedRun(w: World, maxSize: int, ops: seq<Op>)
    decreases |ops|
  {
    ops == [] || (Unedited(w.s, ops[0]) && UneditedRun(Apply(w, maxSize, ops[0]), maxSize, ops[1..]))
  }

  lemma {:induction false} ContentIsMade(q: Record, r: Record, made: seq<Op>)
    requires Made(r, made) && SameContent(q, r)
    ensures Made(q, made)
  {
    var op :| op in made && MadeBy(r, op);
    assert MadeBy(q, op);
  }

  lemma {:induction false} RetryKeepsContent(w: World, maxSize: int, r: Record, now: int, made: seq<Op>)
    requires AllMade(w.s, made) && Made(r, made)
    ensures AllMade(Retried(w, maxSize, r, now).s, made)
  {
    RetryAdds(w, maxSize, r, now);
    RetriedContent(r, now, made);
    hide Made; hide Retried; hide StampKey; hide Bumped; hide Requeued; hide Exhausted; hide Full;
  }

  lemma {:induction false} RetriedContent(r: Record, now: int, made: seq<Op>)
    requires Made(r, made)
    ensures Made(Bumped(r, now), made) && Made(Requeued(r, now), made)
  {
    ContentIsMade(Bumped(r, now), r, made);
    ContentIsMade(Requeued(r, now), r, made);
  }

  lemma {:induction false} RecoverKeepsContent(
      w: World, maxSize: int, h: map<string, HashValue>, order: seq<string>, now: int, made: seq<Op>)
    requires AllMade(w.s, made)
    requires forall k :: k in h && h[k].Payload? ==> Made(h[k].item, made)
    ensures AllMade(RetriedAll(w, maxSize, h, order, now).s, made)
    decreases |order|
  {
    hide AllMade; hide Made; hide Retried;
    if order != [] {
      var n := |order| - 1;
      RecoverKeepsContent(w, maxSize, h, order[..n], now, made);
      if order[n] in h && h[order[n]].Payload? {
        RetryKeepsContent(RetriedAll(w, maxSize, h, order[..n], now), maxSize, h[order[n]].item, now, made);
      }
    }
  }

  lemma {:induction false} MoreMade(s: State, made: seq<Op>, op: Op)
    requires AllMade(s, made)
    ensures AllMade(s, made + [op])
  {
    forall r | Made(r, made) ensures Made(r, made + [op]) {
      var o :| o in made && MadeBy(r, o);
      assert o in made + [op];
    }
    hide Made;
  }

  lemma {:induction false} ProduceKeepsContent(w: World, maxSize: int, r: Record, now: int, made: seq<Op>)
    requires AllMade(w.s, made)
    ensures AllMade(Produced(w, maxSize, r, now).s, made + [Produce(r, now)])
  {
    MoreMade(w.s, made, Produce(r, now));
    if !Full(w.s, maxSize) {
      assert MadeBy(Stamped(r, now), Produce(r, now)) && Produce(r, now) in made + [Produce(r, now)];
      ProducedStores(w, maxSize, r, now);
      hide Stamped;
    }
    hide Made; hide StampKey;
  }

  lemma {:induction false} StepKeepsContent(w: World, maxSize: int, op: Op, made: seq<Op>)
    requires Inv(w) && Enabled(w, op) && Unedited(w.s, op) && AllMade(w.s, made)
    ensures AllMade(Apply(w, maxSize, op).s, made + [op])
  {
    hide Inv; hide Made; hide StampKey; hide RetryStep;
    MoreMade(w.s, made, op);
    var more := made + [op];
    match op
    case Produce(r, now) => ProduceKeepsContent(w, maxSize, r, now, made);
    case Take(r, now) =>
    case Finish(_) =>
    case Again(r, now) =>
      InHandIsMade(w, r, more);
      RetryKeepsContent(w, maxSize, r, now, more);
    case Bury(r, _, _) => InHandIsMade(w, r, more);
    case Recover(order, _, now) => RecoverKeepsContent(w, maxSize, w.s.processing, order, now, more);
    case Clear =>
  }

  lemma {:induction false} InHandIsMade(w: World, r: Record, made: seq<Op>)
    requires Inv(w) && Holds(w.s, r.id) && SameContent(r, w.s.processing[r.id].item) && AllMade(w.s, made)
    ensures Made(r, made)
  {
    ContentIsMade(r, w.s.processing[r.id].item, made);
  }

  lemma {:induction false} RunKeepsContent(w: World, maxSize: int, ops: seq<Op>, made: seq<Op>)
    requires Inv(w) && Runs(w, maxSize, ops) && UneditedRun(w, maxSize, ops) && AllMade(w.s, made)
    ensures AllMade(Final(w, maxSize, ops).s, made + ops)
    decreases |ops|
  {
    hide Inv; hide AllMade; hide Enabled; hide Apply; hide Unedited;
    if ops == [] {
      assert made + ops == made;
    } else {
      StepKeepsInv(w, maxSize, ops[0]);
      StepKeepsContent(w, maxSize, ops[0], made);
      RunKeepsContent(Apply(w, maxSize, ops[0]), maxSize, ops[1..], made + [ops[0]]);
      assert made + ops == made + [ops[0]] + ops[1..];
    }
  }

  /** Through dequeues, retries, recoveries and burials an item keeps the data and the creation time its
      producer gave it, as long as the workers hand it back as they got it. */
  lemma {:induction false} ItemsKeepTheirContent(maxSize: int, ops: seq<Op>)
    requires Runs(EMPTY, maxSize, ops) && UneditedRun(EMPTY, maxSize, ops)
    ensures AllMade(Final(EMPTY, maxSize, ops).s, ops)
  {
    EmptyIsInv();
    RunKeepsContent(EMPTY, maxSize, ops, []);
    assert [] + ops == ops;
  }

  /** Whoever dequeues gets an item of the highest priority there is. */
  lemma {:induction false} HeadHasHighestPriority(w: World)
    requires Inv(w)
    ensures forall r, q :: IsHead(w.s, r) && q in w.s.queue ==> q.priority <= r.priority
  {
    QueueScores(w);
    hide Inv;
  }
}
