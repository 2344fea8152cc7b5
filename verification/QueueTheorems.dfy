/** What the work queue promises: nothing is lost, a retry budget holds, draining ends and a recovery
    is exact. */
module QueueTheorems {
  import opened Options
  import opened Durations
  import opened FiniteSums
  import opened RedisQueue
  import opened QueueRuns

  // ---- loss ----

  predicate NothingDropped(place: Places) {
    forall id :: id in place ==> place[id] != Gone(Dropped)
  }

  lemma {:induction false} StepDropsNothing(w: World, maxSize: int, op: Op)
    requires Inv(w) && Enabled(w, op) && maxSize <= 0 && NothingDropped(w.place)
    ensures NothingDropped(Apply(w, maxSize, op).place)
  {
    hide Inv;
    match op
    case Again(r, now) => RetryMovesOne(w, maxSize, r, now);
    case Recover(order, _, now) =>
      RecoverIsRetries(w, maxSize, order, now);
      StepKeepsInv(w, maxSize, op);
      SamePlaces(w, Apply(w, maxSize, op));
    case _ =>
  }

  lemma {:induction false} SamePlaces(w: World, w': World)
    requires Inv(w) && Inv(w') && w'.origin == w.origin
    ensures w'.place.Keys == w.place.Keys
  {
  }

  /** Without a size limit no run drops an item. */
  lemma {:induction false} UnboundedDropsNothing(w: World, maxSize: int, ops: seq<Op>)
    requires Inv(w) && Runs(w, maxSize, ops) && maxSize <= 0 && NothingDropped(w.place)
    ensures NothingDropped(Final(w, maxSize, ops).place)
    decreases |ops|
  {
    hide Inv;
    if ops != [] {
      StepKeepsInv(w, maxSize, ops[0]);
      StepDropsNothing(w, maxSize, ops[0]);
      UnboundedDropsNothing(Apply(w, maxSize, ops[0]), maxSize, ops[1..]);
    }
  }

  /** A retry always takes its item out of processing; the item is kept, in the queue or among the
      dead letters, exactly when the queue is not full or the item's retries are used up. */
  lemma {:induction false} RetryKeepsTheItemExactlyWhen(w: World, maxSize: int, r: Record, now: int)
    requires Inv(w) && InHand(w.s, r)
    ensures var s' := RetryStep(w.s, maxSize, r, now).state;
      && r.id !in HeldIds(s')
      && (r.id in QueueIds(s') || r.id in DeadIds(s') <==> !Full(w.s, maxSize) || Exhausted(r))
  {
    var w' := Retried(w, maxSize, r, now);
    hide Inv; hide RetryStep; hide StampKey; hide QueueIds; hide HeldIds; hide DeadIds;
    RetryMovesOne(w, maxSize, r, now);
    IdsArePlaces(w');
  }

  // ---- the retry budget ----

  function Max(a: int, b: int): int { if a > b then a else b }

  /** Retries an accepted record can still take before it is buried; a first retry is always taken. */
  function Budget(first: Record): int { Max(1, first.maxRetries - first.retries) }

  /** Waiting or in processing. */
  predicate IsLive(s: State, r: Record) { r in s.queue || (Holds(s, r.id) && s.processing[r.id].item == r) }

  predicate WithinBudget(w: World, r: Record) {
    && r.id in w.origin && r.id in w.tries
    && w.tries[r.id] < Budget(w.origin[r.id])
    && r.priority == w.origin[r.id].priority - 10 * w.tries[r.id]
    && r.retries == w.origin[r.id].retries + w.tries[r.id]
  }

  /** While an item waits or is being processed it has retries left and has lost ten points of
      priority for each retry so far. */
  lemma {:induction false} LiveItemsAreWithinBudget(w: World)
    requires Inv(w)
    ensures forall r :: IsLive(w.s, r) ==> WithinBudget(w, r)
  {
    hide Inv; hide StampKey; hide IsLive;
    forall r | IsLive(w.s, r) ensures WithinBudget(w, r) { LiveIsOnBudget(w, r); }
  }

  lemma {:induction false} LiveIsOnBudget(w: World, r: Record)
    requires Inv(w) && IsLive(w.s, r)
    ensures OnBudget(w.origin, w.tries, r)
  {
    hide ProcessingOk; hide DlqOk; hide PlacesOk; hide OwnersOk; hide StampKey; hide OnBudget;
    if r !in w.s.queue { PayloadIsWorking(w, r.id); }
  }

  /** The retry that spends the budget buries the item, and no other retry does. */
  lemma {:induction false} LastRetryBuries(w: World, maxSize: int, r: Record, now: int)
    requires Inv(w) && InHand(w.s, r)
    ensures r.id in w.origin
    ensures var w' := Retried(w, maxSize, r, now);
      && w'.tries[r.id] <= Budget(w.origin[r.id])
      && (r.id in DeadIds(w'.s) <==> w'.tries[r.id] == Budget(w.origin[r.id]))
  {
    hide Inv; hide RetryStep; hide StampKey; hide QueueIds; hide HeldIds; hide DeadIds; hide Budget;
    PayloadIsWorking(w, r.id);
    RetryMovesOne(w, maxSize, r, now);
    IdsArePlaces(Retried(w, maxSize, r, now));
    HandBudget(w, r);
  }

  lemma {:induction false} HandBudget(w: World, r: Record)
    requires Inv(w) && InHand(w.s, r)
    ensures r.id in w.origin && r.id in w.tries
    ensures w.tries[r.id] + 1 <= Budget(w.origin[r.id])
    ensures Exhausted(r) <==> w.tries[r.id] + 1 == Budget(w.origin[r.id])
  {
    hide Inv; hide StampKey;
    PayloadIsWorking(w, r.id);
  }

  // ---- draining ----

  /** Dequeues an accepted item can still take part in. */
  ghost function Left(w: World): string -> int {
    id =>
      if id !in w.place || id !in w.origin || id !in w.tries then 0
      else if w.place[id].Queued? then Max(1, Budget(w.origin[id]) - w.tries[id])
      else if w.place[id].Working? then Max(1, Budget(w.origin[id]) - w.tries[id]) - 1
      else 0
  }

  ghost function TotalLeft(w: World): int { Sum(w.origin.Keys, Left(w)) }

  function Takes(ops: seq<Op>): nat {
    if ops == [] then 0 else (if ops[0].Take? then 1 else 0) + Takes(ops[1..])
  }

  /** Moving one item changes the total by that item's change. */
  lemma {:induction false} MoveChangesOne(w: World, w': World, id: string)
    requires id in w.origin && w'.origin == w.origin && id in w.place && id in w.tries
    requires id in w'.place && id in w'.tries
    requires w'.place == w.place[id := w'.place[id]] && w'.tries == w.tries[id := w'.tries[id]]
    ensures TotalLeft(w') == TotalLeft(w) - Left(w)(id) + Left(w')(id)
  {
    SumBump(w.origin.Keys, Left(w), Left(w'), id);
  }

  lemma {:induction false} RetryNeverGains(w: World, maxSize: int, r: Record, now: int)
    requires Inv(w) && InHand(w.s, r)
    ensures Inv(Retried(w, maxSize, r, now)) && TotalLeft(Retried(w, maxSize, r, now)) <= TotalLeft(w)
  {
    hide Inv; hide RetryStep; hide StampKey; hide Budget; hide TotalLeft;
    PayloadIsWorking(w, r.id);
    RetryMovesOne(w, maxSize, r, now);
    HandBudget(w, r);
    InPlace(w, r.id);
    MoveChangesOne(w, Retried(w, maxSize, r, now), r.id);
  }

  lemma {:induction false} InPlace(w: World, id: string)
    requires Inv(w)
    ensures id in w.place <==> id in w.origin
    ensures id in w.place <==> id in w.tries
  {
  }

  lemma {:induction false} RecoverNeverGains(w: World, maxSize: int, order: seq<string>, now: int)
    requires Inv(w) && Visits(w.s.processing, order)
    ensures TotalLeft(RetriedAll(w, maxSize, w.s.processing, order, now)) <= TotalLeft(w)
    decreases |order|
  {
    hide Inv; hide RetryStep; hide StampKey; hide TotalLeft;
    if order != [] {
      var n := |order| - 1;
      var prior, k, h := order[..n], order[n], w.s.processing;
      assert forall a :: a in prior ==> a in order;
      RecoverNeverGains(w, maxSize, prior, now);
      RecoverIsRetries(w, maxSize, prior, now);
      PayloadIsWorking(w, k);
      var before := RetriedAll(w, maxSize, h, prior, now);
      assert Untouched(w, before, k);
      PayloadIsWorking(before, k);
      RetryNeverGains(before, maxSize, h[k].item, now);
    }
  }

  lemma {:induction false} TakeSpendsOne(w: World, r: Record, now: int)
    requires Inv(w) && r in w.s.queue
    ensures TotalLeft(Taken(w, r, now)) == TotalLeft(w) - 1
  {
    assert At(w.place, r.id, Queued(r));
    hide QueueOk; hide ProcessingOk; hide DlqOk; hide PlacesOk; hide OwnersOk; hide TotalLeft;
    MoveChangesOne(w, Taken(w, r, now), r.id);
  }

  lemma {:induction false} LeavingNeverGains(w: World, maxSize: int, op: Op)
    requires Inv(w) && Enabled(w, op) && (op.Finish? || op.Bury?)
    ensures TotalLeft(Apply(w, maxSize, op)) <= TotalLeft(w)
  {
    hide QueueOk; hide ProcessingOk; hide DlqOk; hide PlacesOk; hide OwnersOk; hide TotalLeft; hide StampKey;
    match op
    case Finish(id) =>
      HeldIsWorking(w, id);
      if Holds(w.s, id) { MoveChangesOne(w, Finished(w, id), id); } else { SameLeft(w, Finished(w, id)); }
    case Bury(r, reason, now) =>
      PayloadIsWorking(w, r.id);
      MoveChangesOne(w, BuriedIn(w, r, reason, now), r.id);
  }

  lemma {:induction false} SameLeft(w: World, w': World)
    requires w'.origin == w.origin
    requires forall id :: id in w.origin ==> Left(w')(id) == Left(w)(id)
    ensures TotalLeft(w') == TotalLeft(w)
  {
    SumSame(w.origin.Keys, Left(w), Left(w'));
  }

  lemma {:induction false} StepSpends(w: World, maxSize: int, op: Op)
    requires Inv(w) && Enabled(w, op) && !op.Produce?
    ensures TotalLeft(Apply(w, maxSize, op)) <= TotalLeft(w) - if op.Take? then 1 else 0
    ensures Apply(w, maxSize, op).origin == w.origin
  {
    hide Inv; hide TotalLeft; hide StampKey; hide RetryStep;
    match op
    case Take(r, now) => TakeSpendsOne(w, r, now);
    case Again(r, now) => RetryNeverGains(w, maxSize, r, now);
    case Recover(order, _, now) =>
      RecoverNeverGains(w, maxSize, order, now);
      RecoverIsRetries(w, maxSize, order, now);
    case Clear => SameLeft(w, ClearedDlq(w));
    case _ => LeavingNeverGains(w, maxSize, op);
  }

  lemma {:induction false} TotalLeftNonNegative(w: World)
    ensures 0 <= TotalLeft(w)
  {
    SumNonNegative(w.origin.Keys, Left(w));
  }

  /** Once producers stop, however the workers, the recoveries and the retries interleave, the run
      contains at most as many dequeues as the budgets still allow. */
  lemma {:induction false} DrainEnds(w: World, maxSize: int, ops: seq<Op>)
    requires Inv(w) && Runs(w, maxSize, ops)
    requires forall op :: op in ops ==> !op.Produce?
    ensures Takes(ops) + TotalLeft(Final(w, maxSize, ops)) <= TotalLeft(w)
    ensures Takes(ops) <= TotalLeft(w)
    decreases |ops|
  {
    hide Inv; hide TotalLeft;
    if ops != [] {
      StepKeepsInv(w, maxSize, ops[0]);
      StepSpends(w, maxSize, ops[0]);
      DrainEnds(Apply(w, maxSize, ops[0]), maxSize, ops[1..]);
    }
    TotalLeftNonNegative(Final(w, maxSize, ops));
  }

  ghost function Budgets(origin: map<string, Record>): string -> int {
    id => if id in origin then Budget(origin[id]) else 0
  }

  /** Draining a queue of items that were never retried takes at most the sum of their budgets. */
  lemma {:induction false} FreshDrainEnds(w: World, maxSize: int, ops: seq<Op>)
    requires Inv(w) && Runs(w, maxSize, ops)
    requires forall op :: op in ops ==> !op.Produce?
    requires forall id :: id in w.origin ==> w.place[id].Queued? && w.tries[id] == 0
    ensures Takes(ops) <= Sum(w.origin.Keys, Budgets(w.origin))
  {
    hide Runs; hide Takes;
    DrainEnds(w, maxSize, ops);
    FreshTotal(w);
  }

  lemma {:induction false} FreshTotal(w: World)
    requires forall id :: id in w.origin ==>
      id in w.place && id in w.tries && w.place[id].Queued? && w.tries[id] == 0
    ensures TotalLeft(w) == Sum(w.origin.Keys, Budgets(w.origin))
  {
    SumSame(w.origin.Keys, Left(w), Budgets(w.origin));
  }

  // ---- recovery ----

  predicate Recovered(s': State, r: Record, now: int) {
    if Exhausted(r) then DlqEntry(Bumped(r, now), "max retries exceeded", now, r.retries + 1) in s'.dlq
    else Requeued(r, now) in s'.queue
  }

  /** `w'` differs from `w` only in where the items of `order`, all in processing before, are now. */
  predicate MovedOnly(w: World, w': World, order: seq<string>) {
    && w'.origin == w.origin
    && (forall k :: k in order ==> At(w.place, k, Working))
    && (forall k :: k in order ==> k in w'.place && (w'.place[k].Queued? || w'.place[k].Dead?))
    && (forall k :: k in w.place && k !in order ==> At(w'.place, k, w.place[k]))
  }

  lemma {:induction false} QueuesAgree(w: World, w': World, order: seq<string>, r: Record)
    requires Inv(w) && Inv(w') && MovedOnly(w, w', order)
    ensures r in w'.s.queue && r.id !in order <==> r in w.s.queue
  {
    hide ProcessingOk; hide DlqOk; hide OwnersOk; hide OnBudget;
    if r in w.s.queue { assert At(w.place, r.id, Queued(r)) && PlaceOk(w'.s, r.id, Queued(r)); }
    if r in w'.s.queue { assert At(w'.place, r.id, Queued(r)); }
  }

  lemma {:induction false} DlqsAgree(w: World, w': World, order: seq<string>, e: DlqEntry)
    requires Inv(w) && Inv(w') && MovedOnly(w, w', order)
    ensures e in w'.s.dlq && e.item.id !in order <==> e in w.s.dlq
  {
    hide ProcessingOk; hide QueueOk; hide OwnersOk;
    if e in w.s.dlq { assert At(w.place, e.item.id, Dead(e)) && PlaceOk(w'.s, e.item.id, Dead(e)); }
    if e in w'.s.dlq { assert At(w'.place, e.item.id, Dead(e)); }
  }

  lemma {:induction false} WorkingLoses(place: Places, place': Places, order: seq<string>)
    requires place'.Keys == place.Keys
    requires forall k :: k in order ==> At(place, k, Working) && !place'[k].Working? && !place'[k].Gone?
    requires forall k :: k in place && k !in order ==> place'[k] == place[k]
    ensures WorkingIds(place') == WorkingIds(place) - (set k | k in order) && GoneIds(place') == GoneIds(place)
  {
  }

  lemma {:induction false} HeldLoses(w: World, w': World, order: seq<string>)
    requires Inv(w) && Inv(w') && MovedOnly(w, w', order)
    ensures HeldIds(w'.s) == HeldIds(w.s) - (set k | k in order)
    ensures GoneIds(w'.place) == GoneIds(w.place)
  {
    hide Inv; hide HeldIds; hide QueueIds; hide DeadIds; hide WorkingIds; hide GoneIds;
    IdsArePlaces(w);
    IdsArePlaces(w');
    SamePlaces(w, w');
    WorkingLoses(w.place, w'.place, order);
  }

  lemma {:induction false} SizesAgree(w: World, w': World, order: seq<string>)
    requires Inv(w) && Inv(w') && MovedOnly(w, w', order) && Visits(w.s.processing, order)
    ensures |w'.s.queue| + |w'.s.dlq| == |w.s.queue| + |w.s.dlq| + |order|
  {
    hide Inv; hide MovedOnly; hide QueueIds; hide DeadIds; hide GoneIds; hide StampKey;
    InvAccounts(w);
    InvAccounts(w');
    HeldLoses(w, w', order);
    DistinctSize(order);
    assert (set k | k in order) <= HeldIds(w.s);
    assert w'.origin == w.origin by { MovedSameOrigin(w, w', order); }
  }

  lemma {:induction false} MovedSameOrigin(w: World, w': World, order: seq<string>)
    requires MovedOnly(w, w', order)
    ensures w'.origin == w.origin
  {
  }

  lemma {:induction false} RecoverMoves(w: World, maxSize: int, order: seq<string>, now: int)
    requires Inv(w) && maxSize <= 0 && Visits(w.s.processing, order)
    ensures var w' := RetriedAll(w, maxSize, w.s.processing, order, now);
      && Inv(w') && w'.s == RecoverSteps(w.s, maxSize, w.s.processing, order, now)
      && MovedOnly(w, w', order)
      && (forall k :: At(w.place, k, Working) && k !in order ==> Untouched(w, w', k))
      && forall k :: k in order ==> Recovered(w'.s, w.s.processing[k].item, now)
  {
    hide Inv; hide StampKey; hide RecoverSteps; hide RetriedAll; hide Untouched;
    RecoverIsRetries(w, maxSize, order, now);
    var w' := RetriedAll(w, maxSize, w.s.processing, order, now);
    forall k | k in order ensures At(w.place, k, Working) && Recovered(w'.s, w.s.processing[k].item, now) {
      PayloadIsWorking(w, k);
      PlaceIsTrue(w', k);
    }
  }

  lemma {:induction false} PlaceIsTrue(w: World, id: string)
    requires Inv(w) && id in w.place
    ensures PlaceOk(w.s, id, w.place[id])
  {
  }

  /** On a queue without a limit a recovery, whatever order it meets the keys in, takes exactly the
      stale items out of processing, turns each into one waiting item (one more retry, ten points
      less) or one dead letter, touches nothing else and counts what it moved. */
  lemma {:induction false} RecoverIsExact(w: World, maxSize: int, order: seq<string>, timeout: int, now: int)
    requires Inv(w) && maxSize <= 0
    requires VisitsStale(w.s.processing, order, timeout, now)
    ensures var s' := RecoverSteps(w.s, maxSize, w.s.processing, order, now);
      && HeldIds(s') == HeldIds(w.s) - (set k | k in order)
      && (forall k :: k in HeldIds(s') ==> SameField(w.s, s', k) && SameField(w.s, s', StampKey(k)))
      && (forall k :: k in order ==> Recovered(s', w.s.processing[k].item, now))
      && (forall r :: r in s'.queue && r.id !in order <==> r in w.s.queue)
      && (forall e :: e in s'.dlq && e.item.id !in order <==> e in w.s.dlq)
      && |s'.queue| + |s'.dlq| == |w.s.queue| + |w.s.dlq| + |order|
      && RecoveredCount(w.s, maxSize, w.s.processing, order, now) == |order|
  {
    assert Visits(w.s.processing, order);
    hide Inv; hide StampKey; hide RecoverSteps; hide RecoveredCount; hide RetriedAll; hide Stale; hide Recovered;
    hide MovedOnly; hide Visits;
    RecoverMoves(w, maxSize, order, now);
    var w' := RetriedAll(w, maxSize, w.s.processing, order, now);
    HeldLoses(w, w', order);
    forall k | k in HeldIds(w'.s) ensures SameField(w.s, w'.s, k) && SameField(w.s, w'.s, StampKey(k)) {
      PayloadIsWorking(w, k);
      assert Untouched(w, w', k);
    }
    forall r ensures r in w'.s.queue && r.id !in order <==> r in w.s.queue { QueuesAgree(w, w', order, r); }
    forall e ensures e in w'.s.dlq && e.item.id !in order <==> e in w.s.dlq { DlqsAgree(w, w', order, e); }
    SizesAgree(w, w', order);
    RecoverCountsAll(w.s, maxSize, w.s.processing, order, now);
  }

  /** Which items in processing a recovery takes: the old ones whose ID does not itself look like a
      timestamp field. */
  lemma {:induction false} RecoverTakesExactlyWhen(w: World, id: string, order: seq<string>, timeout: int, now: int)
    requires Inv(w) && Holds(w.s, id) && VisitsStale(w.s.processing, order, timeout, now)
    ensures StampKey(id) in w.s.processing && w.s.processing[StampKey(id)].Stamp?
    ensures id in order <==>
      now - w.s.processing[StampKey(id)].at > WholeSeconds(timeout) && !IsStampKey(id)
  {
  }

  lemma {:induction false} RecoverCountsAll(
      s: State, maxSize: int, snapshot: map<string, HashValue>, order: seq<string>, now: int)
    requires maxSize <= 0 && forall k :: k in order ==> k in snapshot && snapshot[k].Payload?
    ensures RecoveredCount(s, maxSize, snapshot, order, now) == |order|
    decreases |order|
  {
    if order != [] {
      var prior := order[..|order| - 1];
      assert forall k :: k in prior ==> k in order;
      RecoverCountsAll(s, maxSize, snapshot, prior, now);
    }
  }

  // ---- where the promises end ----

  lemma {:induction false} OneMore(w: World, maxSize: int, op: Op, rest: seq<Op>)
    requires Enabled(w, op) && Runs(Apply(w, maxSize, op), maxSize, rest)
    ensures Runs(w, maxSize, [op] + rest)
    ensures Final(w, maxSize, [op] + rest) == Final(Apply(w, maxSize, op), maxSize, rest)
  {
  }

  /** IDs of different lengths made of one letter: none is another's timestamp field. */
  predicate IsPlain(id: string) { forall i :: 0 <= i < |id| ==> id[i] == 'x' }

  function Numbered(k: nat): Record { Record(seq(k, i => 'x'), "", 0, 0, 2, None, 0) }

  predicate OnlyShorter(ids: set<string>, k: nat) { forall id :: id in ids ==> IsPlain(id) && |id| < k }

  lemma {:induction false} PlainIdsDoNotClash(ids: set<string>, k: nat)
    requires OnlyShorter(ids, k)
    ensures Numbered(k).id !in ids && !Clashes(Numbered(k).id, ids)
    ensures OnlyShorter(ids + {Numbered(k).id}, k + 1)
  {
    var id := Numbered(k).id;
    forall a | a in ids ensures id != StampKey(a) && StampKey(id) != a {
      assert StampKey(a)[|StampKey(a)| - 1] == 'p' && StampKey(id)[|StampKey(id)| - 1] == 'p';
    }
  }

  lemma {:induction false} InsertGrows(s: State, r: Record)
    requires r !in s.queue
    ensures |Inserted(s, r).queue| == |s.queue| + 1
  {
    assert Inserted(s, r).queue.Keys == s.queue.Keys + {r};
  }

  lemma {:induction false} InsertAddsId(s: State, r: Record)
    ensures QueueIds(Inserted(s, r)) == QueueIds(s) + {r.id}
  {
    var s' := Inserted(s, r);
    assert forall q :: q in s'.queue <==> q == r || q in s.queue;
    forall id | id in QueueIds(s) ensures id in QueueIds(s') {
      var q :| q in s.queue && q.id == id;
      assert q in s'.queue;
    }
    assert r in s'.queue;
  }

  lemma {:induction false} StoreOneMore(w: World, maxSize: int, r: Record, now: int)
    requires !Full(w.s, maxSize) && r.id !in w.origin && forall q :: q in w.s.queue ==> q.id in w.origin
    ensures var w' := Produced(w, maxSize, r, now);
      && w'.s.processing == w.s.processing && w'.origin.Keys == w.origin.Keys + {r.id}
      && |w'.s.queue| == |w.s.queue| + 1 && forall q :: q in w'.s.queue ==> q.id in w'.origin
  {
    hide Produced; hide Inserted; hide Full;
    ProducedStores(w, maxSize, r, now);
    InsertGrows(w.s, Stamped(r, now));
    var w' := Produced(w, maxSize, r, now);
    forall q | q in w'.s.queue ensures q.id in w'.origin {}
  }

  lemma {:induction false} ProducedStores(w: World, maxSize: int, r: Record, now: int)
    requires !Full(w.s, maxSize)
    ensures var w' := Produced(w, maxSize, r, now);
      && w'.s == Inserted(w.s, Stamped(r, now)) && w'.origin == w.origin[r.id := Stamped(r, now)]
      && w'.s.processing == w.s.processing
      && forall q :: q in w'.s.queue ==> q == Stamped(r, now) || q in w.s.queue
  {
    hide StampKey; hide Full;
  }

  lemma {:induction false} FullDrops(w: World, maxSize: int, r: Record, now: int)
    requires Full(w.s, maxSize) && !Exhausted(r)
    ensures At(Retried(w, maxSize, r, now).place, r.id, Gone(Dropped))
  {
  }

  lemma {:induction false} TakeFirst(maxSize: int, r: Record, now: int)
    requires maxSize > 0 && r.createdAt.Some? && r.updatedAt == now
    ensures Enabled(EMPTY, Produce(r, now))
    ensures var w := Produced(EMPTY, maxSize, r, now);
      && IsHead(w.s, r) && w.origin == map[r.id := r]
      && InHand(Taken(w, r, now).s, r) && Taken(w, r, now).s.queue == map[]
  {
    assert |StampKey(r.id)| == |r.id| + 10;
  }

  /** While one item is in hand, others fill the queue; then its retry is refused. */
  lemma {:induction false} FillAndDrop(w: World, maxSize: int, r: Record, k: nat) returns (ops: seq<Op>)
    requires InHand(w.s, r) && !Exhausted(r) && 0 < maxSize && |w.s.queue| <= maxSize
    requires OnlyShorter(w.origin.Keys, k) && forall q :: q in w.s.queue ==> q.id in w.origin
    ensures Runs(w, maxSize, ops) && At(Final(w, maxSize, ops).place, r.id, Gone(Dropped))
    decreases maxSize - |w.s.queue|
  {
    hide InHand; hide Exhausted; hide Produced; hide Retried; hide Clashes; hide OnlyShorter; hide Numbered;
    if |w.s.queue| == maxSize {
      FullDrops(w, maxSize, r, 0);
      ops := [Again(r, 0)] + [];
      OneMore(w, maxSize, Again(r, 0), []);
    } else {
      PlainIdsDoNotClash(w.origin.Keys, k);
      StoreOneMore(w, maxSize, Numbered(k), 0);
      var w' := Produced(w, maxSize, Numbered(k), 0);
      StillInHand(w.s, w'.s, r);
      var rest := FillAndDrop(w', maxSize, r, k + 1);
      OneMore(w, maxSize, Produce(Numbered(k), 0), rest);
      ops := [Produce(Numbered(k), 0)] + rest;
    }
  }

  lemma {:induction false} StillInHand(s: State, s': State, r: Record)
    requires InHand(s, r) && s'.processing == s.processing
    ensures InHand(s', r)
  {
  }

  /** A bounded queue can lose an item, whatever its limit: take one, let others fill the queue, and
      retrying the first loses it. */
  lemma {:induction false} BoundedQueueCanLose(maxSize: int) returns (ops: seq<Op>)
    requires maxSize > 0
    ensures Runs(EMPTY, maxSize, ops) && !NothingDropped(Final(EMPTY, maxSize, ops).place)
  {
    var r := Stamped(Numbered(0), 0);
    assert !Exhausted(r) && OnlyShorter({r.id}, 1);
    TakeFirst(maxSize, r, 0);
    var w1 := Produced(EMPTY, maxSize, r, 0);
    var w2 := Taken(w1, r, 0);
    assert w2.origin.Keys == {r.id};
    hide Produced; hide Taken; hide InHand; hide IsHead; hide OnlyShorter; hide Numbered; hide Exhausted;
    var rest := FillAndDrop(w2, maxSize, r, 1);
    OneMore(w1, maxSize, Take(r, 0), rest);
    OneMore(EMPTY, maxSize, Produce(r, 0), [Take(r, 0)] + rest);
    ops := [Produce(r, 0)] + ([Take(r, 0)] + rest);
  }

  ghost predicate CanDrop(maxSize: int, ops: seq<Op>) {
    Runs(EMPTY, maxSize, ops) && !NothingDropped(Final(EMPTY, maxSize, ops).place)
  }

  /** Some run loses an item exactly when the queue has a size limit. */
  lemma {:induction false} ItemsCanBeLostExactlyWhenBounded(maxSize: int)
    ensures (exists ops :: CanDrop(maxSize, ops)) <==> maxSize > 0
  {
    if maxSize > 0 {
      var ops := BoundedQueueCanLose(maxSize);
      assert CanDrop(maxSize, ops);
    } else {
      forall ops ensures !CanDrop(maxSize, ops) {
        if Runs(EMPTY, maxSize, ops) {
          EmptyIsInv();
          UnboundedDropsNothing(EMPTY, maxSize, ops);
        }
      }
    }
  }

  /** An item whose ID ends like a timestamp field stays in processing through any number of
      recoveries, however old it gets. */
  lemma {:induction false} TimestampLikeIdIsNeverRecovered(w: World, maxSize: int, id: string, ops: seq<Op>)
    requires Inv(w) && At(w.place, id, Working) && IsStampKey(id)
    requires Runs(w, maxSize, ops) && forall op :: op in ops ==> op.Recover?
    ensures At(Final(w, maxSize, ops).place, id, Working) && Holds(Final(w, maxSize, ops).s, id)
    decreases |ops|
  {
    hide Inv; hide StampKey;
    if ops == [] {
      PlaceHasFields(w, id);
    } else {
      var op := ops[0];
      assert op in ops && id !in op.order;
      RecoverIsRetries(w, maxSize, op.order, op.now);
      TimestampLikeIdIsNeverRecovered(Apply(w, maxSize, op), maxSize, id, ops[1..]);
    }
  }

  // ---- retries of items no longer in processing ----

  /** What a retry does for whoever calls it, with the item still in processing or not: a late worker, or
      a recovery whose snapshot a Complete has overtaken. The history only knows of the former. */
  function RetryCalled(w: World, maxSize: int, r: Record, now: int): World {
    if Holds(w.s, r.id) then Retried(w, maxSize, r, now) else w.(s := RetryStep(w.s, maxSize, r, now).state)
  }

  /** The queue refuses the item, or already has the very record the retry writes. */
  predicate AddsNothing(s: State, maxSize: int, r: Record, now: int) {
    !Exhausted(r) && (Full(s, maxSize) || Requeued(r, now) in s.queue)
  }

  lemma {:induction false} HeldIdIsNowhereElse(w: World, id: string)
    requires Inv(w) && Holds(w.s, id)
    ensures At(w.place, id, Working) && id in w.s.processing && StampKey(id) in w.s.processing
    ensures id in HeldIds(w.s) && id !in QueueIds(w.s) && id !in DeadIds(w.s) && id !in GoneIds(w.place)
  {
    hide Inv; hide StampKey;
    PayloadIsWorking(w, id);
    InvAccounts(w);
    hide QueueIds; hide DeadIds; hide GoneIds;
  }

  /** Taking the two fields of a held item out of the hash. */
  lemma {:induction false} ReleasesOne(w: World, id: string)
    requires Inv(w) && Holds(w.s, id)
    ensures HeldIds(Removed(w.s, id)) == HeldIds(w.s) - {id}
    ensures |Removed(w.s, id).processing| == |w.s.processing| - 2
  {
    hide Inv; hide StampKey;
    StampIsNoPayload(w, id);
    TwoFewerFields(w.s.processing, id);
    forall k ensures k in HeldIds(Removed(w.s, id)) <==> k in HeldIds(w.s) && k != id {}
  }

  lemma {:induction false} StampIsNoPayload(w: World, id: string)
    requires Inv(w) && Holds(w.s, id)
    ensures StampKey(id) in w.s.processing && w.s.processing[StampKey(id)].Stamp?
  {
    hide Inv; hide StampKey;
    PayloadIsWorking(w, id);
  }

  lemma {:induction false} GoneMoves(place: Places, id: string, p: Place)
    requires At(place, id, Working)
    ensures GoneIds(place[id := p]) == GoneIds(place) + if p.Gone? then {id} else {}
  {
  }

  lemma {:induction false} DeadGrows(s: State, e: DlqEntry)
    ensures DeadIds(s.(dlq := [e] + s.dlq)) == DeadIds(s) + {e.item.id}
  {
    forall d ensures d in [e] + s.dlq <==> d == e || d in s.dlq {}
  }

  /** The retried item is now in one more of the three other parts. */
  ghost predicate Moved(w: World, w': World, id: string) {
    var queued, dead, gone := QueueIds(w.s), DeadIds(w.s), GoneIds(w.place);
    var queued', dead', gone' := QueueIds(w'.s), DeadIds(w'.s), GoneIds(w'.place);
    || (queued' == queued + {id} && dead' == dead && gone' == gone)
    || (queued' == queued && dead' == dead + {id} && gone' == gone)
    || (queued' == queued && dead' == dead && gone' == gone + {id})
  }

  ghost predicate OneMoreElsewhere(w: World, w': World) {
    |w'.s.queue| + |w'.s.dlq| + |GoneIds(w'.place)| == |w.s.queue| + |w.s.dlq| + |GoneIds(w.place)| + 1
  }

  lemma {:induction false} SameIds(s: State, s': State)
    ensures s.queue == s'.queue ==> QueueIds(s) == QueueIds(s')
    ensures s.dlq == s'.dlq ==> DeadIds(s) == DeadIds(s')
  {
  }

  lemma {:induction false} HeldRetryStep(w: World, maxSize: int, r: Record, now: int)
    requires At(w.place, r.id, Working) && r.id !in QueueIds(w.s) && r.id !in GoneIds(w.place)
    ensures Moved(w, Retried(w, maxSize, r, now), r.id) && OneMoreElsewhere(w, Retried(w, maxSize, r, now))
  {
    RetryAdds(w, maxSize, r, now);
    var s, w' := w.s, Retried(w, maxSize, r, now);
    assert Requeued(r, now).id == r.id && Bumped(r, now).id == r.id;
    assert Requeued(r, now) !in s.queue;
    hide Retried; hide GoneIds; hide QueueIds; hide DeadIds; hide Inserted; hide Requeued; hide Bumped; hide Full;
    GoneMoves(w.place, r.id, w'.place[r.id]);
    SameIds(s, w'.s);
    if Exhausted(r) {
      var e := w'.s.dlq[0];
      DeadGrows(s, e);
      SameIds(w'.s, s.(dlq := [e] + s.dlq));
    } else if !Full(s, maxSize) {
      InsertGrows(s, Requeued(r, now));
      InsertAddsId(s, Requeued(r, now));
      SameIds(w'.s, Inserted(s, Requeued(r, now)));
    }
  }

  /** A retry keeps the accounts, whatever record it is called with, exactly when the item is in
      processing or the retry puts nothing back: a late retry duplicates or revives the item. */
  lemma {:induction false} RetryKeepsAccountsExactlyWhen(w: World, maxSize: int, r: Record, now: int)
    requires Inv(w) && r.id in w.origin
    ensures Accounted(RetryCalled(w, maxSize, r, now)) <==>
            Holds(w.s, r.id) || AddsNothing(w.s, maxSize, r, now)
  {
    InvAccounts(w);
    hide Inv; hide Retried; hide RetryStep; hide QueueIds; hide HeldIds; hide DeadIds; hide GoneIds; hide AddsNothing;
    hide Holds;
    if Holds(w.s, r.id) {
      HeldIdIsNowhereElse(w, r.id);
      HeldRetryStep(w, maxSize, r, now);
      ReleasesOne(w, r.id);
      RetriedHash(w, maxSize, r, now);
      SameHash(Retried(w, maxSize, r, now).s, Removed(w.s, r.id));
      MovedKeepsAccounts(w, Retried(w, maxSize, r, now), r.id);
    } else {
      LateRetryStep(w, maxSize, r, now);
    }
  }

  lemma {:induction false} RetriedHash(w: World, maxSize: int, r: Record, now: int)
    ensures var w' := Retried(w, maxSize, r, now);
      w'.origin == w.origin && w'.s.processing == Removed(w.s, r.id).processing
  {
    hide StampKey;
  }

  lemma {:induction false} SameHash(s: State, s': State)
    requires s.processing == s'.processing
    ensures HeldIds(s) == HeldIds(s')
  {
  }

  lemma {:induction false} MovedKeepsAccounts(w: World, w': World, id: string)
    requires Accounted(w) && Moved(w, w', id) && OneMoreElsewhere(w, w') && w'.origin == w.origin
    requires id in HeldIds(w.s) && HeldIds(w'.s) == HeldIds(w.s) - {id}
    requires |w'.s.processing| == |w.s.processing| - 2
    ensures Accounted(w')
  {
    hide HeldIds; hide QueueIds; hide DeadIds; hide GoneIds; hide PlacesSplit; hide Moved; hide SizesAddUp;
    hide OneMoreElsewhere;
    MovedKeepsSplit(w, w', id);
    MovedKeepsSizes(w, w', id);
  }

  lemma {:induction false} MovedKeepsSizes(w: World, w': World, id: string)
    requires SizesAddUp(w) && OneMoreElsewhere(w, w') && w'.origin == w.origin
    requires id in HeldIds(w.s) && HeldIds(w'.s) == HeldIds(w.s) - {id}
    requires |w'.s.processing| == |w.s.processing| - 2
    ensures SizesAddUp(w')
  {
    hide HeldIds; hide QueueIds; hide DeadIds; hide GoneIds;
    assert |HeldIds(w'.s)| == |HeldIds(w.s)| - 1;
  }

  lemma {:induction false} MovedKeepsSplit(w: World, w': World, id: string)
    requires PlacesSplit(w) && Moved(w, w', id) && w'.origin == w.origin && id in HeldIds(w.s)
    requires HeldIds(w'.s) == HeldIds(w.s) - {id}
    ensures PlacesSplit(w')
  {
    hide HeldIds; hide QueueIds; hide DeadIds; hide GoneIds; hide IsSplit;
    var all, held := w.origin.Keys, HeldIds(w.s);
    SplitMoves(all, held, QueueIds(w.s), DeadIds(w.s), GoneIds(w.place), id);
    SplitMoves(all, held, DeadIds(w.s), QueueIds(w.s), GoneIds(w.place), id);
    SplitMoves(all, held, GoneIds(w.place), QueueIds(w.s), DeadIds(w.s), id);
    SplitTurns(all, held, QueueIds(w.s), DeadIds(w.s), GoneIds(w.place), id);
  }

  /** One member of the first part moves to the second. */
  lemma {:induction false} SplitMoves(
      all: set<string>, a: set<string>, b: set<string>, c: set<string>, d: set<string>, id: string)
    requires id in a
    ensures IsSplit(all, a, b, c, d) ==> IsSplit(all, a - {id}, b + {id}, c, d)
  {
  }

  /** The order of the other parts does not matter. */
  lemma {:induction false} SplitTurns(
      all: set<string>, a: set<string>, b: set<string>, c: set<string>, d: set<string>, id: string)
    ensures IsSplit(all, a, b, c, d) ==> IsSplit(all, a, c, b, d) && IsSplit(all, a, d, b, c)
    ensures IsSplit(all, a - {id}, c + {id}, b, d) ==> IsSplit(all, a - {id}, b, c + {id}, d)
    ensures IsSplit(all, a - {id}, d + {id}, b, c) ==> IsSplit(all, a - {id}, b, c, d + {id})
  {
  }

  lemma {:induction false} LateRetryStep(w: World, maxSize: int, r: Record, now: int)
    requires Inv(w) && r.id in w.origin && !Holds(w.s, r.id)
    ensures var s, s' := w.s, RetryStep(w.s, maxSize, r, now).state;
      if AddsNothing(s, maxSize, r, now) then s' == s
      else |s'.queue| + |s'.dlq| == |s.queue| + |s.dlq| + 1 && |s'.processing| == |s.processing|
  {
    NotHeldHasNoField(w, r.id);
    hide Inv;
    LateRetryAdds(w.s, maxSize, r, now);
    hide StampKey; hide RetryStep; hide Inserted;
    QueueScores(w);
    InsertSame(w.s, Requeued(r, now));
    if Requeued(r, now) !in w.s.queue { InsertGrows(w.s, Requeued(r, now)); }
  }

  lemma {:induction false} RetryRemoves(s: State, maxSize: int, r: Record, now: int)
    ensures RetryStep(s, maxSize, r, now).state ==
            if Exhausted(r) then Buried(s, Bumped(r, now), "max retries exceeded", now)
            else if Full(s, maxSize) then Removed(s, r.id)
            else Inserted(Removed(s, r.id), Requeued(r, now))
    ensures Bumped(r, now).id == r.id && Bumped(r, now).retries == r.retries + 1
  {
    hide StampKey;
  }

  lemma {:induction false} LateRetryAdds(s: State, maxSize: int, r: Record, now: int)
    requires r.id !in s.processing && StampKey(r.id) !in s.processing
    ensures var s' := RetryStep(s, maxSize, r, now).state;
      && s'.processing == s.processing
      && if Exhausted(r) then
           s' == s.(dlq := [DlqEntry(Bumped(r, now), "max retries exceeded", now, r.retries + 1)] + s.dlq)
         else if Full(s, maxSize) then s' == s
         else s' == Inserted(s, Requeued(r, now))
  {
    hide StampKey; hide Requeued; hide Bumped; hide Full; hide Exhausted;
    RetryRemoves(s, maxSize, r, now);
    assert s.processing - {r.id, StampKey(r.id)} == s.processing;
    assert Removed(s, r.id) == s;
  }

  lemma {:induction false} QueueScores(w: World)
    requires Inv(w)
    ensures forall q :: q in w.s.queue ==> w.s.queue[q] == -q.priority
  {
    hide OnBudget;
  }

  lemma {:induction false} InsertSame(s: State, r: Record)
    requires forall q :: q in s.queue ==> s.queue[q] == -q.priority
    ensures r in s.queue ==> Inserted(s, r) == s
    ensures Inserted(s, r).processing == s.processing && Inserted(s, r).dlq == s.dlq
  {
    if r in s.queue { assert s.queue[r := -r.priority] == s.queue; }
  }

  lemma {:induction false} NotHeldHasNoField(w: World, id: string)
    requires Inv(w) && id in w.origin && !Holds(w.s, id)
    ensures id !in w.s.processing && StampKey(id) !in w.s.processing
  {
    hide StampKey; hide QueueOk; hide DlqOk; hide PlacesOk;
    if At(w.place, id, Working) { PlaceHasFields(w, id); }
    IdleFields(w.s.processing, w.origin, w.tries, w.place, w.owner, id);
  }
}
