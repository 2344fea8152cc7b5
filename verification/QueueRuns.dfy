/** Whole runs of the work queue: any sequence of its operations by any number of clients, with the
    history a single call cannot see (what was accepted, how often it was retried, where it is). */
module QueueRuns {
  import opened RedisQueue
  import opened FiniteSums

  datatype Fate = Completed | Dropped | Cleared

  datatype Place = Queued(r: Record) | Working | Dead(e: DlqEntry) | Gone(fate: Fate)

  /** `origin` maps every accepted ID to the record first stored for it, `tries` counts its retries,
      `place` is where the history says it is and `owner` names the ID each hash field is reserved for. */
  datatype World = World(
    s: State, origin: map<string, Record>, tries: map<string, nat>,
    place: map<string, Place>, owner: map<string, string>)

  datatype Op =
    | Produce(item: Record, now: int)
    | Take(item: Record, now: int)
    | Finish(id: string)
    | Again(item: Record, now: int)
    | Bury(item: Record, reason: string, now: int)
    | Recover(order: seq<string>, timeout: int, now: int)
    | Clear

  const EMPTY := World(State(map[], map[], []), map[], map[], map[], map[])

  /** No hash field of `id` is a hash field of another ID. */
  predicate Clashes(id: string, ids: set<string>) {
    exists a :: a in ids && (id == StampKey(a) || StampKey(id) == a)
  }

  predicate Holds(s: State, id: string) { id in s.processing && s.processing[id].Payload? }

  /** The item is in processing, as it was handed out; its data may have been edited. */
  predicate InHand(s: State, r: Record) {
    && Holds(s, r.id)
    && var p := s.processing[r.id].item;
       r.priority == p.priority && r.retries == p.retries && r.maxRetries == p.maxRetries
  }

  ghost predicate Enabled(w: World, op: Op) {
    match op
    case Produce(r, _) => r.id !in w.origin && !Clashes(r.id, w.origin.Keys)
    case Take(r, _) => IsHead(w.s, r)
    case Finish(id) => !Clashes(id, w.origin.Keys)
    case Again(r, _) => InHand(w.s, r)
    case Bury(r, _, _) => InHand(w.s, r)
    case Recover(order, timeout, now) => VisitsStale(w.s.processing, order, timeout, now)
    case Clear => true
  }

  function Tries(w: World, id: string): nat { if id in w.tries then w.tries[id] else 0 }

  function Produced(w: World, maxSize: int, r: Record, now: int): World {
    var step := EnqueueStep(w.s, maxSize, r, now);
    if step.outcome.Failed? then w
    else World(step.state, w.origin[r.id := step.item], w.tries[r.id := 0],
               w.place[r.id := Queued(step.item)], w.owner[r.id := r.id][StampKey(r.id) := r.id])
  }

  function Retried(w: World, maxSize: int, r: Record, now: int): World {
    var step := RetryStep(w.s, maxSize, r, now);
    w.(s := step.state,
       tries := w.tries[r.id := Tries(w, r.id) + 1],
       place := w.place[r.id :=
         if Exhausted(r) then Dead(step.state.dlq[0])
         else if step.outcome.Ok? then Queued(step.item) else Gone(Dropped)])
  }

  function RetriedAll(w: World, maxSize: int, snapshot: map<string, HashValue>, order: seq<string>, now: int): World {
    if order == [] then w else
      var last := |order| - 1;
      var before := RetriedAll(w, maxSize, snapshot, order[..last], now);
      if order[last] in snapshot && snapshot[order[last]].Payload?
      then Retried(before, maxSize, snapshot[order[last]].item, now) else before
  }

  function Finished(w: World, id: string): World {
    w.(s := Removed(w.s, id), place := if Holds(w.s, id) then w.place[id := Gone(Completed)] else w.place)
  }

  function Taken(w: World, r: Record, now: int): World {
    w.(s := Popped(w.s, r, now), place := w.place[r.id := Working])
  }

  function BuriedIn(w: World, r: Record, reason: string, now: int): World {
    w.(s := Buried(w.s, r, reason, now), place := w.place[r.id := Dead(DlqEntry(r, reason, now, r.retries))])
  }

  function ClearedDlq(w: World): World {
    w.(s := w.s.(dlq := []),
       place := map id | id in w.place :: if w.place[id].Dead? then Gone(Cleared) else w.place[id])
  }

  function Apply(w: World, maxSize: int, op: Op): World {
    match op
    case Produce(r, now) => Produced(w, maxSize, r, now)
    case Take(r, now) => Taken(w, r, now)
    case Finish(id) => Finished(w, id)
    case Again(r, now) => Retried(w, maxSize, r, now)
    case Bury(r, reason, now) => BuriedIn(w, r, reason, now)
    case Recover(order, _, now) => RetriedAll(w, maxSize, w.s.processing, order, now)
    case Clear => ClearedDlq(w)
  }

  ghost predicate Runs(w: World, maxSize: int, ops: seq<Op>)
    decreases |ops|
  {
    ops == [] || (Enabled(w, ops[0]) && Runs(Apply(w, maxSize, ops[0]), maxSize, ops[1..]))
  }

  function Final(w: World, maxSize: int, ops: seq<Op>): World
    decreases |ops|
  {
    if ops == [] then w else Final(Apply(w, maxSize, ops[0]), maxSize, ops[1..])
  }

  // ---- the invariant ----

  type Origins = map<string, Record>
  type Counts = map<string, nat>
  type Places = map<string, Place>
  type Owners = map<string, string>

  predicate OnBudget(origin: Origins, tries: Counts, r: Record) {
    && r.id in origin && r.id in tries
    && var first, n := origin[r.id], tries[r.id];
       && r.retries == first.retries + n
       && r.priority == first.priority - RETRY_PENALTY * n
       && r.maxRetries == first.maxRetries
       && (n == 0 || r.retries < r.maxRetries)
  }

  predicate At(place: Places, id: string, p: Place) { id in place && place[id] == p }

  predicate Owns(owner: Owners, field: string, id: string) { field in owner && owner[field] == id }

  predicate QueueOk(queue: map<Record, int>, origin: Origins, tries: Counts, place: Places) {
    forall r :: r in queue ==> queue[r] == -r.priority && OnBudget(origin, tries, r) && At(place, r.id, Queued(r))
  }

  function WorkingIds(place: Places): set<string> { set id | id in place && place[id].Working? }

  /** An item in processing has its payload and its timestamp in the hash. */
  predicate HasFields(h: map<string, HashValue>, id: string, origin: Origins, tries: Counts) {
    && id in h && h[id].Payload? && h[id].item.id == id && OnBudget(origin, tries, h[id].item)
    && StampKey(id) in h && h[StampKey(id)].Stamp?
  }

  predicate WorkingHaveFields(h: map<string, HashValue>, origin: Origins, tries: Counts, place: Places) {
    forall id :: id in place && place[id].Working? ==> HasFields(h, id, origin, tries)
  }

  predicate FieldsOwned(h: map<string, HashValue>, place: Places, owner: Owners) {
    forall k :: k in h ==> k in owner && At(place, owner[k], Working)
  }

  predicate ProcessingOk(
      h: map<string, HashValue>, origin: Origins, tries: Counts, place: Places, owner: Owners) {
    && WorkingHaveFields(h, origin, tries, place)
    && FieldsOwned(h, place, owner)
    && |h| == 2 * |WorkingIds(place)|
  }

  predicate DlqOk(dlq: seq<DlqEntry>, place: Places) {
    && (forall e :: e in dlq ==> At(place, e.item.id, Dead(e)))
    && forall i, j :: 0 <= i < j < |dlq| ==> dlq[i] != dlq[j]
  }

  predicate PlaceOk(s: State, id: string, p: Place) {
    match p
    case Queued(r) => r.id == id && r in s.queue
    case Dead(e) => e.item.id == id && e in s.dlq
    case _ => true
  }

  predicate PlacesOk(s: State, place: Places) {
    forall id :: id in place ==> PlaceOk(s, id, place[id])
  }

  /** Every accepted ID owns its two hash fields, and nothing else is owned. */
  predicate OwnersOk(ids: set<string>, owner: Owners) {
    && (forall id :: id in ids ==> Owns(owner, id, id) && Owns(owner, StampKey(id), id))
    && forall k :: k in owner ==> owner[k] in ids && (k == owner[k] || k == StampKey(owner[k]))
  }

  predicate Inv(w: World) {
    && w.place.Keys == w.origin.Keys == w.tries.Keys
    && QueueOk(w.s.queue, w.origin, w.tries, w.place)
    && ProcessingOk(w.s.processing, w.origin, w.tries, w.place, w.owner)
    && DlqOk(w.s.dlq, w.place)
    && PlacesOk(w.s, w.place)
    && OwnersOk(w.origin.Keys, w.owner)
  }

  // ---- every operation keeps it ----

  /** A field of an ID that is not in processing is not in the hash. */
  lemma {:induction false} IdleFields(
      h: map<string, HashValue>, origin: Origins, tries: Counts, place: Places, owner: Owners, id: string)
    requires ProcessingOk(h, origin, tries, place, owner) && OwnersOk(origin.Keys, owner)
    requires id in origin && !At(place, id, Working)
    ensures id !in h && StampKey(id) !in h
  {
  }

  function WithFields(h: map<string, HashValue>, r: Record, now: int): map<string, HashValue> {
    h[r.id := Payload(r)][StampKey(r.id) := Stamp(now)]
  }

  lemma {:induction false} TwoMoreFields(h: map<string, HashValue>, r: Record, now: int)
    requires r.id !in h && StampKey(r.id) !in h
    ensures |WithFields(h, r, now)| == |h| + 2
  {
  }

  lemma {:induction false} OneMoreWorking(place: Places, id: string)
    requires id in place && !place[id].Working?
    ensures |WorkingIds(place[id := Working])| == |WorkingIds(place)| + 1
  {
    assert WorkingIds(place[id := Working]) == WorkingIds(place) + {id};
  }

  lemma {:induction false} OwnFieldsArePut(
      h: map<string, HashValue>, origin: Origins, tries: Counts, r: Record, now: int)
    requires OnBudget(origin, tries, r)
    ensures HasFields(WithFields(h, r, now), r.id, origin, tries)
  {
  }

  lemma {:induction false} PutFields(
      h: map<string, HashValue>, origin: Origins, tries: Counts, place: Places, owner: Owners, r: Record, now: int)
    requires ProcessingOk(h, origin, tries, place, owner) && OwnersOk(origin.Keys, owner)
    requires place.Keys == origin.Keys == tries.Keys && r.id in place && !place[r.id].Working?
    requires OnBudget(origin, tries, r)
    ensures ProcessingOk(WithFields(h, r, now), origin, tries, place[r.id := Working], owner)
  {
    hide HasFields; hide OnBudget; hide WorkingIds; hide FieldsOwned; hide StampKey;
    var h', id := WithFields(h, r, now), r.id;
    PutStayOwned(h, origin.Keys, place, owner, r, now);
    IdleFields(h, origin, tries, place, owner, id);
    OneMoreWorking(place, id);
    TwoMoreFields(h, r, now);
    OwnFieldsArePut(h, origin, tries, r, now);
    OthersKeepFields(h, h', origin, tries, tries, place, owner, id);
  }

  lemma {:induction false} PutStayOwned(
      h: map<string, HashValue>, ids: set<string>, place: Places, owner: Owners, r: Record, now: int)
    requires FieldsOwned(h, place, owner) && OwnersOk(ids, owner) && r.id in ids
    ensures FieldsOwned(WithFields(h, r, now), place[r.id := Working], owner)
  {
    hide StampKey;
    assert Owns(owner, r.id, r.id) && Owns(owner, StampKey(r.id), r.id);
  }

  lemma {:induction false} OneLessWorking(place: Places, id: string, p: Place)
    requires At(place, id, Working) && !p.Working?
    ensures |WorkingIds(place[id := p])| == |WorkingIds(place)| - 1
  {
    assert WorkingIds(place) == WorkingIds(place[id := p]) + {id};
  }

  lemma {:induction false} TwoFewerFields(h: map<string, HashValue>, id: string)
    requires id in h && StampKey(id) in h
    ensures |h - {id, StampKey(id)}| == |h| - 2
  {
  }

  lemma {:induction false} HasFieldsMeans(h: map<string, HashValue>, id: string, origin: Origins, tries: Counts)
    requires HasFields(h, id, origin, tries)
    ensures id in h && StampKey(id) in h
  {
  }

  lemma {:induction false} DroppedStayOwned(
      h: map<string, HashValue>, ids: set<string>, place: Places, owner: Owners, id: string, p: Place)
    requires FieldsOwned(h, place, owner) && OwnersOk(ids, owner)
    ensures FieldsOwned(h - {id, StampKey(id)}, place[id := p], owner)
  {
  }

  lemma {:induction false} OthersKeepFields(
      h: map<string, HashValue>, h': map<string, HashValue>, origin: Origins, tries: Counts, tries': Counts,
      place: Places, owner: Owners, id: string)
    requires WorkingHaveFields(h, origin, tries, place) && OwnersOk(origin.Keys, owner)
    requires place.Keys == origin.Keys == tries.Keys && id in origin
    requires forall k :: k != id && k != StampKey(id) && k in h ==> k in h' && h'[k] == h[k]
    requires forall a :: a in tries && a != id ==> a in tries' && tries'[a] == tries[a]
    ensures forall a :: a in place && a != id && place[a].Working? ==> HasFields(h', a, origin, tries')
  {
  }

  lemma {:induction false} DropFields(
      h: map<string, HashValue>, origin: Origins, tries: Counts, tries': Counts, place: Places, owner: Owners,
      id: string, p: Place)
    requires ProcessingOk(h, origin, tries, place, owner) && OwnersOk(origin.Keys, owner)
    requires place.Keys == origin.Keys == tries.Keys == tries'.Keys && At(place, id, Working) && !p.Working?
    requires forall a :: a in tries && a != id ==> tries'[a] == tries[a]
    ensures ProcessingOk(h - {id, StampKey(id)}, origin, tries', place[id := p], owner)
  {
    hide HasFields; hide FieldsOwned; hide OwnersOk; hide WorkingIds; hide StampKey;
    var h', place' := h - {id, StampKey(id)}, place[id := p];
    assert id in h && StampKey(id) in h by { HasFieldsMeans(h, id, origin, tries); }
    OneLessWorking(place, id, p);
    TwoFewerFields(h, id);
    DroppedStayOwned(h, origin.Keys, place, owner, id, p);
    OthersKeepFields(h, h', origin, tries, tries', place, owner, id);
  }

  /** Removing fields nobody owns removes nothing. */
  lemma {:induction false} DropNothing(
      h: map<string, HashValue>, origin: Origins, tries: Counts, place: Places, owner: Owners, id: string)
    requires ProcessingOk(h, origin, tries, place, owner) && OwnersOk(origin.Keys, owner)
    requires place.Keys == origin.Keys && !At(place, id, Working) && !Clashes(id, origin.Keys)
    ensures id !in h && StampKey(id) !in h
  {
    if StampKey(id) in h {
      var a := owner[StampKey(id)];
      if StampKey(id) == StampKey(a) { StampKeyInjective(id, a); }
    }
  }

  lemma {:induction false} QueueGains(
      queue: map<Record, int>, origin: Origins, origin': Origins, tries: Counts, tries': Counts,
      place: Places, r: Record)
    requires QueueOk(queue, origin, tries, place)
    requires forall q :: At(place, r.id, Queued(q)) ==> false
    requires OnBudget(origin', tries', r)
    requires forall a :: a in origin && a != r.id ==> a in origin' && origin'[a] == origin[a]
    requires forall a :: a in tries && a != r.id ==> a in tries' && tries'[a] == tries[a]
    ensures QueueOk(queue[r := -r.priority], origin', tries', place[r.id := Queued(r)])
  {
    forall q | q in queue ensures q.id != r.id { assert At(place, q.id, Queued(q)); }
  }

  lemma {:induction false} QueueStays(
      queue: map<Record, int>, origin: Origins, tries: Counts, tries': Counts, place: Places, id: string, p: Place)
    requires QueueOk(queue, origin, tries, place)
    requires id in place && !place[id].Queued?
    requires forall a :: a in tries && a != id ==> a in tries' && tries'[a] == tries[a]
    ensures QueueOk(queue, origin, tries', place[id := p])
  {
  }

  lemma {:induction false} QueueLoses(
      queue: map<Record, int>, origin: Origins, tries: Counts, place: Places, r: Record, p: Place)
    requires QueueOk(queue, origin, tries, place) && r in queue
    ensures QueueOk(queue - {r}, origin, tries, place[r.id := p])
    ensures At(place, r.id, Queued(r)) && OnBudget(origin, tries, r)
  {
  }

  lemma {:induction false} DlqStays(dlq: seq<DlqEntry>, place: Places, id: string, p: Place)
    requires DlqOk(dlq, place) && (id in place ==> !place[id].Dead?)
    ensures DlqOk(dlq, place[id := p])
  {
  }

  lemma {:induction false} DlqGains(dlq: seq<DlqEntry>, place: Places, e: DlqEntry)
    requires DlqOk(dlq, place) && e.item.id in place && !place[e.item.id].Dead?
    ensures DlqOk([e] + dlq, place[e.item.id := Dead(e)])
  {
  }

  lemma {:induction false} PlacesMove(s: State, s': State, place: Places, id: string, p: Place)
    requires PlacesOk(s, place) && PlaceOk(s', id, p)
    requires forall r :: r in s.queue && r.id != id ==> r in s'.queue
    requires forall e :: e in s.dlq && e.item.id != id ==> e in s'.dlq
    ensures PlacesOk(s', place[id := p])
  {
  }

  lemma {:induction false} OwnersGain(ids: set<string>, owner: Owners, id: string)
    requires OwnersOk(ids, owner) && id !in ids && !Clashes(id, ids)
    ensures OwnersOk(ids + {id}, owner[id := id][StampKey(id) := id])
    ensures id !in owner && StampKey(id) !in owner
  {
    assert |StampKey(id)| == |id| + 10;
    forall a | a in ids ensures a != id && StampKey(a) != id && a != StampKey(id) && StampKey(a) != StampKey(id) {
      if StampKey(a) == StampKey(id) { StampKeyInjective(a, id); }
    }
  }

  lemma {:induction false} SameWorking(place: Places, id: string, p: Place)
    requires !At(place, id, Working) && !p.Working?
    ensures WorkingIds(place[id := p]) == WorkingIds(place)
  {
  }

  lemma {:induction false} FieldsUnderNewId(
      h: map<string, HashValue>, origin: Origins, tries: Counts, a: string, r: Record)
    requires HasFields(h, a, origin, tries) && a != r.id
    ensures HasFields(h, a, origin[r.id := r], tries[r.id := 0])
  {
  }

  lemma {:induction false} OwnedUnderNewId(
      h: map<string, HashValue>, place: Places, owner: Owners, id: string, p: Place)
    requires FieldsOwned(h, place, owner) && id !in place && id !in owner && StampKey(id) !in owner
    ensures FieldsOwned(h, place[id := p], owner[id := id][StampKey(id) := id])
  {
  }

  lemma {:induction false} ProcessingUnderNewId(
      h: map<string, HashValue>, origin: Origins, tries: Counts, place: Places, owner: Owners, r: Record, p: Place)
    requires ProcessingOk(h, origin, tries, place, owner)
    requires r.id !in owner && StampKey(r.id) !in owner && r.id !in place && !p.Working?
    ensures ProcessingOk(h, origin[r.id := r], tries[r.id := 0], place[r.id := p],
                         owner[r.id := r.id][StampKey(r.id) := r.id])
  {
    hide WorkingIds; hide StampKey; hide HasFields; hide FieldsOwned;
    SameWorking(place, r.id, p);
    OwnedUnderNewId(h, place, owner, r.id, p);
    forall id | id in place && place[id].Working? ensures HasFields(h, id, origin[r.id := r], tries[r.id := 0]) {
      FieldsUnderNewId(h, origin, tries, id, r);
    }
  }

  lemma {:induction false} ProduceKeepsInv(w: World, maxSize: int, r: Record, now: int)
    requires Inv(w) && Enabled(w, Produce(r, now))
    ensures Inv(Produced(w, maxSize, r, now))
  {
    hide QueueOk; hide ProcessingOk; hide DlqOk; hide PlacesOk; hide OwnersOk;
    if !Full(w.s, maxSize) {
      var w', stored := Produced(w, maxSize, r, now), Stamped(r, now);
      OwnersGain(w.origin.Keys, w.owner, r.id);
      assert w'.origin.Keys == w.origin.Keys + {r.id};
      QueueGains(w.s.queue, w.origin, w'.origin, w.tries, w'.tries, w.place, stored);
      ProcessingUnderNewId(w.s.processing, w.origin, w.tries, w.place, w.owner, stored, Queued(stored));
      DlqStays(w.s.dlq, w.place, r.id, Queued(stored));
      PlacesMove(w.s, w'.s, w.place, r.id, Queued(stored));
    }
  }

  lemma {:induction false} TakeKeepsInv(w: World, r: Record, now: int)
    requires Inv(w) && r in w.s.queue
    ensures Inv(Taken(w, r, now))
  {
    hide QueueOk; hide ProcessingOk; hide DlqOk; hide PlacesOk; hide OwnersOk;
    var w' := Taken(w, r, now);
    QueueLoses(w.s.queue, w.origin, w.tries, w.place, r, Working);
    PutFields(w.s.processing, w.origin, w.tries, w.place, w.owner, r, now);
    DlqStays(w.s.dlq, w.place, r.id, Working);
    PlacesMove(w.s, w'.s, w.place, r.id, Working);
  }

  lemma {:induction false} HeldIsWorking(w: World, id: string)
    requires Inv(w) && !Clashes(id, w.origin.Keys)
    ensures Holds(w.s, id) <==> At(w.place, id, Working)
  {
  }

  lemma {:induction false} FinishKeepsInv(w: World, id: string)
    requires Inv(w) && !Clashes(id, w.origin.Keys)
    ensures Inv(Finished(w, id))
  {
    hide QueueOk; hide ProcessingOk; hide DlqOk; hide PlacesOk; hide OwnersOk; hide StampKey;
    HeldIsWorking(w, id);
    if At(w.place, id, Working) {
      var w', p := Finished(w, id), Gone(Completed);
      DropFields(w.s.processing, w.origin, w.tries, w.tries, w.place, w.owner, id, p);
      QueueStays(w.s.queue, w.origin, w.tries, w.tries, w.place, id, p);
      DlqStays(w.s.dlq, w.place, id, p);
      PlacesMove(w.s, w'.s, w.place, id, p);
    } else {
      DropNothing(w.s.processing, w.origin, w.tries, w.place, w.owner, id);
      assert w.s.processing - {id, StampKey(id)} == w.s.processing;
    }
  }

  lemma {:induction false} BuryKeepsInv(w: World, r: Record, reason: string, now: int, tries': Counts)
    requires Inv(w) && At(w.place, r.id, Working)
    requires tries'.Keys == w.tries.Keys && forall a :: a in w.tries && a != r.id ==> tries'[a] == w.tries[a]
    ensures Inv(BuriedIn(w, r, reason, now).(tries := tries'))
  {
    hide QueueOk; hide ProcessingOk; hide DlqOk; hide PlacesOk; hide OwnersOk;
    var w', e := BuriedIn(w, r, reason, now), DlqEntry(r, reason, now, r.retries);
    DropFields(w.s.processing, w.origin, w.tries, tries', w.place, w.owner, r.id, Dead(e));
    QueueStays(w.s.queue, w.origin, w.tries, tries', w.place, r.id, Dead(e));
    DlqGains(w.s.dlq, w.place, e);
    PlacesMove(w.s, w'.s, w.place, r.id, Dead(e));
  }

  lemma {:induction false} BudgetAfterRetry(w: World, r: Record, now: int)
    requires Inv(w) && InHand(w.s, r) && At(w.place, r.id, Working) && !Exhausted(r)
    ensures OnBudget(w.origin, w.tries[r.id := Tries(w, r.id) + 1], Requeued(r, now))
  {
  }

  /** What a retry does, by the branch it takes. */
  lemma {:induction false} RetryAdds(w: World, maxSize: int, r: Record, now: int)
    ensures var s, w' := w.s, Retried(w, maxSize, r, now);
      && w'.origin == w.origin && w'.owner == w.owner && w'.tries == w.tries[r.id := Tries(w, r.id) + 1]
      && w'.s.processing == s.processing - {r.id, StampKey(r.id)}
      && if Exhausted(r) then
           var e := DlqEntry(Bumped(r, now), "max retries exceeded", now, r.retries + 1);
           w'.s.queue == s.queue && w'.s.dlq == [e] + s.dlq && w'.place == w.place[r.id := Dead(e)]
         else if Full(s, maxSize) then
           w'.s.queue == s.queue && w'.s.dlq == s.dlq && w'.place == w.place[r.id := Gone(Dropped)]
         else
           Requeued(r, now).id == r.id && w'.s.queue == Inserted(s, Requeued(r, now)).queue && w'.s.dlq == s.dlq
           && w'.place == w.place[r.id := Queued(Requeued(r, now))]
  {
    hide StampKey;
  }

  lemma {:induction false} RetryKeepsInv(w: World, maxSize: int, r: Record, now: int)
    requires Inv(w) && InHand(w.s, r) && At(w.place, r.id, Working)
    ensures Inv(Retried(w, maxSize, r, now))
  {
    hide QueueOk; hide ProcessingOk; hide DlqOk; hide PlacesOk; hide OwnersOk; hide OnBudget; hide StampKey;
    if Exhausted(r) {
      BuryKeepsInv(w, Bumped(r, now), "max retries exceeded", now, Retried(w, maxSize, r, now).tries);
    } else if Full(w.s, maxSize) {
      RefusalKeepsInv(w, maxSize, r, now);
    } else {
      RequeueKeepsInv(w, maxSize, r, now);
    }
  }

  lemma {:induction false} RefusalKeepsInv(w: World, maxSize: int, r: Record, now: int)
    requires Inv(w) && InHand(w.s, r) && At(w.place, r.id, Working) && !Exhausted(r) && Full(w.s, maxSize)
    ensures Inv(Retried(w, maxSize, r, now))
  {
    RetryAdds(w, maxSize, r, now);
    hide QueueOk; hide ProcessingOk; hide DlqOk; hide PlacesOk; hide OwnersOk; hide StampKey; hide Retried;
    var w', p := Retried(w, maxSize, r, now), Gone(Dropped);
    DropFields(w.s.processing, w.origin, w.tries, w'.tries, w.place, w.owner, r.id, p);
    DlqStays(w.s.dlq, w.place, r.id, p);
    QueueStays(w.s.queue, w.origin, w.tries, w'.tries, w.place, r.id, p);
    PlacesMove(w.s, w'.s, w.place, r.id, p);
  }

  lemma {:induction false} RequeueKeepsInv(w: World, maxSize: int, r: Record, now: int)
    requires Inv(w) && InHand(w.s, r) && At(w.place, r.id, Working) && !Exhausted(r) && !Full(w.s, maxSize)
    ensures Inv(Retried(w, maxSize, r, now))
  {
    hide QueueOk; hide ProcessingOk; hide DlqOk; hide PlacesOk; hide OwnersOk; hide OnBudget; hide StampKey;
    hide Retried; hide InHand; hide Exhausted; hide Full; hide Requeued; hide Tries;
    BudgetAfterRetry(w, r, now);
    RetryAdds(w, maxSize, r, now);
    var w', back := Retried(w, maxSize, r, now), Requeued(r, now);
    var p := Queued(back);
    DropFields(w.s.processing, w.origin, w.tries, w'.tries, w.place, w.owner, r.id, p);
    DlqStays(w.s.dlq, w.place, r.id, p);
    QueueGains(w.s.queue, w.origin, w.origin, w.tries, w'.tries, w.place, back);
    PlacesMove(w.s, w'.s, w.place, r.id, p);
  }

  lemma {:induction false} ProcessingAfterClear(w: World)
    requires ProcessingOk(w.s.processing, w.origin, w.tries, w.place, w.owner)
    ensures ProcessingOk(w.s.processing, w.origin, w.tries, ClearedDlq(w).place, w.owner)
  {
    hide HasFields;
    assert WorkingIds(ClearedDlq(w).place) == WorkingIds(w.place);
  }

  lemma {:induction false} ClearKeepsInv(w: World)
    requires Inv(w)
    ensures Inv(ClearedDlq(w))
  {
    hide ProcessingOk; hide OwnersOk; hide OnBudget;
    ProcessingAfterClear(w);
  }

  // ---- a recovery is a run of retries ----

  lemma {:induction false} PayloadIsWorking(w: World, k: string)
    requires Inv(w) && Holds(w.s, k)
    ensures At(w.place, k, Working) && HasFields(w.s.processing, k, w.origin, w.tries)
  {
  }

  /** Where a retry of an item in processing leaves it. */
  function AfterRetry(full: bool, r: Record, now: int): Place {
    if Exhausted(r) then Dead(DlqEntry(Bumped(r, now), "max retries exceeded", now, r.retries + 1))
    else if full then Gone(Dropped) else Queued(Requeued(r, now))
  }

  predicate SameField(s: State, s': State, k: string) {
    k in s.processing && k in s'.processing && s'.processing[k] == s.processing[k]
  }

  ghost predicate Untouched(w: World, w': World, k: string) {
    && At(w'.place, k, Working) && SameField(w.s, w'.s, k) && SameField(w.s, w'.s, StampKey(k))
  }

  lemma {:induction false} RetryDropsOnly(s: State, maxSize: int, r: Record, now: int)
    ensures RetryStep(s, maxSize, r, now).state.processing == s.processing - {r.id, StampKey(r.id)}
  {
  }

  lemma {:induction false} PlacesApart(w: World, a: string, b: string)
    requires Inv(w) && a in w.place && b in w.place && a != b
    ensures a != StampKey(b) && StampKey(a) != b && StampKey(a) != StampKey(b)
  {
  }

  lemma {:induction false} RetryLeavesOthers(w: World, maxSize: int, r: Record, now: int, k: string)
    requires Inv(w) && At(w.place, r.id, Working) && At(w.place, k, Working) && k != r.id
    ensures Untouched(w, Retried(w, maxSize, r, now), k)
  {
    hide Inv; hide RetryStep; hide StampKey; hide OnBudget;
    PlaceHasFields(w, k);
    PlacesApart(w, k, r.id);
    RetryDropsOnly(w.s, maxSize, r, now);
  }

  lemma {:induction false} RetryMovesOne(w: World, maxSize: int, r: Record, now: int)
    requires Inv(w) && InHand(w.s, r)
    ensures var w' := Retried(w, maxSize, r, now);
      && Inv(w') && w'.origin == w.origin
      && w'.place == w.place[r.id := AfterRetry(Full(w.s, maxSize), r, now)]
      && forall k :: At(w.place, k, Working) && k != r.id ==> Untouched(w, w', k)
  {
    hide Inv; hide Untouched; hide StampKey;
    PayloadIsWorking(w, r.id);
    RetryKeepsInv(w, maxSize, r, now);
    forall k | At(w.place, k, Working) && k != r.id ensures Untouched(w, Retried(w, maxSize, r, now), k) {
      RetryLeavesOthers(w, maxSize, r, now, k);
    }
  }

  /** Distinct keys of payloads: what a recovery visits. */
  predicate Visits(h: map<string, HashValue>, order: seq<string>) {
    && (forall k :: k in order ==> k in h && h[k].Payload?)
    && forall i, j :: 0 <= i < j < |order| ==> order[i] != order[j]
  }

  lemma {:induction false} StillUntouched(w: World, before: World, after: World, prior: seq<string>, order: seq<string>)
    requires |order| == |prior| + 1 && prior == order[..|prior|]
    requires forall k :: At(w.place, k, Working) && k !in prior ==> Untouched(w, before, k)
    requires forall k :: At(before.place, k, Working) && k != order[|prior|] ==> Untouched(before, after, k)
    ensures forall k :: At(w.place, k, Working) && k !in order ==> Untouched(w, after, k)
  {
  }

  /** Retrying the snapshot one key at a time: each key is still in hand when its turn comes, so the
      recovery the client runs and the retries of the history are the same run. */
  lemma {:induction false} RecoverIsRetries(w: World, maxSize: int, order: seq<string>, now: int)
    requires Inv(w) && Visits(w.s.processing, order)
    ensures var w' := RetriedAll(w, maxSize, w.s.processing, order, now);
      && Inv(w') && w'.origin == w.origin
      && w'.s == RecoverSteps(w.s, maxSize, w.s.processing, order, now)
      && (forall k :: At(w.place, k, Working) && k !in order ==> Untouched(w, w', k))
      && (forall k :: k in w.place && k !in order ==> At(w'.place, k, w.place[k]))
      && (maxSize <= 0 ==> forall k :: k in order ==> At(w'.place, k, AfterRetry(false, w.s.processing[k].item, now)))
    decreases |order|
  {
    hide Inv; hide StampKey; hide RetryStep;
    if order == [] {
      forall k | At(w.place, k, Working) ensures Untouched(w, w, k) { PlaceHasFields(w, k); }
    } else {
      var n := |order| - 1;
      var k, prior := order[n], order[..n];
      var h := w.s.processing;
      assert forall a :: a in prior ==> a in order;
      RecoverIsRetries(w, maxSize, prior, now);
      var before := RetriedAll(w, maxSize, h, prior, now);
      PayloadIsWorking(w, k);
      assert k !in prior;
      assert Untouched(w, before, k);
      PayloadIsWorking(before, k);
      RetryMovesOne(before, maxSize, h[k].item, now);
      hide Retried;
      StillUntouched(w, before, Retried(before, maxSize, h[k].item, now), prior, order);
    }
  }

  lemma {:induction false} PlaceHasFields(w: World, k: string)
    requires Inv(w) && At(w.place, k, Working)
    ensures HasFields(w.s.processing, k, w.origin, w.tries)
  {
  }

  // ---- whole runs ----

  lemma {:induction false} StepKeepsInv(w: World, maxSize: int, op: Op)
    requires Inv(w) && Enabled(w, op)
    ensures Inv(Apply(w, maxSize, op))
  {
    hide Inv;
    match op
    case Produce(r, now) => ProduceKeepsInv(w, maxSize, r, now);
    case Take(r, now) => TakeKeepsInv(w, r, now);
    case Finish(id) => FinishKeepsInv(w, id);
    case Again(r, now) => RetryMovesOne(w, maxSize, r, now);
    case Bury(r, reason, now) =>
      PayloadIsWorking(w, r.id);
      BuryKeepsInv(w, r, reason, now, w.tries);
    case Recover(order, _, now) => RecoverIsRetries(w, maxSize, order, now);
    case Clear => ClearKeepsInv(w);
  }

  lemma {:induction false} RunKeepsInv(w: World, maxSize: int, ops: seq<Op>)
    requires Inv(w) && Runs(w, maxSize, ops)
    ensures Inv(Final(w, maxSize, ops))
    decreases |ops|
  {
    hide Inv;
    if ops != [] {
      StepKeepsInv(w, maxSize, ops[0]);
      RunKeepsInv(Apply(w, maxSize, ops[0]), maxSize, ops[1..]);
    }
  }

  function QueueIds(s: State): set<string> { set r | r in s.queue :: r.id }

  function HeldIds(s: State): set<string> { set k | k in s.processing && s.processing[k].Payload? }

  function DeadIds(s: State): set<string> { set e | e in s.dlq :: e.item.id }

  function GoneIds(place: Places): set<string> { set id | id in place && place[id].Gone? }

  function QueuedPlaces(place: Places): set<string> { set id | id in place && place[id].Queued? }

  function DeadPlaces(place: Places): set<string> { set id | id in place && place[id].Dead? }

  lemma {:induction false} QueueIdsArePlaces(w: World)
    requires QueueOk(w.s.queue, w.origin, w.tries, w.place) && PlacesOk(w.s, w.place)
    ensures QueueIds(w.s) == QueuedPlaces(w.place)
  {
  }

  lemma {:induction false} QueueIdsCount(w: World)
    requires QueueOk(w.s.queue, w.origin, w.tries, w.place)
    ensures |QueueIds(w.s)| == |w.s.queue|
  {
    hide OnBudget;
    var f := (r: Record) => r.id;
    forall q, r | q in w.s.queue.Keys && r in w.s.queue.Keys && f(q) == f(r) ensures q == r {
      assert At(w.place, q.id, Queued(q)) && At(w.place, r.id, Queued(r));
    }
    ImageSize(w.s.queue.Keys, f);
    var image := Image(w.s.queue.Keys, f);
    forall id | id in QueueIds(w.s) ensures id in image {
      var r :| r in w.s.queue && r.id == id;
      assert f(r) == id;
    }
    assert QueueIds(w.s) == image;
  }

  lemma {:induction false} DeadIdsArePlaces(w: World)
    requires DlqOk(w.s.dlq, w.place) && PlacesOk(w.s, w.place)
    ensures DeadIds(w.s) == DeadPlaces(w.place)
  {
  }

  lemma {:induction false} DeadIdsCount(w: World)
    requires DlqOk(w.s.dlq, w.place)
    ensures |DeadIds(w.s)| == |w.s.dlq|
  {
    var entries := set e | e in w.s.dlq;
    var f := (e: DlqEntry) => e.item.id;
    DistinctSize(w.s.dlq);
    forall d, e | d in entries && e in entries && f(d) == f(e) ensures d == e {
      assert At(w.place, d.item.id, Dead(d)) && At(w.place, e.item.id, Dead(e));
    }
    ImageSize(entries, f);
    var image := Image(entries, f);
    forall id | id in DeadIds(w.s) ensures id in image {
      var e :| e in w.s.dlq && e.item.id == id;
      assert e in entries && f(e) == id;
    }
    assert DeadIds(w.s) == image;
  }

  lemma {:induction false} HeldIdsAreWorking(w: World)
    requires Inv(w)
    ensures HeldIds(w.s) == WorkingIds(w.place) && |w.s.processing| == 2 * |HeldIds(w.s)|
  {
    hide QueueOk; hide DlqOk; hide PlacesOk; hide StampKey;
    forall k | k in HeldIds(w.s) ensures k in WorkingIds(w.place) { PayloadIsWorking(w, k); }
    forall k | k in WorkingIds(w.place) ensures k in HeldIds(w.s) { PlaceHasFields(w, k); }
  }

  /** Every member is in exactly one part. */
  predicate IsSplit(all: set<string>, a: set<string>, b: set<string>, c: set<string>, d: set<string>) {
    a + b + c + d == all && a !! b !! c !! d
  }

  ghost predicate PlacesSplit(w: World) {
    IsSplit(w.origin.Keys, HeldIds(w.s), QueueIds(w.s), DeadIds(w.s), GoneIds(w.place))
  }

  /** The hash has two fields for each held item, and what the client reports together with what has
      left is what was accepted. */
  ghost predicate SizesAddUp(w: World) {
    && |w.s.processing| == 2 * |HeldIds(w.s)|
    && |w.s.queue| + |w.s.processing| / 2 + |w.s.dlq| + |GoneIds(w.place)| == |w.origin|
  }

  /** Each accepted ID is in exactly one of queue, processing, dead-letter list and history, and the
      sizes account for every accepted item. */
  ghost predicate Accounted(w: World) { PlacesSplit(w) && SizesAddUp(w) }

  lemma {:induction false} IdsArePlaces(w: World)
    requires Inv(w)
    ensures QueueIds(w.s) == QueuedPlaces(w.place) && HeldIds(w.s) == WorkingIds(w.place)
    ensures DeadIds(w.s) == DeadPlaces(w.place)
  {
    hide QueueOk; hide ProcessingOk; hide DlqOk; hide PlacesOk; hide OwnersOk;
    hide QueueIds; hide HeldIds; hide DeadIds;
    QueueIdsArePlaces(w);
    HeldIdsAreWorking(w);
    DeadIdsArePlaces(w);
  }

  lemma {:induction false} IdsCount(w: World)
    requires Inv(w)
    ensures |QueueIds(w.s)| == |w.s.queue| && |DeadIds(w.s)| == |w.s.dlq|
    ensures |w.s.processing| == 2 * |HeldIds(w.s)|
  {
    hide QueueOk; hide ProcessingOk; hide DlqOk; hide PlacesOk; hide OwnersOk;
    hide QueueIds; hide HeldIds; hide DeadIds;
    QueueIdsCount(w);
    HeldIdsAreWorking(w);
    DeadIdsCount(w);
  }

  lemma {:induction false} PlacesPartition(place: Places)
    ensures IsSplit(place.Keys, WorkingIds(place), QueuedPlaces(place), DeadPlaces(place), GoneIds(place))
  {
  }

  lemma {:induction false} InvAccounts(w: World)
    requires Inv(w)
    ensures Accounted(w)
  {
    assert w.place.Keys == w.origin.Keys && |w.origin.Keys| == |w.origin|;
    hide Inv; hide QueueIds; hide HeldIds; hide DeadIds; hide GoneIds; hide QueuedPlaces; hide WorkingIds;
    hide DeadPlaces; hide IsSplit;
    IdsArePlaces(w);
    IdsCount(w);
    PlacesPartition(w.place);
    CountPlaces(w.place, WorkingIds(w.place), QueuedPlaces(w.place), DeadPlaces(w.place), GoneIds(w.place));
  }

  /** Conservation, for every size limit and every run of the operations. */
  lemma {:induction false} Conservation(maxSize: int, ops: seq<Op>)
    requires Runs(EMPTY, maxSize, ops)
    ensures Accounted(Final(EMPTY, maxSize, ops))
  {
    hide Inv; hide Accounted;
    EmptyIsInv();
    RunKeepsInv(EMPTY, maxSize, ops);
    InvAccounts(Final(EMPTY, maxSize, ops));
  }

  lemma {:induction false} EmptyIsInv()
    ensures Inv(EMPTY)
  {
  }

  lemma {:induction false} CountPlaces(
      place: Places, a: set<string>, b: set<string>, c: set<string>, d: set<string>)
    requires IsSplit(place.Keys, a, b, c, d)
    ensures |a| + |b| + |c| + |d| == |place.Keys|
  {
    assert |a + b| == |a| + |b| && |a + b + c| == |a + b| + |c|;
    assert |a + b + c + d| == |a + b + c| + |d|;
  }
}
