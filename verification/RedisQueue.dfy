/** The Redis work queue: a sorted set of waiting items, a hash of items in processing and a
    dead-letter list. `State` is what Redis holds; the class updates it as the Go client does. */
module RedisQueue {
  import opened Options
  import opened Durations

  const STAMP_SUFFIX := ":timestamp"
  const RETRY_PENALTY := 10

  /** One JSON-encoded item, as it is stored. `createdAt == None` is Go's zero time. */
  datatype Record = Record(
    id: string, data: string, priority: int, retries: int, maxRetries: int,
    createdAt: Option<int>, updatedAt: int)

  datatype HashValue = Payload(item: Record) | Stamp(at: int)

  datatype DlqEntry = DlqEntry(item: Record, reason: string, movedAt: int, finalRetry: int)

  datatype State = State(queue: map<Record, int>, processing: map<string, HashValue>, dlq: seq<DlqEntry>)

  datatype Error = QueueEmpty | QueueFull

  datatype Outcome = Ok | Failed(error: Error)

  function StampKey(id: string): string { id + STAMP_SUFFIX }

  /** The test RecoverStale uses to skip timestamp fields; a ten-character key is not skipped. */
  predicate IsStampKey(key: string) {
    |key| > 10 && key[|key| - 10..] == STAMP_SUFFIX
  }

  lemma {:induction false} StampKeyInjective(a: string, b: string)
    requires StampKey(a) == StampKey(b)
    ensures a == b
  {
    assert a == StampKey(a)[..|StampKey(a)| - 10];
    assert b == StampKey(b)[..|StampKey(b)| - 10];
  }

  // ---- the single commands, as functions of what Redis holds ----

  predicate Full(s: State, maxSize: int) { maxSize > 0 && |s.queue| >= maxSize }

  function Stamped(r: Record, now: int): Record {
    r.(createdAt := if r.createdAt.None? then Some(now) else r.createdAt, updatedAt := now)
  }

  function Inserted(s: State, r: Record): State {
    s.(queue := s.queue[r := -r.priority])
  }

  function Removed(s: State, id: string): State {
    s.(processing := s.processing - {id, StampKey(id)})
  }

  predicate IsHead(s: State, r: Record) {
    r in s.queue && forall q :: q in s.queue ==> s.queue[r] <= s.queue[q]
  }

  function Popped(s: State, r: Record, now: int): State {
    s.(queue := s.queue - {r},
       processing := s.processing[r.id := Payload(r)][StampKey(r.id) := Stamp(now)])
  }

  function Buried(s: State, r: Record, reason: string, now: int): State {
    Removed(s.(dlq := [DlqEntry(r, reason, now, r.retries)] + s.dlq), r.id)
  }

  function Bumped(r: Record, now: int): Record { r.(retries := r.retries + 1, updatedAt := now) }

  predicate Exhausted(r: Record) { r.retries + 1 >= r.maxRetries }

  /** The record a retry that is not the last one puts back. */
  function Requeued(r: Record, now: int): Record {
    Stamped(Bumped(r, now).(priority := r.priority - RETRY_PENALTY), now)
  }

  datatype Step = Step(state: State, item: Record, outcome: Outcome)

  function EnqueueStep(s: State, maxSize: int, r: Record, now: int): Step {
    if Full(s, maxSize) then Step(s, r, Failed(QueueFull))
    else Step(Inserted(s, Stamped(r, now)), Stamped(r, now), Ok)
  }

  function RetryStep(s: State, maxSize: int, r: Record, now: int): Step {
    if Exhausted(r) then
      Step(Buried(s, Bumped(r, now), "max retries exceeded", now), Bumped(r, now), Ok)
    else
      EnqueueStep(Removed(s, r.id), maxSize, Bumped(r, now).(priority := r.priority - RETRY_PENALTY), now)
  }

  /** What a recovery takes from its snapshot: a payload under a key that does not look like a
      timestamp field, whose own timestamp field is too old. */
  predicate Stale(snapshot: map<string, HashValue>, key: string, timeout: int, now: int) {
    && key in snapshot && !IsStampKey(key) && snapshot[key].Payload?
    && StampKey(key) in snapshot && snapshot[StampKey(key)].Stamp?
    && now - snapshot[StampKey(key)].at > WholeSeconds(timeout)
  }

  /** Retrying the snapshot's payloads under `order`, one after the other. */
  function RecoverSteps(
      s: State, maxSize: int, snapshot: map<string, HashValue>, order: seq<string>, now: int): State
    requires forall k :: k in order ==> k in snapshot && snapshot[k].Payload?
  {
    if order == [] then s else
      var last := |order| - 1;
      RetryStep(RecoverSteps(s, maxSize, snapshot, order[..last], now),
                maxSize, snapshot[order[last]].item, now).state
  }

  function RecoveredCount(
      s: State, maxSize: int, snapshot: map<string, HashValue>, order: seq<string>, now: int): nat
    requires forall k :: k in order ==> k in snapshot && snapshot[k].Payload?
  {
    if order == [] then 0 else
      var last := |order| - 1;
      RecoveredCount(s, maxSize, snapshot, order[..last], now) +
      if RetryStep(RecoverSteps(s, maxSize, snapshot, order[..last], now),
                   maxSize, snapshot[order[last]].item, now).outcome.Ok? then 1 else 0
  }

  /** `order` visits exactly the stale keys of the snapshot, each once. */
  ghost predicate VisitsStale(snapshot: map<string, HashValue>, order: seq<string>, timeout: int, now: int) {
    && (forall k :: k in order <==> Stale(snapshot, k, timeout, now))
    && forall i, j :: 0 <= i < j < |order| ==> order[i] != order[j]
  }

  // ---- the client ----

  /** The item a caller holds by pointer: Enqueue and Retry write to it. */
  class QueueItem {
    var id: string
    var data: string
    var priority: int
    var retries: int
    var maxRetries: int
    var createdAt: Option<int>
    var updatedAt: int

    function Encoded(): Record
      reads this
    {
      Record(id, data, priority, retries, maxRetries, createdAt, updatedAt)
    }

    constructor Decode(r: Record)
      ensures Encoded() == r
    {
      id, data, priority, retries := r.id, r.data, r.priority, r.retries;
      maxRetries, createdAt, updatedAt := r.maxRetries, r.createdAt, r.updatedAt;
    }
  }

  class RedisQueue {
    const maxSize: int
    var queue: map<Record, int>
    var processing: map<string, HashValue>
    var dlq: seq<DlqEntry>

    function Contents(): State
      reads this
    {
      State(queue, processing, dlq)
    }

    constructor (maxSize: int)
      ensures this.maxSize == maxSize && Contents() == State(map[], map[], [])
    {
      this.maxSize := maxSize;
      queue, processing, dlq := map[], map[], [];
    }

    method Enqueue(item: QueueItem, now: int) returns (res: Outcome)
      modifies this`queue, item
      ensures Step(Contents(), item.Encoded(), res) ==
              EnqueueStep(old(Contents()), maxSize, old(item.Encoded()), now)
      ensures res == if maxSize > 0 && |old(queue)| >= maxSize then Failed(QueueFull) else Ok
      ensures res.Ok? ==>
                && item.updatedAt == now
                && item.createdAt == Some(if old(item.createdAt).Some? then old(item.createdAt).value else now)
                && queue == old(queue)[item.Encoded() := -item.priority]
    {
      if maxSize > 0 {
        var size := |queue|;
        if size >= maxSize {
          return Failed(QueueFull);
        }
      }
      if item.createdAt.None? {
        item.createdAt := Some(now);
      }
      item.updatedAt := now;
      var data := item.Encoded();
      queue := queue[data := -item.priority];
      return Ok;
    }

    method Dequeue(now: int) returns (item: QueueItem?, res: Outcome)
      modifies this`queue, this`processing
      ensures res == if old(queue) == map[] then Failed(QueueEmpty) else Ok
      ensures res.Failed? ==> item == null && Contents() == old(Contents())
      ensures res.Ok? ==>
                && item != null && fresh(item)
                && IsHead(old(Contents()), item.Encoded())
                && Contents() == Popped(old(Contents()), item.Encoded(), now)
                && item.id in processing && processing[item.id] == Payload(item.Encoded())
                && StampKey(item.id) in processing && processing[StampKey(item.id)] == Stamp(now)
    {
      if queue.Keys == {} {
        return null, Failed(QueueEmpty);
      }
      HeadExists(Contents());
      var r :| r in queue && forall q :: q in queue ==> queue[r] <= queue[q];
      queue := queue - {r};
      processing := processing[r.id := Payload(r)];
      processing := processing[StampKey(r.id) := Stamp(now)];
      item := new QueueItem.Decode(r);
      return item, Ok;
    }

    method Complete(itemID: string)
      modifies this`processing
      ensures Contents() == Removed(old(Contents()), itemID)
      ensures itemID !in processing && StampKey(itemID) !in processing
      ensures forall k :: k in old(processing) && k != itemID && k != StampKey(itemID) ==>
                k in processing && processing[k] == old(processing)[k]
    {
      processing := processing - {itemID};
      processing := processing - {StampKey(itemID)};
    }

    method Retry(item: QueueItem, now: int) returns (res: Outcome)
      modifies this, item
      ensures Step(Contents(), item.Encoded(), res) ==
              RetryStep(old(Contents()), maxSize, old(item.Encoded()), now)
      ensures item.id == old(item.id) && item.data == old(item.data) && item.maxRetries == old(item.maxRetries)
      ensures item.retries == old(item.retries) + 1 && item.updatedAt == now
      ensures item.id !in processing && StampKey(item.id) !in processing
    {
      item.retries := item.retries + 1;
      item.updatedAt := now;
      if item.retries >= item.maxRetries {
        MoveToDLQ(item, "max retries exceeded", now);
        return Ok;
      }
      Complete(item.id);
      item.priority := item.priority - RETRY_PENALTY;
      res := Enqueue(item, now);
    }

    method MoveToDLQ(item: QueueItem, reason: string, now: int)
      modifies this`dlq, this`processing
      ensures Contents() == Buried(old(Contents()), item.Encoded(), reason, now)
      ensures dlq == [DlqEntry(item.Encoded(), reason, now, item.retries)] + old(dlq)
      ensures item.id !in processing && StampKey(item.id) !in processing
    {
      dlq := [DlqEntry(item.Encoded(), reason, now, item.retries)] + dlq;
      Complete(item.id);
    }

    method ClearDLQ()
      modifies this`dlq
      ensures Contents() == old(Contents()).(dlq := [])
    {
      dlq := [];
    }

    /** The map iteration order is arbitrary; `order` lists the stale keys as they were met. */
    method RecoverStale(timeout: int, now: int) returns (recovered: nat, ghost order: seq<string>)
      modifies this
      ensures VisitsStale(old(processing), order, timeout, now)
      ensures Contents() == RecoverSteps(old(Contents()), maxSize, old(processing), order, now)
      ensures recovered == RecoveredCount(old(Contents()), maxSize, old(processing), order, now)
    {
      var items := processing;
      var unseen := items.Keys;
      recovered, order := 0, [];
      while unseen != {}
        invariant unseen <= items.Keys
        invariant forall k :: k in order <==> k !in unseen && Stale(items, k, timeout, now)
        invariant forall i, j :: 0 <= i < j < |order| ==> order[i] != order[j]
        invariant Contents() == RecoverSteps(old(Contents()), maxSize, items, order, now)
        invariant recovered == RecoveredCount(old(Contents()), maxSize, items, order, now)
        decreases unseen
      {
        var key :| key in unseen;
        unseen := unseen - {key};
        if IsStampKey(key) {
          continue;
        }
        if StampKey(key) !in items || !items[StampKey(key)].Stamp? {
          continue;
        }
        if now - items[StampKey(key)].at > WholeSeconds(timeout) {
          if !items[key].Payload? {
            continue;
          }
          var item := new QueueItem.Decode(items[key].item);
          var res := Retry(item, now);
          ghost var before := order;
          order := order + [key];
          assert order[..|order| - 1] == before;
          if res.Ok? {
            recovered := recovered + 1;
          }
        }
      }
    }

    method Size() returns (n: nat)
      ensures n == |Contents().queue|
    {
      n := |queue|;
    }

    method ProcessingCount() returns (n: nat)
      ensures n == |Contents().processing| / 2
    {
      n := |processing| / 2;
    }

    method DLQSize() returns (n: nat)
      ensures n == |Contents().dlq|
    {
      n := |dlq|;
    }
  }

  lemma {:induction false} HeadExists(s: State)
    requires s.queue.Keys != {}
    ensures exists r :: IsHead(s, r)
  {
    var r := LeastScore(s.queue, s.queue.Keys);
    assert IsHead(s, r);
  }

  lemma {:induction false} LeastScore(scores: map<Record, int>, rs: set<Record>) returns (least: Record)
    requires rs != {} && rs <= scores.Keys
    ensures least in rs && forall q :: q in rs ==> scores[least] <= scores[q]
    decreases rs
  {
    least :| least in rs;
    if rs != {least} {
      var other := LeastScore(scores, rs - {least});
      if scores[other] < scores[least] {
        least := other;
      }
    }
  }
}
