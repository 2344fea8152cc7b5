/** Enqueue reads the size with one command and inserts with another. Here any number of clients
    interleave these two steps with each other and with dequeues. The limit is positive: without one
    there is no check. */
module QueueRace {
  import opened Options
  import opened RedisQueue

  /** `passed[c]` is the record client c may insert since its size check succeeded. */
  datatype Race = Race(queue: set<Record>, passed: seq<Option<Record>>)

  datatype Move = Check(client: nat, item: Record) | Insert(client: nat) | Dequeue(item: Record)

  predicate Enabled(s: Race, m: Move) {
    match m
    case Check(c, _) => c < |s.passed| && s.passed[c].None?
    case Insert(c) => c < |s.passed| && s.passed[c].Some?
    case Dequeue(r) => r in s.queue
  }

  function Apply(s: Race, maxSize: nat, m: Move): Race
    requires Enabled(s, m)
  {
    match m
    case Check(c, r) => if |s.queue| >= maxSize then s else s.(passed := s.passed[c := Some(r)])
    case Insert(c) => Race(s.queue + {s.passed[c].value}, s.passed[c := None])
    case Dequeue(r) => s.(queue := s.queue - {r})
  }

  predicate Runs(s: Race, maxSize: nat, moves: seq<Move>)
    decreases |moves|
  {
    moves == [] || (Enabled(s, moves[0]) && Runs(Apply(s, maxSize, moves[0]), maxSize, moves[1..]))
  }

  function Final(s: Race, maxSize: nat, moves: seq<Move>): Race
    requires Runs(s, maxSize, moves)
    decreases |moves|
  {
    if moves == [] then s else Final(Apply(s, maxSize, moves[0]), maxSize, moves[1..])
  }

  /** Clients between their check and their insert. */
  function Pending(passed: seq<Option<Record>>): nat {
    if passed == [] then 0 else (if passed[0].Some? then 1 else 0) + Pending(passed[1..])
  }

  lemma {:induction false} PendingUpdate(passed: seq<Option<Record>>, c: nat, p: Option<Record>)
    requires c < |passed|
    ensures Pending(passed[c := p]) ==
            Pending(passed) - (if passed[c].Some? then 1 else 0) + (if p.Some? then 1 else 0)
    decreases |passed|
  {
    if c > 0 {
      assert passed[c := p][1..] == passed[1..][c - 1 := p];
      PendingUpdate(passed[1..], c - 1, p);
    }
  }

  lemma {:induction false} PendingAtMost(passed: seq<Option<Record>>)
    ensures Pending(passed) <= |passed|
    decreases |passed|
  {
    if passed != [] { PendingAtMost(passed[1..]); }
  }

  /** The queue together with the inserts already allowed. */
  predicate Bounded(s: Race, maxSize: nat) {
    |s.queue| + Pending(s.passed) <= maxSize + |s.passed| - 1
  }

  lemma {:induction false} StepKeepsBound(s: Race, maxSize: nat, m: Move)
    requires Enabled(s, m) && Bounded(s, maxSize)
    ensures Bounded(Apply(s, maxSize, m), maxSize)
  {
    match m
    case Check(c, r) =>
      PendingUpdate(s.passed, c, Some(r));
      PendingAtMost(s.passed[c := Some(r)]);
    case Insert(c) => PendingUpdate(s.passed, c, None);
    case Dequeue(_) =>
  }

  /** k racing clients overshoot the limit by at most k - 1, and a single client never does. */
  lemma {:induction false} SizeLimitUnderRace(s: Race, maxSize: nat, moves: seq<Move>)
    requires maxSize > 0 && Runs(s, maxSize, moves) && Bounded(s, maxSize)
    ensures Bounded(Final(s, maxSize, moves), maxSize)
    ensures |Final(s, maxSize, moves).passed| == |s.passed|
    ensures |Final(s, maxSize, moves).queue| <= maxSize + |s.passed| - 1
    decreases |moves|
  {
    if moves != [] {
      StepKeepsBound(s, maxSize, moves[0]);
      SizeLimitUnderRace(Apply(s, maxSize, moves[0]), maxSize, moves[1..]);
    }
  }

  /** One client's Enqueue that nobody interrupts is its check followed, if that passed, by its insert. */
  lemma {:induction false} EnqueueIsCheckThenInsert(s: State, maxSize: nat, r: Record, now: int)
    requires maxSize > 0
    ensures var race := Race(s.queue.Keys, [None]);
      var step := EnqueueStep(s, maxSize, r, now);
      var moves := [Check(0, Stamped(r, now))] + if step.outcome.Ok? then [Insert(0)] else [];
      && Runs(race, maxSize, moves)
      && Final(race, maxSize, moves) == Race(step.state.queue.Keys, [None])
  {
    var race, check := Race(s.queue.Keys, [None]), Check(0, Stamped(r, now));
    var checked := Apply(race, maxSize, check);
    assert |s.queue.Keys| == |s.queue|;
    if Full(s, maxSize) {
      RunThen(race, maxSize, check, []);
    } else {
      assert [Insert(0)] + [] == [Insert(0)];
      RunThen(checked, maxSize, Insert(0), []);
      RunThen(race, maxSize, check, [Insert(0)]);
    }
  }

  // ---- the bound is reached ----

  lemma {:induction false} RunThen(s: Race, maxSize: nat, m: Move, rest: seq<Move>)
    requires Enabled(s, m) && Runs(Apply(s, maxSize, m), maxSize, rest)
    ensures Runs(s, maxSize, [m] + rest)
    ensures Final(s, maxSize, [m] + rest) == Final(Apply(s, maxSize, m), maxSize, rest)
  {
  }

  function Numbered(n: int): Record { Record("", "", n, 0, 0, None, 0) }

  /** Clients c, c + 1, ... have passed their checks with distinct new records: let them insert. */
  lemma {:induction false} InsertAll(s: Race, maxSize: nat, c: nat) returns (moves: seq<Move>)
    requires c <= |s.passed|
    requires forall i :: c <= i < |s.passed| ==> s.passed[i] == Some(Numbered(i))
    requires forall r :: r in s.queue ==> r.priority < c
    ensures Runs(s, maxSize, moves)
    ensures |Final(s, maxSize, moves).queue| == |s.queue| + |s.passed| - c
    decreases |s.passed| - c
  {
    moves := [];
    if c < |s.passed| {
      var rest := InsertAll(Apply(s, maxSize, Insert(c)), maxSize, c + 1);
      assert Numbered(c) !in s.queue;
      RunThen(s, maxSize, Insert(c), rest);
      moves := [Insert(c)] + rest;
    }
  }

  /** Below the limit every idle client passes its check; then all of them insert. */
  lemma {:induction false} CheckAll(s: Race, maxSize: nat, c: nat) returns (moves: seq<Move>)
    requires c <= |s.passed| && |s.queue| < maxSize
    requires forall i :: 0 <= i < c ==> s.passed[i] == Some(Numbered(i))
    requires forall i :: c <= i < |s.passed| ==> s.passed[i] == None
    requires forall r :: r in s.queue ==> r.priority < 0
    ensures Runs(s, maxSize, moves)
    ensures |Final(s, maxSize, moves).queue| == |s.queue| + |s.passed|
    decreases |s.passed| - c
  {
    if c == |s.passed| {
      moves := InsertAll(s, maxSize, 0);
    } else {
      var m := Check(c, Numbered(c));
      var rest := CheckAll(Apply(s, maxSize, m), maxSize, c + 1);
      RunThen(s, maxSize, m, rest);
      moves := [m] + rest;
    }
  }

  /** Client 0 alone fills the queue to one below the limit; then everybody races. */
  lemma {:induction false} FillThenRace(s: Race, maxSize: nat) returns (moves: seq<Move>)
    requires |s.queue| < maxSize && s.passed != []
    requires forall i :: 0 <= i < |s.passed| ==> s.passed[i] == None
    requires forall r :: r in s.queue ==> |s.queue| - maxSize >= r.priority + 1
    ensures Runs(s, maxSize, moves)
    ensures |Final(s, maxSize, moves).queue| == maxSize + |s.passed| - 1
    decreases maxSize - |s.queue|
  {
    if |s.queue| == maxSize - 1 {
      moves := CheckAll(s, maxSize, 0);
    } else {
      var r := Numbered(|s.queue| - maxSize);
      var check := Check(0, r);
      var s1 := Apply(s, maxSize, check);
      var s2 := Apply(s1, maxSize, Insert(0));
      assert r !in s.queue && s2.passed == s.passed;
      var rest := FillThenRace(s2, maxSize);
      RunThen(s1, maxSize, Insert(0), rest);
      RunThen(s, maxSize, check, [Insert(0)] + rest);
      moves := [check] + ([Insert(0)] + rest);
    }
  }

  /** For every limit and every number of clients some run overshoots by exactly k - 1. */
  lemma {:induction false} OvershootIsReached(maxSize: nat, clients: nat) returns (moves: seq<Move>)
    requires maxSize > 0 && clients > 0
    ensures Runs(Race({}, seq(clients, i => None)), maxSize, moves)
    ensures |Final(Race({}, seq(clients, i => None)), maxSize, moves).queue| == maxSize + clients - 1
  {
    moves := FillThenRace(Race({}, seq(clients, i => None)), maxSize);
  }
}
