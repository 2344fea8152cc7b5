/** Runs of the lease lock: workers take, extend and drop leases while the clock moves, Redis evicts
    dead keys and workers die. A worker holds at most one lease at a time. */
module LeaseRuns {
  import opened Options
  import opened RedisLock

  /** What the holder believes, and the number of the acquisition that gave it the lease. */
  datatype Lease = Lease(key: string, deadline: Option<int>, acquisition: nat)

  /** `ids` gives each worker the value it writes; `creator[k]` is the acquisition that wrote key k. */
  datatype World = World(
    s: Server, ids: map<nat, string>, leases: map<nat, Lease>, creator: map<string, nat>, next: nat)

  datatype Op =
    | Acquire(worker: nat, key: string, ttl: nat)
    | Extend(worker: nat, ms: int)
    | Release(worker: nat)
    | Die(worker: nat)
    | Tick(elapsed: nat)
    | Evict(key: string)

  predicate Enabled(w: World, op: Op) {
    match op
    case Acquire(i, _, _) => i in w.ids && i !in w.leases
    case Extend(i, _) => i in w.ids && i in w.leases
    case Release(i) => i in w.ids && i in w.leases
    case Die(i) => i in w.leases
    case Tick(_) => true
    case Evict(k) => k in w.s.keys && !Live(w.s, k)
  }

  function Apply(w: World, op: Op): World
    requires Enabled(w, op)
  {
    match op
    case Acquire(i, k, ttl) =>
      var s' := SetNX(w.s, k, w.ids[i], ttl);
      if Live(w.s, k) then w.(s := s') else
        w.(s := s', leases := w.leases[i := Lease(k, Deadline(w.s, ttl), w.next)],
           creator := w.creator[k := w.next], next := w.next + 1)
    case Extend(i, ms) =>
      var k := w.leases[i].key;
      w.(s := CompareAndExpire(w.s, k, w.ids[i], ms),
         leases := if HeldBy(w.s, k, w.ids[i]) then w.leases[i := w.leases[i].(deadline := Some(w.s.now + ms))]
                   else w.leases)
    case Release(i) =>
      w.(s := CompareAndDelete(w.s, w.leases[i].key, w.ids[i]), leases := w.leases - {i})
    case Die(i) => w.(leases := w.leases - {i})
    case Tick(ms) => w.(s := w.s.(now := w.s.now + ms))
    case Evict(k) => w.(s := Deleted(w.s, k))
  }

  predicate Runs(w: World, ops: seq<Op>)
    decreases |ops|
  {
    ops == [] || (Enabled(w, ops[0]) && Runs(Apply(w, ops[0]), ops[1..]))
  }

  function Final(w: World, ops: seq<Op>): World
    requires Runs(w, ops)
    decreases |ops|
  {
    if ops == [] then w else Final(Apply(w, ops[0]), ops[1..])
  }

  function Start(s: Server, ids: map<nat, string>): World { World(s, ids, map[], map k | k in s.keys :: 0, 1) }

  predicate Distinct(ids: map<nat, string>) {
    forall i, j :: i in ids && j in ids && ids[i] == ids[j] ==> i == j
  }

  // ---- the invariant ----

  /** An entry with the holder's value under the holder's key is the holder's own acquisition, and
      while the lease runs the entry is there. */
  predicate LeaseOk(w: World, i: nat, l: Lease) {
    && i in w.ids
    && (l.key in w.s.keys && w.s.keys[l.key].value == w.ids[i] ==>
          l.key in w.creator && w.creator[l.key] == l.acquisition && w.s.keys[l.key].deadline == l.deadline)
    && (Unexpired(l.deadline, w.s.now) ==> l.key in w.s.keys && w.s.keys[l.key].value == w.ids[i])
  }

  predicate Inv(w: World) {
    Distinct(w.ids) && forall i :: i in w.leases ==> LeaseOk(w, i, w.leases[i])
  }

  lemma {:induction false} AcquireKeepsLease(w: World, op: Op, i: nat)
    requires Inv(w) && op.Acquire? && Enabled(w, op) && i in Apply(w, op).leases
    ensures LeaseOk(Apply(w, op), i, Apply(w, op).leases[i])
  {
    if i != op.worker { assert LeaseOk(w, i, w.leases[i]) && w.ids[i] != w.ids[op.worker]; }
  }

  lemma {:induction false} ExtendKeepsLease(w: World, op: Op, i: nat)
    requires Inv(w) && op.Extend? && Enabled(w, op) && i in Apply(w, op).leases
    ensures LeaseOk(Apply(w, op), i, Apply(w, op).leases[i])
  {
    assert LeaseOk(w, i, w.leases[i]) && LeaseOk(w, op.worker, w.leases[op.worker]);
    if i != op.worker { assert w.ids[i] != w.ids[op.worker]; }
  }

  lemma {:induction false} ReleaseKeepsLease(w: World, op: Op, i: nat)
    requires Inv(w) && op.Release? && Enabled(w, op) && i in Apply(w, op).leases
    ensures LeaseOk(Apply(w, op), i, Apply(w, op).leases[i])
  {
    assert LeaseOk(w, i, w.leases[i]) && i != op.worker && w.ids[i] != w.ids[op.worker];
  }

  lemma {:induction false} OtherOpKeepsLease(w: World, op: Op, i: nat)
    requires Inv(w) && (op.Die? || op.Tick? || op.Evict?) && Enabled(w, op) && i in Apply(w, op).leases
    ensures LeaseOk(Apply(w, op), i, Apply(w, op).leases[i])
  {
    assert LeaseOk(w, i, w.leases[i]);
  }

  lemma {:induction false} StepKeepsInv(w: World, op: Op)
    requires Inv(w) && Enabled(w, op)
    ensures Inv(Apply(w, op)) && Apply(w, op).ids == w.ids
  {
    hide LeaseOk; hide SetNX; hide CompareAndDelete; hide CompareAndExpire; hide Deleted;
    var w' := Apply(w, op);
    forall i | i in w'.leases ensures LeaseOk(w', i, w'.leases[i]) {
      match op
      case Acquire(_, _, _) => AcquireKeepsLease(w, op, i);
      case Extend(_, _) => ExtendKeepsLease(w, op, i);
      case Release(_) => ReleaseKeepsLease(w, op, i);
      case _ => OtherOpKeepsLease(w, op, i);
    }
  }

  lemma {:induction false} RunKeepsInv(w: World, ops: seq<Op>)
    requires Inv(w) && Runs(w, ops)
    ensures Inv(Final(w, ops)) && Final(w, ops).ids == w.ids
    decreases |ops|
  {
    hide Inv;
    if ops != [] {
      StepKeepsInv(w, ops[0]);
      RunKeepsInv(Apply(w, ops[0]), ops[1..]);
    }
  }

  // ---- the guarantees ----

  predicate Holding(w: World, i: nat) { i in w.leases && Unexpired(w.leases[i].deadline, w.s.now) }

  /** At most one worker holds an unexpired lease on a key, and Redis stores that worker's value with
      the same deadline. */
  ghost predicate Exclusive(w: World) {
    && (forall i :: Holding(w, i) ==>
          var l := w.leases[i];
          i in w.ids && l.key in w.s.keys && w.s.keys[l.key] == Entry(w.ids[i], l.deadline))
    && forall i, j :: Holding(w, i) && Holding(w, j) && w.leases[i].key == w.leases[j].key ==> i == j
  }

  /** A release that deletes the key deletes the entry its own acquisition wrote. */
  predicate ReleasesOwn(w: World) {
    forall i :: i in w.leases && i in w.ids && HeldBy(w.s, w.leases[i].key, w.ids[i]) ==>
      w.leases[i].key in w.creator && w.creator[w.leases[i].key] == w.leases[i].acquisition
  }

  lemma {:induction false} InvIsSafe(w: World)
    requires Inv(w)
    ensures Exclusive(w) && ReleasesOwn(w)
  {
  }

  /** With distinct values every run, from any content of Redis, is exclusive and releases safely. */
  lemma {:induction false} LeaseExclusion(s: Server, ids: map<nat, string>, ops: seq<Op>)
    requires Distinct(ids) && Runs(Start(s, ids), ops)
    ensures Exclusive(Final(Start(s, ids), ops)) && ReleasesOwn(Final(Start(s, ids), ops))
  {
    RunKeepsInv(Start(s, ids), ops);
    InvIsSafe(Final(Start(s, ids), ops));
  }

  lemma {:induction false} OneMore(w: World, op: Op, rest: seq<Op>)
    requires Enabled(w, op) && Runs(Apply(w, op), rest)
    ensures Runs(w, [op] + rest) && Final(w, [op] + rest) == Final(Apply(w, op), rest)
  {
  }

  /** Two workers with one value: the first lets its lease run out, the second takes the lock and the
      first's release would delete the second's entry. */
  lemma {:induction false} SharedValueBreaks(
      s: Server, ids: map<nat, string>, i: nat, j: nat, k: string) returns (ops: seq<Op>)
    requires i in ids && j in ids && i != j && ids[i] == ids[j] && k !in s.keys
    ensures Runs(Start(s, ids), ops) && !ReleasesOwn(Final(Start(s, ids), ops))
  {
    var w0 := Start(s, ids);
    var w1 := Apply(w0, Acquire(i, k, 1));
    var w2 := Apply(w1, Tick(1));
    var w3 := Apply(w2, Acquire(j, k, 5));
    assert w3.leases[i] == Lease(k, Some(s.now + 1), 1) && w3.leases[j] == Lease(k, Some(s.now + 6), 2);
    assert HeldBy(w3.s, k, ids[i]) && w3.creator[k] == 2;
    OneMore(w2, Acquire(j, k, 5), []);
    OneMore(w1, Tick(1), [Acquire(j, k, 5)]);
    OneMore(w0, Acquire(i, k, 1), [Tick(1)] + [Acquire(j, k, 5)]);
    ops := [Acquire(i, k, 1)] + ([Tick(1)] + [Acquire(j, k, 5)]);
  }

  /** Going on, the first worker releases and takes the lock again: both now hold it. */
  lemma {:induction false} SharedValueOverlaps(
      s: Server, ids: map<nat, string>, i: nat, j: nat, k: string) returns (ops: seq<Op>)
    requires i in ids && j in ids && i != j && ids[i] == ids[j] && k !in s.keys
    ensures Runs(Start(s, ids), ops) && !Exclusive(Final(Start(s, ids), ops))
  {
    var w0 := Start(s, ids);
    var w1 := Apply(w0, Acquire(i, k, 1));
    var w2 := Apply(w1, Tick(1));
    var w3 := Apply(w2, Acquire(j, k, 5));
    assert w3.leases[i].key == k && HeldBy(w3.s, k, ids[i]);
    var w4 := Apply(w3, Release(i));
    var w5 := Apply(w4, Acquire(i, k, 5));
    assert Holding(w5, i) && Holding(w5, j) && w5.leases[i].key == w5.leases[j].key;
    ops := [];
    OneMore(w4, Acquire(i, k, 5), ops);
    ops := [Acquire(i, k, 5)] + ops;
    OneMore(w3, Release(i), ops);
    ops := [Release(i)] + ops;
    OneMore(w2, Acquire(j, k, 5), ops);
    ops := [Acquire(j, k, 5)] + ops;
    OneMore(w1, Tick(1), ops);
    ops := [Tick(1)] + ops;
    OneMore(w0, Acquire(i, k, 1), ops);
    ops := [Acquire(i, k, 1)] + ops;
  }

  ghost predicate AllRunsSafe(s: Server, ids: map<nat, string>, ops: seq<Op>) {
    Runs(Start(s, ids), ops) ==> Exclusive(Final(Start(s, ids), ops)) && ReleasesOwn(Final(Start(s, ids), ops))
  }

  lemma {:induction false} FreshKey(keys: set<string>) returns (k: string)
    ensures k !in keys
  {
    var longest := Longest(keys);
    k := seq(longest + 1, i => 'x');
  }

  lemma {:induction false} Longest(keys: set<string>) returns (n: nat)
    ensures forall k :: k in keys ==> |k| <= n
    decreases keys
  {
    n := 0;
    if keys != {} {
      var k :| k in keys;
      n := Longest(keys - {k});
      n := if |k| > n then |k| else n;
    }
  }

  /** Distinct values are exactly what the guarantees need. */
  lemma {:induction false} SafeExactlyWhenDistinct(s: Server, ids: map<nat, string>)
    ensures Distinct(ids) <==> forall ops :: AllRunsSafe(s, ids, ops)
  {
    if Distinct(ids) {
      forall ops ensures AllRunsSafe(s, ids, ops) {
        if Runs(Start(s, ids), ops) { LeaseExclusion(s, ids, ops); }
      }
    } else {
      var i, j :| i in ids && j in ids && ids[i] == ids[j] && i != j;
      var k := FreshKey(s.keys.Keys);
      var ops := SharedValueOverlaps(s, ids, i, j, k);
      assert !AllRunsSafe(s, ids, ops);
    }
  }
}
