/** Runs of several coordinators against one Redis. Every step of theirs is at most one step of the
    lease protocol, so the lease guarantees carry over to handlers. */
module CoordinatorRuns {
  import opened Options
  import opened RedisLock
  import opened Coordinator
  import L = LeaseRuns

  datatype Phase =
    | Idle
    | Trying(environment: string, attempt: nat, startedAt: int, readyAt: int)
    | Handling(environment: string, since: int)

  datatype Cluster = Cluster(w: L.World, phase: map<nat, Phase>)

  datatype Step =
    | Deliver(instance: nat, environment: string)
    | Attempt(instance: nat)
    | GiveUp(instance: nat)
    | Return(instance: nat)
    | Crash(instance: nat)
    | Elapse(elapsed: nat)
    | Evict(key: string)

  predicate Enabled(c: Cluster, step: Step) {
    match step
    case Deliver(i, _) => i in c.phase && c.phase[i].Idle?
    case Attempt(i) => i in c.phase && c.phase[i].Trying? && c.phase[i].readyAt <= c.w.s.now
    case GiveUp(i) =>
      && i in c.phase && c.phase[i].Trying? && c.phase[i].attempt > 0
      && c.phase[i].startedAt + EVENT_TIMEOUT <= c.w.s.now
    case Return(i) => i in c.phase && c.phase[i].Handling?
    case Crash(i) => i in c.phase
    case Elapse(_) => true
    case Evict(k) => k in c.w.s.keys && !Live(c.w.s, k)
  }

  /** The step of the lease protocol this step makes, if any. */
  function LeaseStep(c: Cluster, step: Step): Option<L.Op>
    requires Enabled(c, step)
  {
    match step
    case Attempt(i) => Some(L.Acquire(i, LockKey(c.phase[i].environment), LOCK_TTL))
    case Return(i) => Some(L.Release(i))
    case Crash(i) => if c.phase[i].Handling? then Some(L.Die(i)) else None
    case Elapse(ms) => Some(L.Tick(ms))
    case Evict(k) => Some(L.Evict(k))
    case _ => None
  }

  function NextPhase(c: Cluster, i: nat): Phase
    requires i in c.phase && c.phase[i].Trying?
  {
    var p := c.phase[i];
    if !Live(c.w.s, LockKey(p.environment)) then Handling(p.environment, c.w.s.now)
    else if p.attempt + 1 < MAX_RETRIES then
      p.(attempt := p.attempt + 1, readyAt := c.w.s.now + RETRY_INTERVAL)
    else Idle
  }

  function Phases(c: Cluster, step: Step): map<nat, Phase>
    requires Enabled(c, step)
  {
    match step
    case Deliver(i, env) => c.phase[i := Trying(env, 0, c.w.s.now, c.w.s.now)]
    case Attempt(i) => c.phase[i := NextPhase(c, i)]
    case GiveUp(i) => c.phase[i := Idle]
    case Return(i) => c.phase[i := Idle]
    case Crash(i) => c.phase - {i}
    case _ => c.phase
  }

  /** The phases of the loops and the leases of the protocol say the same. */
  predicate Agree(c: Cluster) {
    && c.phase.Keys <= c.w.ids.Keys
    && c.w.leases.Keys == (set i | i in c.phase && c.phase[i].Handling?)
    && (forall i :: i in c.w.leases ==>
          i in c.phase && c.phase[i].Handling?
          && c.w.leases[i].key == LockKey(c.phase[i].environment)
          && c.w.leases[i].deadline == Some(c.phase[i].since + LOCK_TTL))
    && forall i :: i in c.phase && c.phase[i].Trying? ==> c.phase[i].attempt < MAX_RETRIES
  }

  function Apply(c: Cluster, step: Step): Cluster
    requires Enabled(c, step) && Agree(c)
  {
    var op := LeaseStep(c, step);
    Cluster(if op.Some? then L.Apply(c.w, op.value) else c.w, Phases(c, step))
  }

  lemma {:induction false} AttemptRefines(c: Cluster, step: Step)
    requires step.Attempt? && Enabled(c, step) && Agree(c)
    ensures L.Enabled(c.w, LeaseStep(c, step).value) && Agree(Apply(c, step))
  {
    hide LockKey; hide Live; hide Locked;
  }

  lemma {:induction false} ReturnRefines(c: Cluster, step: Step)
    requires step.Return? && Enabled(c, step) && Agree(c)
    ensures L.Enabled(c.w, LeaseStep(c, step).value) && Agree(Apply(c, step))
  {
    hide LockKey; hide HeldBy; hide Deleted;
  }

  lemma {:induction false} CrashRefines(c: Cluster, step: Step)
    requires step.Crash? && Enabled(c, step) && Agree(c)
    ensures LeaseStep(c, step).Some? ==> L.Enabled(c.w, LeaseStep(c, step).value)
    ensures Agree(Apply(c, step))
  {
    hide LockKey;
  }

  lemma {:induction false} OtherStepRefines(c: Cluster, step: Step)
    requires !step.Attempt? && !step.Return? && !step.Crash? && Enabled(c, step) && Agree(c)
    ensures LeaseStep(c, step).Some? ==> L.Enabled(c.w, LeaseStep(c, step).value)
    ensures Agree(Apply(c, step))
  {
    hide LockKey; hide Live;
  }

  /** One loop is one lease holder: refinement of the lease protocol. */
  lemma {:induction false} StepRefines(c: Cluster, step: Step)
    requires Enabled(c, step) && Agree(c)
    ensures LeaseStep(c, step).Some? ==> L.Enabled(c.w, LeaseStep(c, step).value)
    ensures Agree(Apply(c, step))
  {
    hide *;
    match step
    case Attempt(_) => AttemptRefines(c, step);
    case Return(_) => ReturnRefines(c, step);
    case Crash(_) => CrashRefines(c, step);
    case _ => OtherStepRefines(c, step);
  }

  predicate Runs(c: Cluster, steps: seq<Step>)
    requires Agree(c)
    decreases |steps|
  {
    steps == [] || (Enabled(c, steps[0]) && (StepRefines(c, steps[0]); Runs(Apply(c, steps[0]), steps[1..])))
  }

  function Final(c: Cluster, steps: seq<Step>): (c': Cluster)
    requires Agree(c) && Runs(c, steps)
    ensures Agree(c')
    decreases |steps|
  {
    if steps == [] then c else StepRefines(c, steps[0]); Final(Apply(c, steps[0]), steps[1..])
  }

  /** The lease operations of a run of the loops. */
  function LeaseOps(c: Cluster, steps: seq<Step>): seq<L.Op>
    requires Agree(c) && Runs(c, steps)
    decreases |steps|
  {
    if steps == [] then [] else
      StepRefines(c, steps[0]);
      var op, rest := LeaseStep(c, steps[0]), LeaseOps(Apply(c, steps[0]), steps[1..]);
      if op.Some? then [op.value] + rest else rest
  }

  /** Every run of the cluster is a run of the lease protocol. */
  lemma {:induction false} RunRefines(c: Cluster, steps: seq<Step>)
    requires Agree(c) && Runs(c, steps)
    ensures L.Runs(c.w, LeaseOps(c, steps)) && L.Final(c.w, LeaseOps(c, steps)) == Final(c, steps).w
    decreases |steps|
  {
    if steps != [] {
      StepRefines(c, steps[0]);
      var c' := Apply(c, steps[0]);
      RunRefines(c', steps[1..]);
      var op := LeaseStep(c, steps[0]);
      if op.Some? { L.OneMore(c.w, op.value, LeaseOps(c', steps[1..])); }
    }
  }

  function AllIdle(s: Server, ids: map<nat, string>): Cluster {
    Cluster(L.Start(s, ids), map i | i in ids :: Idle)
  }

  predicate HandlesWith(c: Cluster, i: nat, j: nat) {
    && i != j && i in c.phase && j in c.phase && c.phase[i].Handling? && c.phase[j].Handling?
    && c.phase[i].environment == c.phase[j].environment
  }

  /** Two instances handle the same environment at once only after one of them has outlived its lease. */
  lemma {:induction false} HandlersOverlapOnlyPastTheLease(
      s: Server, ids: map<nat, string>, steps: seq<Step>, i: nat, j: nat)
    requires L.Distinct(ids) && Runs(AllIdle(s, ids), steps)
    ensures var c := Final(AllIdle(s, ids), steps);
      HandlesWith(c, i, j) ==> c.w.s.now >= c.phase[i].since + 5_000 || c.w.s.now >= c.phase[j].since + 5_000
  {
    var c0 := AllIdle(s, ids);
    RunRefines(c0, steps);
    L.LeaseExclusion(s, ids, LeaseOps(c0, steps));
    var c := Final(c0, steps);
    if HandlesWith(c, i, j) {
      assert i in c.w.leases && j in c.w.leases;
      assert !(L.Holding(c.w, i) && L.Holding(c.w, j));
    }
  }

  /** When a handler returns, its deferred release deletes the key only if the entry there was written
      by the acquisition this very event made, and then only that key. */
  lemma {:induction false} ReturnDeletesOwnEntry(s: Server, ids: map<nat, string>, steps: seq<Step>, i: nat)
    requires L.Distinct(ids) && Runs(AllIdle(s, ids), steps)
    requires Enabled(Final(AllIdle(s, ids), steps), Return(i))
    ensures var c := Final(AllIdle(s, ids), steps);
      var k, s' := LockKey(c.phase[i].environment), Apply(c, Return(i)).w.s;
      && i in c.w.leases && k == c.w.leases[i].key
      && (s'.keys == c.w.s.keys ||
          (s'.keys == c.w.s.keys - {k} && k in c.w.creator && c.w.creator[k] == c.w.leases[i].acquisition))
  {
    var c0 := AllIdle(s, ids);
    RunRefines(c0, steps);
    L.LeaseExclusion(s, ids, LeaseOps(c0, steps));
    var c := Final(c0, steps);
    assert i in c.w.leases;
  }

  lemma {:induction false} OneMore(c: Cluster, step: Step, rest: seq<Step>)
    requires Agree(c) && Enabled(c, step) && Agree(Apply(c, step)) && Runs(Apply(c, step), rest)
    ensures Runs(c, [step] + rest) && Final(c, [step] + rest) == Final(Apply(c, step), rest)
  {
  }

  lemma {:induction false} Then(c: Cluster, first: seq<Step>, rest: seq<Step>)
    requires Agree(c) && Runs(c, first) && Runs(Final(c, first), rest)
    ensures Runs(c, first + rest) && Final(c, first + rest) == Final(Final(c, first), rest)
    decreases |first|
  {
    if first == [] {
      assert first + rest == rest;
    } else {
      StepRefines(c, first[0]);
      Then(Apply(c, first[0]), first[1..], rest);
      assert first + rest == [first[0]] + (first[1..] + rest);
      OneMore(c, first[0], first[1..] + rest);
    }
  }

  // ---- the loop's rounds are runs of the cluster ----

  /** No step of instance i. */
  predicate Others(steps: seq<Step>, i: nat) { forall s :: s in steps ==> !IsOf(s, i) }

  predicate IsOf(s: Step, i: nat) {
    match s
    case Elapse(_) => false
    case Evict(_) => false
    case _ => s.instance == i
  }

  lemma {:induction false} OtherLeavesPhase(c: Cluster, step: Step, i: nat)
    requires Agree(c) && Enabled(c, step) && !IsOf(step, i) && i in c.phase
    ensures var c' := Apply(c, step); i in c'.phase && c'.phase[i] == c.phase[i] && c'.w.ids == c.w.ids
  {
    hide LockKey; hide NextPhase; hide Agree; hide SetNX; hide CompareAndDelete; hide CompareAndExpire; hide Deleted;
  }

  lemma {:induction false} OthersLeavePhase(c: Cluster, steps: seq<Step>, i: nat)
    requires Agree(c) && Runs(c, steps) && Others(steps, i) && i in c.phase
    ensures var c' := Final(c, steps); i in c'.phase && c'.phase[i] == c.phase[i] && c'.w.ids == c.w.ids
    decreases |steps|
  {
    hide Agree; hide Apply; hide Enabled; hide IsOf;
    if steps != [] {
      assert steps[0] in steps;
      StepRefines(c, steps[0]);
      OtherLeavesPhase(c, steps[0], i);
      OthersLeavePhase(Apply(c, steps[0]), steps[1..], i);
    }
  }

  function Ending(i: nat, handled: bool, failed: bool): seq<Step> {
    if handled then [Return(i)] else if failed then [GiveUp(i)] else []
  }

  /** The instance's attempts from the k-th on, each followed by what the others do until its next step. */
  function AttemptsFrom(i: nat, k: nat, moves: seq<seq<Step>>, ending: seq<Step>): seq<Step>
    decreases |moves| - k
  {
    if k >= |moves| then ending else [Attempt(i)] + (moves[k] + AttemptsFrom(i, k + 1, moves, ending))
  }

  /** From attempt k on, the steps `moves` of the others do what `world` says happens meanwhile. */
  ghost predicate Mirrors(c: Cluster, i: nat, k: nat, moves: seq<seq<Step>>, world: World, handled: bool, failed: bool)
    requires Agree(c)
    decreases |moves| - k
  {
    && k < |moves| && Enabled(c, Attempt(i))
    && (StepRefines(c, Attempt(i));
        var c1 := Apply(c, Attempt(i));
        && Runs(c1, moves[k]) && Others(moves[k], i)
        && var c2 := Final(c1, moves[k]);
           if k + 1 < |moves| then
             c2.w.s == world.others(k, c1.w.s) && Mirrors(c2, i, k + 1, moves, world, handled, failed)
           else if handled then c2.w.s == world.handling(c1.w.s)
           else if failed then c2.w.s == world.others(k, c1.w.s) && Enabled(c2, GiveUp(i))
           else moves[k] == [])
  }

  lemma {:induction false} AttemptMisses(c: Cluster, i: nat)
    requires Agree(c) && Enabled(c, Attempt(i)) && Live(c.w.s, LockKey(c.phase[i].environment))
    ensures var c', p := Apply(c, Attempt(i)), c.phase[i];
      && Agree(c') && c'.w == c.w && i in c'.phase
      && c'.phase[i] ==
         if p.attempt + 1 < MAX_RETRIES
         then p.(attempt := p.attempt + 1, readyAt := c.w.s.now + RETRY_INTERVAL) else Idle
  {
    hide LockKey;
    StepRefines(c, Attempt(i));
  }

  lemma {:induction false} Returned(c: Cluster, i: nat)
    requires Agree(c) && i in c.phase && c.phase[i].Handling?
    ensures i in c.w.ids && Enabled(c, Return(i))
    ensures var c', k := Apply(c, Return(i)), LockKey(c.phase[i].environment);
      && Agree(c') && c'.w.s == CompareAndDelete(c.w.s, k, c.w.ids[i]) && i in c'.phase && c'.phase[i].Idle?
  {
    hide LockKey;
    assert i in c.w.leases;
    StepRefines(c, Return(i));
  }

  lemma {:induction false} GaveUp(c: Cluster, i: nat)
    requires Agree(c) && Enabled(c, GiveUp(i))
    ensures var c' := Apply(c, GiveUp(i)); Agree(c') && c'.w == c.w && i in c'.phase && c'.phase[i].Idle?
  {
    StepRefines(c, GiveUp(i));
  }

  /** The instance is about to make attempt k of the round. */
  predicate Ready(c: Cluster, i: nat, environment: string, k: nat) {
    i in c.phase && c.phase[i].Trying? && c.phase[i].environment == environment && c.phase[i].attempt == k
  }

  /** The last attempt and what ends the round. */
  lemma {:induction false} LastAttemptIsRun(
      c: Cluster, i: nat, event: Event, world: World, before: Server, after: Server, seen: seq<Server>,
      handled: bool, failed: bool, moves: seq<seq<Step>>)
    requires Agree(c) && i in c.w.ids && Round(c.w.ids[i], event, world, before, after, seen, handled, failed)
    requires Ready(c, i, event.environmentID, |seen| - 1) && c.w.s == seen[|seen| - 1]
    requires |moves| == |seen| && Mirrors(c, i, |seen| - 1, moves, world, handled, failed)
    ensures var steps := AttemptsFrom(i, |seen| - 1, moves, Ending(i, handled, failed));
      && Runs(c, steps) && Final(c, steps).w.s == after
      && i in Final(c, steps).phase && Final(c, steps).phase[i].Idle?
  {
    var k, env := |seen| - 1, event.environmentID;
    var rest := moves[k];
    var end := Ending(i, handled, failed);
    if handled { Acquired(c, i, env); } else { AttemptMisses(c, i); }
    var c1 := Apply(c, Attempt(i));
    var c2 := Final(c1, rest);
    assert AttemptsFrom(i, k, moves, end) == [Attempt(i)] + (rest + end);
    hide Runs; hide Final; hide Apply; hide Enabled; hide Agree; hide LockKey; hide Live; hide Locked;
    hide AttemptsFrom;
    hide Others; hide CompareAndDelete; hide PromptNow; hide Prompt;
    OthersLeavePhase(c1, rest, i);
    NoStep(c2);
    if handled {
      Returned(c2, i);
      NoStep(Apply(c2, Return(i)));
      OneMore(c2, Return(i), []);
      assert [Return(i)] + [] == end;
    } else if failed {
      GaveUp(c2, i);
      NoStep(Apply(c2, GiveUp(i)));
      OneMore(c2, GiveUp(i), []);
      assert [GiveUp(i)] + [] == end;
    } else {
      NoStep(c1);
    }
    Then(c1, rest, end);
    OneMore(c, Attempt(i), rest + end);
  }

  lemma {:induction false} AttemptsAreRun(
      c: Cluster, i: nat, event: Event, world: World, before: Server, after: Server, seen: seq<Server>,
      handled: bool, failed: bool, k: nat, moves: seq<seq<Step>>)
    requires Agree(c) && i in c.w.ids && Round(c.w.ids[i], event, world, before, after, seen, handled, failed)
    requires k < |seen| && Ready(c, i, event.environmentID, k) && c.w.s == seen[k]
    requires |moves| == |seen| && Mirrors(c, i, k, moves, world, handled, failed)
    ensures var steps := AttemptsFrom(i, k, moves, Ending(i, handled, failed));
      && Runs(c, steps) && Final(c, steps).w.s == after
      && i in Final(c, steps).phase && Final(c, steps).phase[i].Idle?
    decreases |seen| - k
  {
    if k == |seen| - 1 {
      LastAttemptIsRun(c, i, event, world, before, after, seen, handled, failed, moves);
    } else {
      AttemptMisses(c, i);
      var c1 := Apply(c, Attempt(i));
      var c2 := Final(c1, moves[k]);
      var end := Ending(i, handled, failed);
      assert AttemptsFrom(i, k, moves, end) == [Attempt(i)] + (moves[k] + AttemptsFrom(i, k + 1, moves, end));
      hide Runs; hide Final; hide Apply; hide Enabled; hide Agree; hide LockKey; hide Live; hide AttemptsFrom;
      OthersLeavePhase(c1, moves[k], i);
      AttemptsAreRun(c2, i, event, world, before, after, seen, handled, failed, k + 1, moves);
      Then(c1, moves[k], AttemptsFrom(i, k + 1, moves, end));
      OneMore(c, Attempt(i), moves[k] + AttemptsFrom(i, k + 1, moves, end));
    }
  }

  /** A round of the loop, in a world whose moves are steps of the other instances and the clock, is a
      run of the cluster: the event is delivered, the attempts are made, and the handler returns, the wait
      is given up or the last attempt is missed. */
  lemma {:induction false} RoundIsRun(
      c: Cluster, i: nat, event: Event, world: World, after: Server, seen: seq<Server>, handled: bool, failed: bool,
      moves: seq<seq<Step>>)
    requires Agree(c) && i in c.phase && c.phase[i].Idle? && i in c.w.ids
    requires Round(c.w.ids[i], event, world, c.w.s, after, seen, handled, failed) && |moves| == |seen|
    requires Agree(Apply(c, Deliver(i, event.environmentID)))
    requires Mirrors(Apply(c, Deliver(i, event.environmentID)), i, 0, moves, world, handled, failed)
    ensures var steps := [Deliver(i, event.environmentID)] + AttemptsFrom(i, 0, moves, Ending(i, handled, failed));
      && Runs(c, steps) && Final(c, steps).w.s == after
      && i in Final(c, steps).phase && Final(c, steps).phase[i].Idle?
  {
    var deliver := Deliver(i, event.environmentID);
    Delivered(c, i, event.environmentID);
    var c1 := Apply(c, deliver);
    hide Runs; hide Final; hide Apply; hide Enabled; hide Agree; hide Mirrors; hide AttemptsFrom;
    AttemptsAreRun(c1, i, event, world, c.w.s, after, seen, handled, failed, 0, moves);
    OneMore(c, deliver, AttemptsFrom(i, 0, moves, Ending(i, handled, failed)));
  }

  // ---- when handlers are exclusive ----

  /** No handler has been running for longer than t. */
  predicate PromptNow(c: Cluster, t: int) {
    forall i :: i in c.phase && c.phase[i].Handling? ==> c.w.s.now - c.phase[i].since <= t
  }

  /** No handler of the run ever runs for longer than t. */
  predicate Prompt(c: Cluster, steps: seq<Step>, t: int)
    requires Agree(c) && Runs(c, steps)
    decreases |steps|
  {
    PromptNow(c, t) && (steps == [] || (StepRefines(c, steps[0]); Prompt(Apply(c, steps[0]), steps[1..], t)))
  }

  lemma {:induction false} PromptMore(c: Cluster, step: Step, rest: seq<Step>, t: int)
    requires Agree(c) && Enabled(c, step) && Agree(Apply(c, step)) && Runs(Apply(c, step), rest)
    requires PromptNow(c, t) && Prompt(Apply(c, step), rest, t)
    ensures Runs(c, [step] + rest) && Prompt(c, [step] + rest, t)
  {
    assert ([step] + rest)[1..] == rest;
  }

  lemma {:induction false} PromptThen(c: Cluster, first: seq<Step>, rest: seq<Step>, t: int)
    requires Agree(c) && Runs(c, first) && Runs(Final(c, first), rest)
    requires Prompt(c, first, t) && Prompt(Final(c, first), rest, t)
    ensures Runs(c, first + rest) && Prompt(c, first + rest, t)
    decreases |first|
  {
    if first == [] {
      assert first + rest == rest;
    } else {
      StepRefines(c, first[0]);
      var c' := Apply(c, first[0]);
      Then(c', first[1..], rest);
      PromptThen(c', first[1..], rest, t);
      assert first + rest == [first[0]] + (first[1..] + rest);
      PromptMore(c, first[0], first[1..] + rest, t);
    }
  }

  lemma {:induction false} PromptAtTheEnd(c: Cluster, steps: seq<Step>, t: int)
    requires Agree(c) && Runs(c, steps) && Prompt(c, steps, t)
    ensures PromptNow(Final(c, steps), t)
    decreases |steps|
  {
    if steps != [] {
      StepRefines(c, steps[0]);
      PromptAtTheEnd(Apply(c, steps[0]), steps[1..], t);
    }
  }

  function Attending(i: nat, env: string): seq<Step> { [Deliver(i, env), Attempt(i)] }

  /** An idle instance that finds the environment unlocked handles the event at once. */
  lemma {:induction false} Attend(c: Cluster, i: nat, env: string)
    requires Agree(c) && i in c.phase && c.phase[i].Idle? && !Live(c.w.s, LockKey(env))
    ensures Runs(c, Attending(i, env))
    ensures var c' := Final(c, Attending(i, env));
      && c'.phase == c.phase[i := Handling(env, c.w.s.now)]
      && c'.w.s == Locked(c.w.s, LockKey(env), c.w.ids[i], LOCK_TTL) && c'.w.ids == c.w.ids
  {
    hide *;
    Delivered(c, i, env);
    var c1 := Apply(c, Deliver(i, env));
    Acquired(c1, i, env);
    var c2 := Apply(c1, Attempt(i));
    NoStep(c2);
    AttendingSplit(i, env);
    OneMore(c1, Attempt(i), []);
    OneMore(c, Deliver(i, env), [Attempt(i)] + []);
  }

  lemma {:induction false} AttendPromptly(c: Cluster, i: nat, env: string, t: int)
    requires Agree(c) && i in c.phase && c.phase[i].Idle? && !Live(c.w.s, LockKey(env))
    requires 0 <= t && PromptNow(c, t)
    ensures Runs(c, Attending(i, env)) && Prompt(c, Attending(i, env), t)
  {
    hide *;
    Delivered(c, i, env);
    var c1 := Apply(c, Deliver(i, env));
    Acquired(c1, i, env);
    NoStep(Apply(c1, Attempt(i)));
    AttendingSplit(i, env);
    PromptMore(c1, Attempt(i), [], t);
    PromptMore(c, Deliver(i, env), [Attempt(i)] + [], t);
  }

  lemma {:induction false} NoStep(c: Cluster)
    requires Agree(c)
    ensures Runs(c, []) && Final(c, []) == c && forall t :: PromptNow(c, t) ==> Prompt(c, [], t)
  {
  }

  lemma {:induction false} AttendingSplit(i: nat, env: string)
    ensures Attending(i, env) == [Deliver(i, env)] + ([Attempt(i)] + [])
  {
  }

  lemma {:induction false} Delivered(c: Cluster, i: nat, env: string)
    requires Agree(c) && i in c.phase && c.phase[i].Idle?
    ensures Enabled(c, Deliver(i, env))
    ensures var c' := Apply(c, Deliver(i, env));
      Agree(c') && c'.w == c.w && c'.phase == c.phase[i := Trying(env, 0, c.w.s.now, c.w.s.now)]
    ensures forall t :: PromptNow(c, t) ==> PromptNow(Apply(c, Deliver(i, env)), t)
  {
    hide LockKey;
  }

  lemma {:induction false} Acquired(c: Cluster, i: nat, env: string)
    requires Agree(c) && i in c.phase && c.phase[i].Trying? && c.phase[i].environment == env
    requires c.phase[i].readyAt <= c.w.s.now && !Live(c.w.s, LockKey(env))
    ensures Enabled(c, Attempt(i))
    ensures var c' := Apply(c, Attempt(i));
      && Agree(c') && c'.phase == c.phase[i := Handling(env, c.w.s.now)]
      && c'.w.s == Locked(c.w.s, LockKey(env), c.w.ids[i], LOCK_TTL) && c'.w.ids == c.w.ids
    ensures forall t :: 0 <= t && PromptNow(c, t) ==> PromptNow(Apply(c, Attempt(i)), t)
  {
    hide LockKey;
    StepRefines(c, Attempt(i));
  }

  lemma {:induction false} Waited(c: Cluster, ms: nat)
    requires Agree(c)
    ensures Enabled(c, Elapse(ms))
    ensures var c' := Apply(c, Elapse(ms));
      && Agree(c') && c'.phase == c.phase && c'.w.ids == c.w.ids
      && c'.w.s.keys == c.w.s.keys && c'.w.s.now == c.w.s.now + ms
  {
  }

  /** One instance attends and is still handling when its lease runs out. */
  function Outliving(i: nat, env: string): seq<Step> { Attending(i, env) + ([Elapse(LOCK_TTL)] + []) }

  function Overlapping(i: nat, j: nat, env: string): seq<Step> { Outliving(i, env) + Attending(j, env) }

  lemma {:induction false} Outlive(s: Server, ids: map<nat, string>, i: nat, env: string)
    requires i in ids && !Live(s, LockKey(env))
    ensures Runs(AllIdle(s, ids), Outliving(i, env))
    ensures var c := Final(AllIdle(s, ids), Outliving(i, env));
      && c.phase == (map k | k in ids :: Idle)[i := Handling(env, s.now)]
      && c.w.s.now == s.now + LOCK_TTL && !Live(c.w.s, LockKey(env))
  {
    var c0, mine, wait := AllIdle(s, ids), Attending(i, env), Elapse(LOCK_TTL);
    hide Attending; hide Runs; hide Final; hide Agree; hide LockKey; hide Locked; hide Live; hide AllIdle; hide Apply;
    AllAreIdle(s, ids);
    Attend(c0, i, env);
    var c1 := Final(c0, mine);
    Waited(c1, LOCK_TTL);
    var c2 := Apply(c1, wait);
    LeaseIsOver(s, LockKey(env), ids[i], c2.w.s);
    NoStep(c2);
    OneMore(c1, wait, []);
    Then(c0, mine, [wait] + []);
  }

  lemma {:induction false} OutlivePromptly(s: Server, ids: map<nat, string>, i: nat, env: string, t: int)
    requires i in ids && !Live(s, LockKey(env)) && LOCK_TTL <= t
    ensures Runs(AllIdle(s, ids), Outliving(i, env)) && Prompt(AllIdle(s, ids), Outliving(i, env), t)
  {
    var c0, mine, wait := AllIdle(s, ids), Attending(i, env), Elapse(LOCK_TTL);
    hide Attending; hide Runs; hide Final; hide Agree; hide LockKey; hide Locked; hide Live; hide AllIdle; hide Apply;
    hide Prompt; hide PromptNow;
    AllAreIdle(s, ids);
    Attend(c0, i, env);
    AttendPromptly(c0, i, env, t);
    var c1 := Final(c0, mine);
    Waited(c1, LOCK_TTL);
    var c2 := Apply(c1, wait);
    LeaseIsOver(s, LockKey(env), ids[i], c2.w.s);
    OneHandlerIsPrompt(c1, i, env, s.now, t);
    OneHandlerIsPrompt(c2, i, env, s.now, t);
    NoStep(c2);
    PromptMore(c1, wait, [], t);
    PromptThen(c0, mine, [wait] + [], t);
  }

  /** Handlers are not exclusive: one that runs past the five seconds meets another. */
  lemma {:induction false} HandlersCanOverlap(s: Server, ids: map<nat, string>, i: nat, j: nat, env: string)
    requires i in ids && j in ids && i != j && !Live(s, LockKey(env))
    ensures Runs(AllIdle(s, ids), Overlapping(i, j, env))
    ensures var c := Final(AllIdle(s, ids), Overlapping(i, j, env));
      && i in c.phase && c.phase[i] == Handling(env, s.now)
      && j in c.phase && c.phase[j] == Handling(env, s.now + 5_000)
  {
    var c0, first := AllIdle(s, ids), Outliving(i, env);
    hide Attending; hide Outliving; hide Runs; hide Final; hide Agree; hide LockKey; hide Live; hide AllIdle;
    AllAreIdle(s, ids);
    Outlive(s, ids, i, env);
    Attend(Final(c0, first), j, env);
    Then(c0, first, Attending(j, env));
  }

  lemma {:induction false} OverlapIsPrompt(s: Server, ids: map<nat, string>, i: nat, j: nat, env: string, t: int)
    requires i in ids && j in ids && i != j && !Live(s, LockKey(env)) && LOCK_TTL <= t
    ensures Runs(AllIdle(s, ids), Overlapping(i, j, env))
    ensures Prompt(AllIdle(s, ids), Overlapping(i, j, env), t)
  {
    var c0, first := AllIdle(s, ids), Outliving(i, env);
    hide Attending; hide Outliving; hide Runs; hide Final; hide Agree; hide LockKey; hide Live; hide AllIdle;
    hide Prompt; hide PromptNow;
    AllAreIdle(s, ids);
    Outlive(s, ids, i, env);
    OutlivePromptly(s, ids, i, env, t);
    var c := Final(c0, first);
    OneHandlerIsPrompt(c, i, env, s.now, t);
    AttendPromptly(c, j, env, t);
    PromptThen(c0, first, Attending(j, env), t);
  }

  lemma {:induction false} AllAreIdle(s: Server, ids: map<nat, string>)
    ensures var c := AllIdle(s, ids);
      && Agree(c) && c.w.s == s && c.w.ids == ids && c.phase == (map i | i in ids :: Idle)
      && forall t :: PromptNow(c, t)
  {
  }

  lemma {:induction false} LeaseIsOver(s: Server, key: string, value: string, s': Server)
    requires s'.keys == Locked(s, key, value, LOCK_TTL).keys
    requires s'.now == Locked(s, key, value, LOCK_TTL).now + LOCK_TTL
    ensures Locked(s, key, value, LOCK_TTL).now == s.now && !Live(s', key)
  {
  }

  lemma {:induction false} OneHandlerIsPrompt(c: Cluster, i: nat, env: string, since: int, t: int)
    requires i in c.phase && c.phase[i] == Handling(env, since) && c.w.s.now - since <= t
    requires forall j :: j in c.phase && j != i ==> c.phase[j].Idle?
    ensures PromptNow(c, t)
  {
  }

  /** If the run keeps every handler within t, its end shows no two handlers of one environment. */
  ghost predicate ExclusiveIfPrompt(s: Server, ids: map<nat, string>, steps: seq<Step>, t: int) {
    Runs(AllIdle(s, ids), steps) && Prompt(AllIdle(s, ids), steps, t) ==>
      forall i, j :: !HandlesWith(Final(AllIdle(s, ids), steps), i, j)
  }

  /** Handlers that return within t milliseconds are exclusive, in every run of two or more instances
      from any content of Redis, exactly when t is less than the lock's five seconds. */
  lemma {:induction false} HandlersExclusiveExactlyWhenPrompt(
      s: Server, ids: map<nat, string>, i: nat, j: nat, t: int)
    requires L.Distinct(ids) && i in ids && j in ids && i != j
    ensures (forall steps :: ExclusiveIfPrompt(s, ids, steps, t)) <==> t < 5_000
  {
    if t < LOCK_TTL {
      forall steps ensures ExclusiveIfPrompt(s, ids, steps, t) { PromptIsExclusive(s, ids, steps, t); }
    } else {
      var env := UnlockedEnvironment(s);
      var steps := Overlapping(i, j, env);
      HandlersCanOverlap(s, ids, i, j, env);
      OverlapIsPrompt(s, ids, i, j, env, t);
      assert HandlesWith(Final(AllIdle(s, ids), steps), i, j);
      hide Runs; hide Final; hide Prompt; hide Overlapping;
      assert !ExclusiveIfPrompt(s, ids, steps, t);
    }
  }

  lemma {:induction false} UnlockedEnvironment(s: Server) returns (env: string)
    ensures !Live(s, LockKey(env))
  {
    var longest := L.Longest(s.keys.Keys);
    env := seq(longest + 1, i => 'x');
    assert |LockKey(env)| > longest;
  }

  lemma {:induction false} PromptIsExclusive(s: Server, ids: map<nat, string>, steps: seq<Step>, t: int)
    requires L.Distinct(ids) && t < LOCK_TTL
    ensures ExclusiveIfPrompt(s, ids, steps, t)
  {
    var c0 := AllIdle(s, ids);
    if Runs(c0, steps) && Prompt(c0, steps, t) {
      PromptAtTheEnd(c0, steps, t);
      hide Runs; hide Final; hide Prompt; hide Agree;
      forall i, j ensures !HandlesWith(Final(c0, steps), i, j) {
        HandlersOverlapOnlyPastTheLease(s, ids, steps, i, j);
      }
    }
  }
}
