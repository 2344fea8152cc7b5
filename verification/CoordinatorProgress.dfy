/** What the coordinators get done: a handler that returns in time lets the next one in at once, and no
    instance gives an event up without having met a locked environment for long enough. */
module CoordinatorProgress {
  import opened RedisLock
  import opened Coordinator
  import opened CoordinatorRuns
  import L = LeaseRuns

  // ---- handing over ----

  lemma {:induction false} HandlerHoldsKey(s: Server, ids: map<nat, string>, steps: seq<Step>, i: nat)
    requires L.Distinct(ids) && Runs(AllIdle(s, ids), steps)
    ensures var c := Final(AllIdle(s, ids), steps);
      i in c.phase && c.phase[i].Handling? && c.w.s.now < c.phase[i].since + LOCK_TTL ==>
        i in c.w.ids && HeldBy(c.w.s, LockKey(c.phase[i].environment), c.w.ids[i])
  {
    var c0 := AllIdle(s, ids);
    RunRefines(c0, steps);
    L.LeaseExclusion(s, ids, LeaseOps(c0, steps));
    var c := Final(c0, steps);
    hide Runs; hide Final; hide LeaseOps; hide LockKey;
    if i in c.phase && c.phase[i].Handling? && c.w.s.now < c.phase[i].since + LOCK_TTL {
      assert i in c.w.leases && L.Holding(c.w, i);
    }
  }

  lemma {:induction false} ReturnFrees(c: Cluster, i: nat)
    requires Agree(c) && i in c.phase && c.phase[i].Handling? && i in c.w.ids
    requires HeldBy(c.w.s, LockKey(c.phase[i].environment), c.w.ids[i])
    ensures Enabled(c, Return(i)) && Agree(Apply(c, Return(i)))
    ensures var c' := Apply(c, Return(i));
      && c'.w.s.keys == c.w.s.keys - {LockKey(c.phase[i].environment)} && c'.w.s.now == c.w.s.now
      && c'.w.ids == c.w.ids && c'.phase == c.phase[i := Idle]
  {
    Returned(c, i);
    hide LockKey; hide Agree;
    ReleaseFreesOwnKey(c.w.s, LockKey(c.phase[i].environment), c.w.ids[i]);
  }

  /** A handler that returns before its lease ends lets in at that instant whoever is ready to try: the
      release has taken the key, and only the key, out of Redis. */
  lemma {:induction false} HandoverIsImmediate(
      s: Server, ids: map<nat, string>, steps: seq<Step>, i: nat, j: nat)
    requires L.Distinct(ids) && Runs(AllIdle(s, ids), steps) && i != j
    requires var c := Final(AllIdle(s, ids), steps);
      && i in c.phase && c.phase[i].Handling? && c.w.s.now < c.phase[i].since + 5_000
      && j in c.phase && c.phase[j].Trying? && c.phase[j].environment == c.phase[i].environment
      && c.phase[j].readyAt <= c.w.s.now
    ensures var c := Final(AllIdle(s, ids), steps);
      && Enabled(c, Return(i)) && Agree(Apply(c, Return(i)))
      && var c1 := Apply(c, Return(i));
         && c1.w.s.keys == c.w.s.keys - {LockKey(c.phase[i].environment)}
         && Enabled(c1, Attempt(j))
         && Apply(c1, Attempt(j)).phase[j] == Handling(c.phase[i].environment, c.w.s.now)
  {
    var c := Final(AllIdle(s, ids), steps);
    HandlerHoldsKey(s, ids, steps, i);
    ReturnFrees(c, i);
    Acquired(Apply(c, Return(i)), j, c.phase[i].environment);
  }

  // ---- giving up ----

  /** An attempt is ready half a second after the last one at the earliest. */
  predicate Paced(c: Cluster) {
    forall i :: i in c.phase && c.phase[i].Trying? ==>
      c.phase[i].readyAt >= c.phase[i].startedAt + 500 * c.phase[i].attempt && c.phase[i].startedAt <= c.w.s.now
  }

  lemma {:induction false} StepKeepsPace(c: Cluster, step: Step)
    requires Agree(c) && Paced(c) && Enabled(c, step)
    ensures Paced(Apply(c, step))
  {
    hide LockKey; hide Live; hide Agree; hide SetNX; hide CompareAndDelete; hide CompareAndExpire; hide Deleted;
    NowAfter(c, step);
  }

  lemma {:induction false} NowAfter(c: Cluster, step: Step)
    requires Agree(c) && Enabled(c, step)
    ensures Apply(c, step).w.s.now == c.w.s.now + if step.Elapse? then step.elapsed else 0
  {
    hide LockKey; hide Live; hide HeldBy; hide Agree;
  }

  lemma {:induction false} RunKeepsPace(c: Cluster, steps: seq<Step>)
    requires Agree(c) && Paced(c) && Runs(c, steps)
    ensures Paced(Final(c, steps))
    decreases |steps|
  {
    hide Agree; hide Paced; hide Enabled; hide Apply;
    if steps != [] {
      StepRefines(c, steps[0]);
      StepKeepsPace(c, steps[0]);
      RunKeepsPace(Apply(c, steps[0]), steps[1..]);
    }
  }

  /** In any run an event is skipped only by a third attempt, a second or more after the event came, that
      finds the environment locked; and a wait is given up only after ten seconds. */
  lemma {:induction false} SkippedOnlyWhenBusy(s: Server, ids: map<nat, string>, steps: seq<Step>, i: nat)
    requires Runs(AllIdle(s, ids), steps)
    ensures var c := Final(AllIdle(s, ids), steps);
      && (Enabled(c, Attempt(i)) && Apply(c, Attempt(i)).phase[i].Idle? ==>
            && c.phase[i].attempt == 2 && c.w.s.now >= c.phase[i].startedAt + 1_000
            && Live(c.w.s, LockKey(c.phase[i].environment)))
      && (Enabled(c, GiveUp(i)) ==> c.w.s.now >= c.phase[i].startedAt + 10_000)
  {
    var c0 := AllIdle(s, ids);
    RunKeepsPace(c0, steps);
    hide LockKey; hide Live; hide Runs; hide Final;
  }

  /** The other way round: whoever is ready and finds the environment free handles the event, and three
      attempts are made before it is skipped. */
  lemma {:induction false} AttemptsUntilFree(c: Cluster, i: nat)
    requires Agree(c) && Enabled(c, Attempt(i))
    ensures var p, c' := c.phase[i], Apply(c, Attempt(i));
      && (c'.phase[i].Handling? <==> !Live(c.w.s, LockKey(p.environment)))
      && (c'.phase[i].Idle? <==> Live(c.w.s, LockKey(p.environment)) && p.attempt >= 2)
      && (c'.phase[i].Trying? ==> c'.phase[i].attempt == p.attempt + 1 && c'.phase[i].readyAt == c.w.s.now + 500)
  {
    hide LockKey; hide Live; hide SetNX;
  }
}
