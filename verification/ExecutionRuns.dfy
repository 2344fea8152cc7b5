/** Runs of whole CreateAndExecute calls: what they do to the book is a run of its steps, and what a
    call without a result leaves behind. */
module ExecutionRuns {
  import opened Options
  import opened MatchBook
  import opened BookRuns
  import opened EloService
  import G = MatchGate
  import Q = Matchmaking

  datatype Call = Call(
    matchID: string, id1: string, id2: string, sources: map<string, string>, execution: Execution)

  type Scores = (int, int) -> real

  predicate Goes(b: Book, c: Call) { Refusal(b, c.id1, c.id2, c.sources).None? }

  function Called(b: Book, c: Call, expected: Scores): Book {
    if Goes(b, c) then Executed(b, c.matchID, c.id1, c.id2, c.execution, expected) else b
  }

  function Calls(b: Book, calls: seq<Call>, expected: Scores): Book {
    if calls == [] then b else Called(Calls(b, calls[..|calls| - 1], expected), calls[|calls| - 1], expected)
  }

  /** Each call gets a match ID that is new. */
  predicate FreshIDs(b: Book, calls: seq<Call>, expected: Scores) {
    calls == [] ||
    (&& FreshIDs(b, calls[..|calls| - 1], expected)
     && calls[|calls| - 1].matchID !in Calls(b, calls[..|calls| - 1], expected).matches)
  }

  /** The call's result names an existing agent that did not play. */
  predicate CallSkews(b: Book, c: Call) {
    && Goes(b, c) && c.execution.Success? && c.execution.winner.Some?
    && c.execution.winner.value in b.agents && !Fair(c.execution.winner, c.id1, c.id2)
  }

  predicate EverCallSkews(b: Book, calls: seq<Call>, expected: Scores) {
    calls != [] &&
    (|| EverCallSkews(b, calls[..|calls| - 1], expected)
     || CallSkews(Calls(b, calls[..|calls| - 1], expected), calls[|calls| - 1]))
  }

  function StepsOf(b: Book, c: Call, expected: Scores): seq<Step> {
    if !Goes(b, c) then [] else
      var a1, a2 := b.agents[c.id1], b.agents[c.id2];
      var open := Open(c.matchID, a1.environmentID, c.id1, c.id2);
      if !c.execution.Success? then [open] else
        var r := Rated(a1, a2, c.id1, c.execution.winner, expected);
        [open, Done(c.matchID, c.id1, c.id2, c.execution.winner, r.change1, r.change2)]
  }

  lemma {:induction false} OneStep(b: Book, s: Step)
    requires Enabled(b, s)
    ensures Legal(b, [s]) && Run(b, [s]) == After(b, s) && (EverSkews(b, [s]) <==> Skews(b, s))
  {
    assert [] + [s] == [s];
    OneStepMore(b, [], s);
  }

  lemma {:induction false} TwoSteps(b: Book, s: Step, t: Step)
    requires Enabled(b, s) && Enabled(After(b, s), t)
    ensures Legal(b, [s, t]) && Run(b, [s, t]) == After(After(b, s), t)
    ensures EverSkews(b, [s, t]) <==> Skews(b, s) || Skews(After(b, s), t)
  {
    OneStep(b, s);
    assert [s] + [t] == [s, t];
    OneStepMore(b, [s], t);
    hide After; hide Enabled; hide Skews; hide EverSkews; hide Run; hide Legal;
  }

  /** A call is a legal run of zero, one or two steps, and skews the book when that run does. */
  lemma {:induction false} CallIsRun(b: Book, c: Call, expected: Scores)
    requires c.matchID !in b.matches
    ensures Legal(b, StepsOf(b, c, expected)) && Run(b, StepsOf(b, c, expected)) == Called(b, c, expected)
    ensures CallSkews(b, c) <==> EverSkews(b, StepsOf(b, c, expected))
  {
    hide Rated; hide Settled;
    if Goes(b, c) {
      var steps := StepsOf(b, c, expected);
      if c.execution.Success? { TwoSteps(b, steps[0], steps[1]); } else { OneStep(b, steps[0]); }
    }
    hide Run; hide Legal; hide EverSkews;
  }

  lemma {:induction false} CallsKeepBook(b: Book, calls: seq<Call>, expected: Scores)
    requires WellFormed(b) && NoDeficit(b) && FreshIDs(b, calls, expected)
    ensures var b' := Calls(b, calls, expected);
      && WellFormed(b') && NoDeficit(b')
      && (!EverCallSkews(b, calls, expected) && Tallied(b) ==> Tallied(b'))
      && (!EverCallSkews(b, calls, expected) && FairLog(b.matches) ==> FairLog(b'.matches))
      && (Broken(b) || EverCallSkews(b, calls, expected) ==> Broken(b'))
    decreases |calls|
  {
    if calls != [] {
      var prior, c := calls[..|calls| - 1], calls[|calls| - 1];
      CallsKeepBook(b, prior, expected);
      hide WellFormed; hide Tallied; hide FairLog; hide NoDeficit; hide Broken; hide StepsOf; hide Called;
      hide CallSkews;
      var was := Calls(b, prior, expected);
      CallIsRun(was, c, expected);
      hide Run; hide Legal; hide EverSkews;
      RunKeepsBook(was, StepsOf(was, c, expected));
    }
  }

  /** After any calls, whatever was refused, failed or drawn, the counters agree with the log exactly
      when no executor named an existing agent that did not play. */
  lemma {:induction false} CallsAgreeExactlyWhenUnskewed(b: Book, calls: seq<Call>, expected: Scores)
    requires WellFormed(b) && Tallied(b) && FreshIDs(b, calls, expected)
    ensures Tallied(Calls(b, calls, expected)) <==> !EverCallSkews(b, calls, expected)
  {
    var b' := Calls(b, calls, expected);
    TalliedIsNotBroken(b);
    CallsKeepBook(b, calls, expected);
    if Tallied(b') { TalliedIsNotBroken(b'); }
    hide Calls; hide FreshIDs; hide EverCallSkews; hide Tallied; hide Broken; hide NoDeficit; hide WellFormed;
  }

  // ---- agents that never initiate again ----

  predicate IsOpen(m: MatchRow) { m.status.Pending? || m.status.Running? }

  function InOpenMatch(b: Book): set<string> {
    (set k | k in b.matches && IsOpen(b.matches[k]) :: b.matches[k].agent1)
    + (set k | k in b.matches && IsOpen(b.matches[k]) :: b.matches[k].agent2)
  }

  /** The call gets as far as the executor and comes back without a result the log takes. */
  predicate Strands(b: Book, c: Call, id: string) {
    && Goes(b, c) && (id == c.id1 || id == c.id2)
    && (!c.execution.Success? || NoAgent(b.agents, c.execution.winner))
  }

  predicate StrandedAt(b: Book, calls: seq<Call>, i: int, expected: Scores, id: string) {
    0 <= i < |calls| && Strands(Calls(b, calls[..i], expected), calls[i], id)
  }

  lemma {:induction false} InOpenIffPlays(b: Book, id: string)
    ensures id in InOpenMatch(b) <==> exists k :: k in b.matches && IsOpen(b.matches[k]) && Plays(b.matches[k], id)
  {
  }

  lemma {:induction false} CalledMatches(b: Book, c: Call, expected: Scores)
    requires c.matchID !in b.matches
    ensures var after := Called(b, c, expected).matches;
      && (forall k :: k in b.matches ==> k in after && after[k] == b.matches[k])
      && (forall k :: k in after && k !in b.matches ==>
            k == c.matchID && Goes(b, c) && after[k].agent1 == c.id1 && after[k].agent2 == c.id2
            && (IsOpen(after[k]) <==> !c.execution.Success? || NoAgent(b.agents, c.execution.winner)))
      && (Goes(b, c) ==> c.matchID in after)
  {
  }

  lemma {:induction false} CallStrands(b: Book, c: Call, expected: Scores, id: string)
    requires c.matchID !in b.matches
    ensures id in InOpenMatch(Called(b, c, expected)) <==> id in InOpenMatch(b) || Strands(b, c, id)
  {
    var after := Called(b, c, expected);
    CalledMatches(b, c, expected);
    InOpenIffPlays(b, id);
    InOpenIffPlays(after, id);
    hide Called; hide InOpenMatch; hide Goes;
    if Strands(b, c, id) { assert Plays(after.matches[c.matchID], id); }
    if id in InOpenMatch(b) {
      var k :| k in b.matches && IsOpen(b.matches[k]) && Plays(b.matches[k], id);
      assert k in after.matches;
    }
  }

  /** An agent is left in an open match exactly when some call for it reached the executor and came
      back without a result the log takes. */
  lemma {:induction false} OpenExactlyWhenStranded(b: Book, calls: seq<Call>, expected: Scores, id: string)
    requires FreshIDs(b, calls, expected)
    ensures id in InOpenMatch(Calls(b, calls, expected)) <==>
            id in InOpenMatch(b) ||
            exists i :: StrandedAt(b, calls, i, expected, id)
    decreases |calls|
  {
    if calls != [] {
      var n := |calls| - 1;
      var prior := calls[..n];
      OpenExactlyWhenStranded(b, prior, expected, id);
      CallStrands(Calls(b, prior, expected), calls[n], expected, id);
      hide InOpenMatch; hide Strands; hide Called;
      forall i | 0 <= i < n ensures StrandedAt(b, calls, i, expected, id) <==> StrandedAt(b, prior, i, expected, id) {
        assert calls[..i] == prior[..i];
      }
      assert StrandedAt(b, calls, n, expected, id) <==> Strands(Calls(b, prior, expected), calls[n], id);
      hide StrandedAt;
      assert (exists i :: StrandedAt(b, prior, i, expected, id)) ==> exists i :: StrandedAt(b, calls, i, expected, id);
    }
  }

  /** Such an agent is in no waiting list ever after, so no pass starts with it: no later call closes
      the match. */
  lemma {:induction false} StrandedForever(
      b: Book, c: Call, later: seq<Call>, expected: Scores, id: string, list: seq<Q.QueueRow>, table: Q.Table,
      environmentID: string, stats: map<string, G.Stats>, config: G.Config, now: int)
    requires c.matchID !in b.matches && Strands(b, c, id)
    requires FreshIDs(Called(b, c, expected), later, expected)
    requires var open := InOpenMatch(Calls(Called(b, c, expected), later, expected));
      Q.IsWaitingList(list, table, environmentID, open, stats, config, now)
    ensures forall r :: r in list ==> r.agentID != id
  {
    CallStrands(b, c, expected, id);
    OpenExactlyWhenStranded(Called(b, c, expected), later, expected, id);
  }

  /** Its waiting row is still there, though, and the search does not ask for open matches: to any other
      agent it is a candidate like every other, and the only one there can be when it is the only one
      waiting in range. */
  lemma {:induction false} StrandedIsStillAnOpponent(
      b: Book, c: Call, later: seq<Call>, expected: Scores, r: Q.QueueRow, table: Q.Table, q: Q.QueueRow,
      environmentID: string, range: int)
    requires c.matchID !in b.matches && Strands(b, c, r.agentID)
    requires FreshIDs(Called(b, c, expected), later, expected)
    requires r in table.Values && r.environmentID == environmentID && r.status == Q.Waiting
    requires r.agentID != q.agentID && Q.Gap(q.eloRating, r) <= range
    ensures r.agentID in InOpenMatch(Calls(Called(b, c, expected), later, expected))
    ensures r in Q.Candidates(table, q.agentID, environmentID, q.eloRating, range)
    ensures Q.Candidates(table, q.agentID, environmentID, q.eloRating, range) == {r} ==>
              Q.IsBest(table, q, environmentID, range, r)
  {
    CallStrands(b, c, expected, r.agentID);
    OpenExactlyWhenStranded(Called(b, c, expected), later, expected, r.agentID);
  }

  // ---- what a call does to ratings ----

  /** The agent the rating service scores as the winner; any winner but agent 1 is agent 2. */
  function ScoredWinner(c: Call): string
    requires c.execution.Success?
  {
    if c.execution.winner == Some(c.id1) then c.id1 else c.id2
  }

  /** A call moves no rating by more than the agent's K-factor, and only those of its two agents on a
      result the log takes; who is scored as the winner never falls and the other never rises. */
  lemma {:induction false} CallMovesRatings(b: Book, c: Call, expected: Scores, id: string)
    requires id in b.agents && b.agents[id].elo >= 0
    requires forall e1, e2 :: 0.0 <= expected(e1, e2) <= 1.0
    ensures id in Called(b, c, expected).agents
    ensures var before, after := b.agents[id], Called(b, c, expected).agents[id];
      && -KPoints(before.totalMatches) <= after.elo - before.elo <= KPoints(before.totalMatches)
      && after.elo >= 0
      && (after != before ==>
            && Goes(b, c) && c.execution.Success? && !NoAgent(b.agents, c.execution.winner)
            && (id == c.id1 || id == c.id2)
            && (c.execution.winner.Some? && id == ScoredWinner(c) ==> after.elo >= before.elo)
            && (c.execution.winner.Some? && id != ScoredWinner(c) ==> after.elo <= before.elo))
  {
    if Goes(b, c) && c.execution.Success? {
      var a1, a2, w, r1 := b.agents[c.id1], b.agents[c.id2], c.execution.winner, ResultFor(c.id1, c.execution.winner);
      ChangesAreBounded(a1.elo, a2.elo, a1.totalMatches, a2.totalMatches, r1, expected(a1.elo, a2.elo));
    }
    hide CalculateNewRatingsWithMatchCounts; hide KPoints; hide ResultSaved; hide Refusal;
  }

  /** What agent 1 scored: the whole point, half of it, or nothing. */
  predicate Scored(c: Call, score: real) {
    && c.execution.Success?
    && (c.execution.winner.None? ==> score == 0.5)
    && (c.execution.winner == Some(c.id1) ==> score == 1.0)
    && (c.execution.winner.Some? && c.execution.winner != Some(c.id1) ==> score == 0.0)
  }

  /** The log and both ratings of a result: each agent's change is its K-factor times what it scored
      beyond its expected score, rounded, and is added to the rating as far as that stays above zero. */
  lemma {:induction false} CallPaysWhatIsDue(b: Book, c: Call, expected: Scores, score: real)
    requires Goes(b, c) && Scored(c, score) && !NoAgent(b.agents, c.execution.winner)
    ensures c.id1 in b.agents && c.id2 in b.agents && c.matchID in Called(b, c, expected).matches
    ensures c.id1 in Called(b, c, expected).agents && c.id2 in Called(b, c, expected).agents
    ensures var a1, a2, after := b.agents[c.id1], b.agents[c.id2], Called(b, c, expected);
      var k1 := if a1.totalMatches < 10 then 40.0 else if a1.totalMatches < 20 then 32.0 else 24.0;
      var k2 := if a2.totalMatches < 10 then 40.0 else if a2.totalMatches < 20 then 32.0 else 24.0;
      var due1, due2 := k1 * (score - expected(a1.elo, a2.elo)), k2 * (expected(a1.elo, a2.elo) - score);
      var row := after.matches[c.matchID];
      && row == MatchRow(a1.environmentID, c.id1, c.id2, Completed, c.execution.winner, row.change1, row.change2)
      && row.change1.Some? && due1 - 0.5 <= row.change1.value as real <= due1 + 0.5
      && row.change2.Some? && due2 - 0.5 <= row.change2.value as real <= due2 + 0.5
      && after.agents[c.id1].elo == AtLeastZero(a1.elo + row.change1.value)
      && after.agents[c.id2].elo == AtLeastZero(a2.elo + row.change2.value)
  {
    var a1, a2 := b.agents[c.id1], b.agents[c.id2];
    var e := expected(a1.elo, a2.elo);
    ChangesAreDue(a1.elo, a2.elo, a1.totalMatches, a2.totalMatches, score, e);
    assert ResultFor(c.id1, c.execution.winner) == score;
    hide CalculateNewRatingsWithMatchCounts; hide ResultFor;
  }

  function AtLeastZero(x: int): int { if x < 0 then 0 else x }

  /** A draw never costs the agent that was expected to score less than half, and never helps the other;
      where half was expected nobody's rating moves. */
  lemma {:induction false} DrawHelpsTheWeaker(b: Book, c: Call, expected: Scores)
    requires Goes(b, c) && c.execution == Success(None)
    requires b.agents[c.id1].elo >= 0 && b.agents[c.id2].elo >= 0
    requires 0.0 <= expected(b.agents[c.id1].elo, b.agents[c.id2].elo) <= 1.0
    ensures c.id1 in Called(b, c, expected).agents && c.id2 in Called(b, c, expected).agents
    ensures var before1, before2 := b.agents[c.id1].elo, b.agents[c.id2].elo;
      var after1, after2 := Called(b, c, expected).agents[c.id1].elo, Called(b, c, expected).agents[c.id2].elo;
      && (expected(before1, before2) <= 0.5 ==> after1 >= before1 && after2 <= before2)
      && (expected(before1, before2) >= 0.5 ==> after1 <= before1 && after2 >= before2)
  {
    var a1, a2 := b.agents[c.id1], b.agents[c.id2];
    var e := expected(a1.elo, a2.elo);
    var r := Rated(a1, a2, c.id1, None, expected);
    ChangesFollowShare(a1.elo, a2.elo, a1.totalMatches, a2.totalMatches, 0.5, e);
    assert r == CalculateNewRatingsWithMatchCounts(a1.elo, a2.elo, a1.totalMatches, a2.totalMatches, 0.5, e);
    hide CalculateNewRatingsWithMatchCounts; hide Rated;
  }

  // ---- what a call is refused for ----

  predicate Runnable(a: AgentRow, sources: map<string, string>) {
    a.activeSubmissionID.Some? && a.activeSubmissionID.value in sources && sources[a.activeSubmissionID.value] != ""
  }

  /** A call goes to the executor exactly for two different agents of one environment with something to
      run each; and the two refusals that need no look at the submissions come first. */
  lemma {:induction false} CallGoesExactlyWhen(b: Book, c: Call)
    ensures Goes(b, c) <==>
            && c.id1 != c.id2 && c.id1 in b.agents && c.id2 in b.agents
            && b.agents[c.id1].environmentID == b.agents[c.id2].environmentID
            && Runnable(b.agents[c.id1], c.sources) && Runnable(b.agents[c.id2], c.sources)
    ensures Refusal(b, c.id1, c.id2, c.sources) == Some(SameAgent) <==> c.id1 == c.id2
    ensures Refusal(b, c.id1, c.id2, c.sources) == Some(AgentNotFound) <==>
            c.id1 != c.id2 && (c.id1 !in b.agents || c.id2 !in b.agents)
    ensures Refusal(b, c.id1, c.id2, c.sources) == Some(DifferentEnvironment) <==>
            && c.id1 != c.id2 && c.id1 in b.agents && c.id2 in b.agents
            && b.agents[c.id1].environmentID != b.agents[c.id2].environmentID
    ensures Refusal(b, c.id1, c.id2, c.sources) == Some(AgentNotReady) <==>
            && c.id1 != c.id2 && c.id1 in b.agents && c.id2 in b.agents
            && b.agents[c.id1].environmentID == b.agents[c.id2].environmentID
            && (b.agents[c.id1].activeSubmissionID.None? || b.agents[c.id2].activeSubmissionID.None?)
  {
  }

  // ---- what follows a result ----

  /** After a saved result both agents wait again, in their environments' queues, at priority 5 and with
      the ratings now stored; each has one match more to its count; and neither passes the gate before
      its cooldown is over. No other agent's queue or gate row changed. */
  lemma {:induction false} BothWaitAndRest(
      oldRows: map<string, G.Stats>, rows: map<string, G.Stats>, before: Q.Table, after: Q.Table,
      k1: (string, string), k2: (string, string), agents: Agents, now: int, config: G.Config, k: (string, string))
    requires k1.0 in agents && k2.0 in agents && k1.0 != k2.0
    requires Followed(false, oldRows, rows, before, after, k1, k2, agents, now) && config.matchCooldown > 0
    ensures k == k1 || k == k2 ==>
              && k in after && after[k].status == Q.Waiting && after[k].eloRating == agents[k.0].elo
              && after[k].priority == 5 && after[k].queuedAt == now
              && k.0 in rows && rows[k.0].lastMatchAt == Some(now) && G.Judge(rows[k.0], config, now) != G.Allowed
              && rows[k.0].totalMatches == 1 + if k.0 in oldRows then oldRows[k.0].totalMatches else 0
    ensures k != k1 && k != k2 ==> (k in after <==> k in before) && (k in before ==> after[k] == before[k])
    ensures k.0 != k1.0 && k.0 != k2.0 ==>
              (k.0 in rows <==> k.0 in oldRows) && (k.0 in rows ==> rows[k.0] == oldRows[k.0])
  {
  }

  /** A result the log refuses leaves queue and gate as they were. */
  lemma {:induction false} RefusedLeavesAll(
      oldRows: map<string, G.Stats>, rows: map<string, G.Stats>, before: Q.Table, after: Q.Table,
      k1: (string, string), k2: (string, string), agents: Agents, now: int)
    requires k1.0 in agents && k2.0 in agents
    requires Followed(true, oldRows, rows, before, after, k1, k2, agents, now)
    ensures rows == oldRows && after == before
  {
  }
}
