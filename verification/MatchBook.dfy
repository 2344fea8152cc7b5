/** Match results: the log of matches, the rating and the counters of every agent, and the service
    that keeps them. The gate's counters and the matchmaking queue are updated along with them. */
module MatchBook {
  import opened Options
  import opened EloService
  import G = MatchGate
  import Q = Matchmaking

  const QUEUE_PRIORITY := 5

  datatype AgentRow = AgentRow(
    environmentID: string, activeSubmissionID: Option<string>,
    elo: int, wins: int, losses: int, draws: int, totalMatches: int)

  datatype Status = Pending | Running | Completed | Failed

  datatype MatchRow = MatchRow(
    environmentID: string, agent1: string, agent2: string, status: Status,
    winner: Option<string>, change1: Option<int>, change2: Option<int>)

  type Agents = map<string, AgentRow>
  type Matches = map<string, MatchRow>

  datatype Book = Book(agents: Agents, matches: Matches)

  /** What the executor answers: an error, a status other than success, or a result. */
  datatype Execution = ExecutorError | NotSuccessful | Success(winner: Option<string>)

  datatype Error =
    | SameAgent | AgentNotFound | DifferentEnvironment | AgentNotReady
    | SubmissionNotFound | SubmissionNotReady | ExecutorFailed

  // ---- the single statements ----

  /** UPDATE agents ...: nothing happens to an agent that does not exist. */
  function StatsUpdated(agents: Agents, id: string, change: int, won: bool, lost: bool, draw: bool): Agents {
    if id !in agents then agents else
      var a := agents[id];
      agents[id := a.(
        elo := if a.elo + change < 0 then 0 else a.elo + change,
        wins := a.wins + if won then 1 else 0,
        losses := a.losses + if !won && lost then 1 else 0,
        draws := a.draws + if !won && !lost && draw then 1 else 0,
        totalMatches := a.totalMatches + 1)]
  }

  /** The foreign key of a match's winner: one that is no agent's row refuses the update. */
  predicate NoAgent(agents: Agents, winner: Option<string>) { winner.Some? && winner.value !in agents }

  /** The update of a result, when it is not refused. */
  function ResultSaved(matches: Matches, id: string, winner: Option<string>, change1: int, change2: int): Matches {
    if id !in matches then matches else
      matches[id := matches[id].(
        status := Completed, winner := winner, change1 := Some(change1), change2 := Some(change2))]
  }

  function Opened(b: Book, matchID: string, environmentID: string, id1: string, id2: string): Book {
    b.(matches := b.matches[matchID := MatchRow(environmentID, id1, id2, Pending, None, None, None)])
  }

  /** The result as the service scores it for agent 1; any winner but agent 1 counts as a loss. */
  function ResultFor(id1: string, winner: Option<string>): real {
    if winner.None? then 0.5 else if winner.value == id1 then 1.0 else 0.0
  }

  predicate ResultRefused(b: Book, matchID: string, winner: Option<string>) {
    matchID in b.matches && NoAgent(b.agents, winner)
  }

  /** The whole bookkeeping of one result, with the changes the rating service computed. Nothing is
      counted for a result the log refuses. */
  function Settled(
      b: Book, matchID: string, id1: string, id2: string, winner: Option<string>, c1: int, c2: int): Book
  {
    if ResultRefused(b, matchID, winner) then b else
      var won1, lost1, draw := winner == Some(id1), winner == Some(id2), winner.None?;
      var first := StatsUpdated(b.agents, id1, c1, won1, lost1, draw);
      Book(StatsUpdated(first, id2, c2, !won1 && !draw, won1, draw), ResultSaved(b.matches, matchID, winner, c1, c2))
  }

  /** Ratings from the agents as they were read before the match was run. */
  function Rated(
      a1: AgentRow, a2: AgentRow, id1: string, winner: Option<string>, expected: (int, int) -> real): Ratings
  {
    CalculateNewRatingsWithMatchCounts(
      a1.elo, a2.elo, a1.totalMatches, a2.totalMatches, ResultFor(id1, winner), expected(a1.elo, a2.elo))
  }

  /** The first check of CreateAndExecute that fails, in its order. `sources` maps a submission to what
      the executor would run for it; an empty source is a submission that is not ready. */
  function Refusal(b: Book, id1: string, id2: string, sources: map<string, string>): Option<Error> {
    if id1 == id2 then Some(SameAgent)
    else if id1 !in b.agents || id2 !in b.agents then Some(AgentNotFound)
    else
      var a1, a2 := b.agents[id1], b.agents[id2];
      if a1.environmentID != a2.environmentID then Some(DifferentEnvironment)
      else if a1.activeSubmissionID.None? || a2.activeSubmissionID.None? then Some(AgentNotReady)
      else if a1.activeSubmissionID.value !in sources || a2.activeSubmissionID.value !in sources then
        Some(SubmissionNotFound)
      else if sources[a1.activeSubmissionID.value] == "" || sources[a2.activeSubmissionID.value] == "" then
        Some(SubmissionNotReady)
      else None
  }

  /** A match the checks let through: opened, run and, on success only, settled. */
  function Executed(
      b: Book, matchID: string, id1: string, id2: string, execution: Execution, expected: (int, int) -> real): Book
    requires id1 in b.agents && id2 in b.agents
  {
    var open := Opened(b, matchID, b.agents[id1].environmentID, id1, id2);
    if execution.Success? then
      var r := Rated(b.agents[id1], b.agents[id2], id1, execution.winner, expected);
      Settled(open, matchID, id1, id2, execution.winner, r.change1, r.change2)
    else open
  }

  // ---- the repositories and the service ----

  class AgentRepository {
    var agents: Agents

    constructor (agents: Agents)
      ensures this.agents == agents
    {
      this.agents := agents;
    }

    method UpdateStats(id: string, eloChange: int, won: bool, lost: bool, draw: bool)
      modifies this
      ensures agents == StatsUpdated(old(agents), id, eloChange, won, lost, draw)
    {
      var winsInc, lossesInc, drawsInc := 0, 0, 0;
      if won {
        winsInc := 1;
      } else if lost {
        lossesInc := 1;
      } else if draw {
        drawsInc := 1;
      }
      if id in agents {
        var a := agents[id];
        var elo := if a.elo + eloChange > 0 then a.elo + eloChange else 0;
        agents := agents[id := a.(
          elo := elo, wins := a.wins + winsInc, losses := a.losses + lossesInc, draws := a.draws + drawsInc,
          totalMatches := a.totalMatches + 1)];
      }
    }
  }

  class MatchRepository {
    const agentRepo: AgentRepository
    var matches: Matches

    /** The agents' table is the one its foreign keys name. */
    constructor (agents: AgentRepository)
      ensures agentRepo == agents && matches == map[]
    {
      agentRepo, matches := agents, map[];
    }

    /** The database makes the ID. */
    method Create(matchID: string, environmentID: string, agent1ID: string, agent2ID: string)
      requires matchID !in matches
      modifies this
      ensures matches ==
              old(matches)[matchID := MatchRow(environmentID, agent1ID, agent2ID, Pending, None, None, None)]
    {
      matches := matches[matchID := MatchRow(environmentID, agent1ID, agent2ID, Pending, None, None, None)];
    }

    method UpdateResult(matchID: string, winner: Option<string>, change1: int, change2: int) returns (failed: bool)
      modifies this
      ensures failed == old(ResultRefused(Book(agentRepo.agents, matches), matchID, winner))
      ensures matches == if failed then old(matches) else ResultSaved(old(matches), matchID, winner, change1, change2)
    {
      if matchID in matches {
        if winner.Some? && winner.value !in agentRepo.agents {
          return true;
        }
        var m := matches[matchID];
        matches := matches[matchID := m.(
          status := Completed, winner := winner, change1 := Some(change1), change2 := Some(change2))];
      }
      return false;
    }
  }

  class MatchService {
    const agentRepo: AgentRepository
    const matchRepo: MatchRepository
    const statsRepo: G.AgentMatchStatsRepository
    const queueRepo: Q.MatchmakingRepository

    constructor (
        agents: AgentRepository, matches: MatchRepository, stats: G.AgentMatchStatsRepository,
        queue: Q.MatchmakingRepository)
      requires queue.Valid()
      requires matches.agentRepo == agents
      ensures Valid()
      ensures agentRepo == agents && matchRepo == matches && statsRepo == stats && queueRepo == queue
    {
      agentRepo, matchRepo, statsRepo, queueRepo := agents, matches, stats, queue;
    }

    ghost predicate Valid()
      reads queueRepo
    {
      matchRepo.agentRepo == agentRepo && queueRepo.Valid()
    }

    function Records(): Book
      reads agentRepo, matchRepo
    {
      Book(agentRepo.agents, matchRepo.matches)
    }

    /** The log, the ratings and the counters. */
    method SaveResult(
        matchID: string, id1: string, id2: string, a1: AgentRow, a2: AgentRow, winner: Option<string>,
        expected: (int, int) -> real)
      returns (failed: bool)
      requires matchRepo.agentRepo == agentRepo
      modifies agentRepo, matchRepo
      ensures failed == old(ResultRefused(Records(), matchID, winner))
      ensures var r := Rated(a1, a2, id1, winner, expected);
        Records() == Settled(old(Records()), matchID, id1, id2, winner, r.change1, r.change2)
    {
      hide CalculateNewRatingsWithMatchCounts; hide StatsUpdated; hide ResultSaved; hide ResultRefused;
      var matchResult := 0.0;
      if winner.None? {
        matchResult := 0.5;
      } else if winner.value == id1 {
        matchResult := 1.0;
      }
      var r := CalculateNewRatingsWithMatchCounts(
        a1.elo, a2.elo, a1.totalMatches, a2.totalMatches, matchResult, expected(a1.elo, a2.elo));
      failed := matchRepo.UpdateResult(matchID, winner, r.change1, r.change2);
      if failed {
        return;
      }
      var won1, lost1, draw := winner == Some(id1), winner == Some(id2), winner.None?;
      agentRepo.UpdateStats(id1, r.change1, won1, lost1, draw);
      agentRepo.UpdateStats(id2, r.change2, !won1 && !draw, won1, draw);
    }

    /** Back to the waiting table with the ratings of this moment. */
    method Requeue(id1: string, id2: string, env1: string, env2: string, now: int, ids: (string, string))
      requires Valid() && id1 != id2 && id1 in agentRepo.agents && id2 in agentRepo.agents
      modifies queueRepo
      ensures Valid()
      ensures Requeued(old(queueRepo.table), queueRepo.table, (id1, env1), (id2, env2), agentRepo.agents, now)
    {
      queueRepo.EnqueueAgent(id1, env1, agentRepo.agents[id1].elo, QUEUE_PRIORITY, now, ids.0);
      queueRepo.EnqueueAgent(id2, env2, agentRepo.agents[id2].elo, QUEUE_PRIORITY, now, ids.1);
    }

    /** Agents as read before the match; `ids` are what new queue rows would be called. */
    method ProcessMatchResult(
        matchID: string, id1: string, id2: string, a1: AgentRow, a2: AgentRow, winner: Option<string>,
        expected: (int, int) -> real, now: int, ids: (string, string))
      requires Valid() && id1 != id2 && id1 in agentRepo.agents && id2 in agentRepo.agents
      modifies agentRepo, matchRepo, statsRepo, queueRepo
      ensures Valid() && agentRepo.agents.Keys == old(agentRepo.agents.Keys)
      ensures var r := Rated(a1, a2, id1, winner, expected);
        Records() == Settled(old(Records()), matchID, id1, id2, winner, r.change1, r.change2)
      ensures Followed(
                old(ResultRefused(Records(), matchID, winner)), old(statsRepo.rows), statsRepo.rows,
                old(queueRepo.table), queueRepo.table, (id1, a1.environmentID), (id2, a2.environmentID),
                agentRepo.agents, now)
    {
      hide StatsUpdated; hide ResultSaved; hide Rated; hide G.Incremented; hide Requeued; hide ResultRefused;
      ghost var before := Records();
      ghost var r := Rated(a1, a2, id1, winner, expected);
      SettledKeepsAgents(before, matchID, id1, id2, winner, r.change1, r.change2);
      var failed := SaveResult(matchID, id1, id2, a1, a2, winner, expected);
      hide Settled;
      if failed {
        return;
      }
      statsRepo.IncrementMatchCount(id1, now);
      statsRepo.IncrementMatchCount(id2, now);
      Requeue(id1, id2, a1.environmentID, a2.environmentID, now, ids);
    }

    method CreateAndExecute(
        id1: string, id2: string, matchID: string, sources: map<string, string>, execution: Execution,
        expected: (int, int) -> real, now: int, ids: (string, string))
      returns (error: Option<Error>)
      requires Valid() && matchID !in matchRepo.matches
      modifies agentRepo, matchRepo, statsRepo, queueRepo
      ensures Valid() && agentRepo.agents.Keys == old(agentRepo.agents.Keys)
      ensures var refusal := old(Refusal(Records(), id1, id2, sources));
        if refusal.Some? then
          error == refusal && Records() == old(Records())
          && statsRepo.rows == old(statsRepo.rows) && queueRepo.table == old(queueRepo.table)
        else
          && error == (if execution.ExecutorError? then Some(ExecutorFailed) else None)
          && id1 in agentRepo.agents && id2 in agentRepo.agents
          && Records() == Executed(old(Records()), matchID, id1, id2, execution, expected)
          && var env := old(agentRepo.agents)[id1].environmentID;
             Followed(
               !execution.Success? || NoAgent(old(agentRepo.agents), execution.winner), old(statsRepo.rows),
               statsRepo.rows, old(queueRepo.table), queueRepo.table, (id1, env), (id2, env), agentRepo.agents, now)
    {
      if id1 == id2 {
        return Some(SameAgent);
      }
      if id1 !in agentRepo.agents {
        return Some(AgentNotFound);
      }
      var agent1 := agentRepo.agents[id1];
      if id2 !in agentRepo.agents {
        return Some(AgentNotFound);
      }
      var agent2 := agentRepo.agents[id2];
      if agent1.environmentID != agent2.environmentID {
        return Some(DifferentEnvironment);
      }
      if agent1.activeSubmissionID.None? || agent2.activeSubmissionID.None? {
        return Some(AgentNotReady);
      }
      var sub1, sub2 := agent1.activeSubmissionID.value, agent2.activeSubmissionID.value;
      if sub1 !in sources || sub2 !in sources {
        return Some(SubmissionNotFound);
      }
      if sources[sub1] == "" || sources[sub2] == "" {
        return Some(SubmissionNotReady);
      }
      hide Followed; hide Rated; hide Settled;
      matchRepo.Create(matchID, agent1.environmentID, id1, id2);
      match execution
      case ExecutorError => return Some(ExecutorFailed);
      case NotSuccessful => return None;
      case Success(winner) =>
        ProcessMatchResult(matchID, id1, id2, agent1, agent2, winner, expected, now, ids);
        return None;
    }
  }

  /** What follows a saved result, and only that: both agents' gates count a match and both wait again. */
  predicate Followed(
      refused: bool, oldRows: map<string, G.Stats>, rows: map<string, G.Stats>, before: Q.Table, after: Q.Table,
      k1: (string, string), k2: (string, string), agents: Agents, now: int)
    requires k1.0 in agents && k2.0 in agents
  {
    if refused then rows == oldRows && after == before else
      && rows == oldRows[k1.0 := Counted(oldRows, k1.0, now)][k2.0 := Counted(oldRows, k2.0, now)]
      && Requeued(before, after, k1, k2, agents, now)
  }

  function Counted(rows: map<string, G.Stats>, id: string, now: int): G.Stats {
    G.Incremented(if id in rows then Some(rows[id]) else None, now)
  }

  /** Both agents wait again, with their ratings of this moment; no other row changed. */
  predicate Requeued(
      before: Q.Table, after: Q.Table, k1: (string, string), k2: (string, string), agents: Agents, now: int)
    requires k1.0 in agents && k2.0 in agents
  {
    && after.Keys == before.Keys + {k1, k2}
    && (forall k :: k in before && k != k1 && k != k2 ==> after[k] == before[k])
    && WaitsAs(after[k1], agents[k1.0].elo, now)
    && WaitsAs(after[k2], agents[k2.0].elo, now)
  }

  predicate WaitsAs(r: Q.QueueRow, elo: int, now: int) {
    r.eloRating == elo && r.priority == 5 && r.queuedAt == now && r.status == Q.Waiting
  }

  lemma {:induction false} SettledKeepsAgents(
      b: Book, matchID: string, id1: string, id2: string, winner: Option<string>, c1: int, c2: int)
    ensures Settled(b, matchID, id1, id2, winner, c1, c2).agents.Keys == b.agents.Keys
  {
  }
}
