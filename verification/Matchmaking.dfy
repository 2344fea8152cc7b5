/** One matchmaking pass over the waiting table: the widening search for the nearest opponent and the
    greedy pairing loop around it. */
module Matchmaking {
  import opened Options
  import opened MatchGate

  const RANGE_STEP := 100

  datatype Status = Waiting | Matched | Expired

  /** A row of matchmaking_queue. */
  datatype QueueRow = QueueRow(
    id: string, agentID: string, environmentID: string, eloRating: int, priority: int, queuedAt: int,
    status: Status, matchedAt: Option<int>)

  /** The table, by its unique key of agent and environment. */
  type Table = map<(string, string), QueueRow>

  ghost predicate KeyedTable(table: Table) {
    forall k :: k in table ==> table[k].agentID == k.0 && table[k].environmentID == k.1
  }

  function Gap(elo: int, r: QueueRow): int { if r.eloRating >= elo then r.eloRating - elo else elo - r.eloRating }

  /** The query's order: smaller gap, then higher priority, then longer wait. It says nothing on rows
      equal in all three. */
  predicate NoWorse(elo: int, a: QueueRow, b: QueueRow) {
    || Gap(elo, a) < Gap(elo, b)
    || (Gap(elo, a) == Gap(elo, b)
        && (a.priority > b.priority || (a.priority == b.priority && a.queuedAt <= b.queuedAt)))
  }

  predicate Eligible(r: QueueRow, agentID: string, environmentID: string, elo: int, range: int) {
    && r.environmentID == environmentID && r.agentID != agentID && r.status == Waiting
    && elo - range <= r.eloRating <= elo + range
  }

  function Candidates(table: Table, agentID: string, environmentID: string, elo: int, range: int): set<QueueRow> {
    set r | r in table.Values && Eligible(r, agentID, environmentID, elo, range)
  }

  /** A row the query may return. */
  predicate IsBest(table: Table, q: QueueRow, environmentID: string, range: int, r: QueueRow) {
    var found := Candidates(table, q.agentID, environmentID, q.eloRating, range);
    r in found && forall o :: o in found ==> NoWorse(q.eloRating, r, o)
  }

  lemma {:induction false} BestExists(elo: int, rows: set<QueueRow>) returns (best: QueueRow)
    requires rows != {}
    ensures best in rows && forall o :: o in rows ==> NoWorse(elo, best, o)
    decreases rows
  {
    var first :| first in rows;
    best := first;
    if rows != {first} {
      var other := BestExists(elo, rows - {first});
      if !NoWorse(elo, first, other) { best := other; }
      assert rows == rows - {first} + {first};
    }
  }

  /** Widening the range only adds rows that are farther away. */
  lemma {:induction false} BestStaysBest(
      table: Table, q: QueueRow, environmentID: string, range: int, wider: int, r: QueueRow)
    requires IsBest(table, q, environmentID, range, r) && range <= wider
    ensures IsBest(table, q, environmentID, wider, r)
  {
  }

  /** What the widening search may answer: a best row of the widest range that is not taken, or
      nothing, when the widest range is empty or a best row of it is taken. */
  ghost predicate Answers(
      table: Table, q: QueueRow, environmentID: string, processed: set<string>, widest: int, res: Option<QueueRow>)
  {
    match res
    case Some(r) => IsBest(table, q, environmentID, widest, r) && r.agentID !in processed
    case None =>
      || Candidates(table, q.agentID, environmentID, q.eloRating, widest) == {}
      || exists r :: IsBest(table, q, environmentID, widest, r) && r.agentID in processed
  }

  /** The last range tried when starting at `start` and never passing `max`. */
  function Widest(start: int, max: int): int
    requires start <= max
  {
    start + (max - start) / RANGE_STEP * RANGE_STEP
  }

  datatype Pair = Pair(initiator: QueueRow, opponent: QueueRow)

  class MatchmakingRepository {
    var table: Table

    ghost predicate Valid()
      reads this
    {
      KeyedTable(table)
    }

    constructor ()
      ensures Valid() && table == map[]
    {
      table := map[];
    }

    /** Insert, or on a conflict refresh rating, priority, time and status of the row already there. */
    method EnqueueAgent(agentID: string, environmentID: string, eloRating: int, priority: int, now: int, newID: string)
      requires Valid()
      modifies this
      ensures Valid()
      ensures var k := (agentID, environmentID);
        && table.Keys == old(table).Keys + {k}
        && (forall o :: o in old(table) && o != k ==> table[o] == old(table)[o])
        && table[k] == QueueRow(
             if k in old(table) then old(table)[k].id else newID, agentID, environmentID, eloRating, priority, now,
             Waiting, if k in old(table) then old(table)[k].matchedAt else None)
    {
      var k := (agentID, environmentID);
      if k in table {
        var row := table[k];
        table := table[k := row.(eloRating := eloRating, priority := priority, queuedAt := now, status := Waiting)];
      } else {
        table := table[k := QueueRow(newID, agentID, environmentID, eloRating, priority, now, Waiting, None)];
      }
    }

    method FindOpponent(q: QueueRow, environmentID: string, eloRange: int) returns (res: Option<QueueRow>)
      ensures res.None? <==> Candidates(table, q.agentID, environmentID, q.eloRating, eloRange) == {}
      ensures res.Some? ==> IsBest(table, q, environmentID, eloRange, res.value)
    {
      var found := Candidates(table, q.agentID, environmentID, q.eloRating, eloRange);
      if found == {} {
        return None;
      }
      ghost var best := BestExists(q.eloRating, found);
      var r :| r in found && forall o :: o in found ==> NoWorse(q.eloRating, r, o);
      return Some(r);
    }
  }

  /** What creating one match does: whether it succeeds, and the table afterwards. Both agents may
      have been queued again, and other clients may have changed any row. */
  datatype MatchOutcome = MatchOutcome(created: bool, table: Table)

  class MatchmakingService {
    const matchmakingRepo: MatchmakingRepository
    const eloRange: int
    const maxEloRange: int

    constructor (repo: MatchmakingRepository)
      ensures matchmakingRepo == repo && eloRange == 100 && maxEloRange == 500
    {
      matchmakingRepo, eloRange, maxEloRange := repo, 100, 500;
    }

    /** The table does not change during the search. */
    method FindOpponentWithExpandingRange(q: QueueRow, environmentID: string, processed: set<string>)
      returns (res: Option<QueueRow>)
      ensures eloRange > maxEloRange ==> res == None
      ensures eloRange <= maxEloRange ==>
                Answers(matchmakingRepo.table, q, environmentID, processed, Widest(eloRange, maxEloRange), res)
    {
      var range := eloRange;
      ghost var n := 0;
      ghost var table := matchmakingRepo.table;
      while range <= maxEloRange
        invariant 0 <= n && range == eloRange + n * RANGE_STEP
        invariant 0 < n ==> range - RANGE_STEP <= maxEloRange
        invariant 0 < n ==> Answers(table, q, environmentID, processed, range - RANGE_STEP, None)
        decreases maxEloRange - range
      {
        var opponent := matchmakingRepo.FindOpponent(q, environmentID, range);
        if opponent.Some? && opponent.value.agentID !in processed {
          BestStaysBest(table, q, environmentID, range, Widest(eloRange, maxEloRange), opponent.value);
          return opponent;
        }
        range := range + RANGE_STEP;
        n := n + 1;
      }
      return None;
    }

    /** One greedy pass. `creates(i, t)` is the outcome of the i-th attempt to create a match, made when
        the table is t. `turns` says of every waiting row what the pass did with it. */
    method MatchEnvironment(waiting: seq<QueueRow>, environmentID: string, creates: (nat, Table) -> MatchOutcome)
      returns (pairs: seq<Pair>, matched: nat, processed: set<string>, ghost turns: seq<Turn>)
      requires eloRange <= maxEloRange
      modifies matchmakingRepo
      ensures turns == [] <==> |waiting| < 2
      ensures turns != [] ==> IsPass(turns, waiting, environmentID, Widest(eloRange, maxEloRange), creates)
      ensures turns != [] ==> turns[0].table == old(matchmakingRepo.table)
      ensures pairs == PairsOf(turns) && PairsOk(pairs, waiting)
      ensures processed == AgentsOf(pairs) && matched == 2 * |pairs|
    {
      pairs, matched, processed, turns := [], 0, {}, [];
      if |waiting| < 2 {
        return;
      }
      hide SoFar; hide IsPass; hide PairsOk; hide Answers; hide AgentsOf; hide PairsOf; hide Widest;
      ghost var widest, start := Widest(eloRange, maxEloRange), matchmakingRepo.table;
      NoTurnYet(environmentID, widest, creates, start);
      assert waiting[..0] == [];
      var attempts := 0;
      for n := 0 to |waiting|
        invariant |turns| == n
        invariant SoFar(Progress(turns, attempts, pairs, processed, matched, start, matchmakingRepo.table),
                        waiting[..n], environmentID, widest, creates)
      {
        var queue := waiting[n];
        ghost var before := Progress(turns, attempts, pairs, processed, matched, start, matchmakingRepo.table);
        ghost var turn := Turn(queue, matchmakingRepo.table, processed, Skipped);
        if queue.agentID !in processed {
          var opponent := FindOpponentWithExpandingRange(queue, environmentID, processed);
          turn := turn.(act := Alone);
          if opponent.Some? {
            var outcome := creates(attempts, matchmakingRepo.table);
            attempts := attempts + 1;
            matchmakingRepo.table := outcome.table;
            turn := turn.(act := Refused(opponent.value));
            if outcome.created {
              turn := turn.(act := Made(opponent.value));
              pairs := pairs + [Pair(queue, opponent.value)];
              processed := processed + {queue.agentID};
              processed := processed + {opponent.value.agentID};
              matched := matched + 2;
            }
          }
        }
        NextTurn(before, waiting[..n], environmentID, widest, creates, turn);
        assert waiting[..n + 1] == waiting[..n] + [queue];
        turns := turns + [turn];
      }
      assert waiting[..|waiting|] == waiting;
      FinalTurns(Progress(turns, attempts, pairs, processed, matched, start, matchmakingRepo.table),
                 waiting, environmentID, widest, creates);
    }
  }

  lemma {:induction false} FreeOpponent(t: Turn, environmentID: string, widest: int)
    requires t.act.Made? && Answers(t.table, t.row, environmentID, t.taken, widest, Some(t.act.opponent))
    ensures t.act.opponent.agentID !in t.taken && t.act.opponent.agentID != t.row.agentID
  {
  }

  lemma {:induction false} MoreWaiting(pairs: seq<Pair>, waiting: seq<QueueRow>, q: QueueRow)
    requires PairsOk(pairs, waiting)
    ensures PairsOk(pairs, waiting + [q])
  {
  }

  // ---- the pass, turn by turn ----

  datatype Act = Skipped | Alone | Refused(opponent: QueueRow) | Made(opponent: QueueRow)

  /** One waiting row's turn: the table it found, the agents taken by then and what came of it. */
  datatype Turn = Turn(row: QueueRow, table: Table, taken: set<string>, act: Act)

  function PairsOf(turns: seq<Turn>): seq<Pair> {
    if turns == [] then [] else
      var t := turns[|turns| - 1];
      PairsOf(turns[..|turns| - 1]) + if t.act.Made? then [Pair(t.row, t.act.opponent)] else []
  }

  predicate Tried(t: Turn) { t.act.Refused? || t.act.Made? }

  function Attempts(turns: seq<Turn>): nat {
    if turns == [] then 0 else Attempts(turns[..|turns| - 1]) + if Tried(turns[|turns| - 1]) then 1 else 0
  }

  function TableAfter(turns: seq<Turn>, i: nat, creates: (nat, Table) -> MatchOutcome): Table
    requires i < |turns|
  {
    if Tried(turns[i]) then creates(Attempts(turns[..i]), turns[i].table).table else turns[i].table
  }

  /** A taken agent is skipped; any other asks the search and, if that names an opponent, tries once. */
  ghost predicate TurnOk(
      t: Turn, attempt: nat, environmentID: string, widest: int, creates: (nat, Table) -> MatchOutcome)
  {
    match t.act
    case Skipped => t.row.agentID in t.taken
    case Alone => t.row.agentID !in t.taken && Answers(t.table, t.row, environmentID, t.taken, widest, None)
    case Refused(o) =>
      && t.row.agentID !in t.taken && Answers(t.table, t.row, environmentID, t.taken, widest, Some(o))
      && !creates(attempt, t.table).created
    case Made(o) =>
      && t.row.agentID !in t.taken && Answers(t.table, t.row, environmentID, t.taken, widest, Some(o))
      && creates(attempt, t.table).created
  }

  ghost predicate TurnAt(
      turns: seq<Turn>, waiting: seq<QueueRow>, i: nat, environmentID: string, widest: int,
      creates: (nat, Table) -> MatchOutcome)
    requires i < |turns| == |waiting|
  {
    && turns[i].row == waiting[i]
    && turns[i].taken == AgentsOf(PairsOf(turns[..i]))
    && TurnOk(turns[i], Attempts(turns[..i]), environmentID, widest, creates)
    && (i > 0 ==> turns[i].table == TableAfter(turns, i - 1, creates))
  }

  /** The turns of one pass over the waiting rows. */
  ghost predicate IsPass(
      turns: seq<Turn>, waiting: seq<QueueRow>, environmentID: string, widest: int,
      creates: (nat, Table) -> MatchOutcome)
  {
    |turns| == |waiting| && forall i :: 0 <= i < |turns| ==> TurnAt(turns, waiting, i, environmentID, widest, creates)
  }

  lemma {:induction false} TurnStays(
      turns: seq<Turn>, waiting: seq<QueueRow>, i: nat, environmentID: string, widest: int,
      creates: (nat, Table) -> MatchOutcome, t: Turn)
    requires i < |turns| == |waiting| && TurnAt(turns, waiting, i, environmentID, widest, creates)
    ensures TurnAt(turns + [t], waiting + [t.row], i, environmentID, widest, creates)
  {
    hide TurnOk; hide AgentsOf; hide PairsOf; hide Attempts;
    var more := turns + [t];
    assert more[..i] == turns[..i];
    if i > 0 { assert more[..i - 1] == turns[..i - 1]; }
  }

  lemma {:induction false} NewTurn(
      turns: seq<Turn>, waiting: seq<QueueRow>, environmentID: string, widest: int,
      creates: (nat, Table) -> MatchOutcome, t: Turn)
    requires |turns| == |waiting| && t.taken == AgentsOf(PairsOf(turns))
    requires TurnOk(t, Attempts(turns), environmentID, widest, creates)
    requires turns != [] ==> t.table == TableAfter(turns, |turns| - 1, creates)
    ensures TurnAt(turns + [t], waiting + [t.row], |turns|, environmentID, widest, creates)
  {
    hide TurnOk; hide AgentsOf; hide PairsOf; hide Attempts;
    var more, n := turns + [t], |turns|;
    assert more[..n] == turns;
    if n > 0 { assert more[..n - 1] == turns[..n - 1]; }
  }

  lemma {:induction false} OneTurnMore(
      turns: seq<Turn>, waiting: seq<QueueRow>, environmentID: string, widest: int,
      creates: (nat, Table) -> MatchOutcome, t: Turn)
    requires IsPass(turns, waiting, environmentID, widest, creates)
    requires t.taken == AgentsOf(PairsOf(turns))
    requires TurnOk(t, Attempts(turns), environmentID, widest, creates)
    requires turns != [] ==> t.table == TableAfter(turns, |turns| - 1, creates)
    ensures IsPass(turns + [t], waiting + [t.row], environmentID, widest, creates)
  {
    hide TurnAt; hide TurnOk; hide AgentsOf; hide PairsOf; hide Attempts; hide TableAfter;
    NewTurn(turns, waiting, environmentID, widest, creates, t);
    forall i | 0 <= i < |turns| ensures TurnAt(turns + [t], waiting + [t.row], i, environmentID, widest, creates) {
      TurnStays(turns, waiting, i, environmentID, widest, creates, t);
    }
  }

  lemma {:induction false} CountsOfOneMore(turns: seq<Turn>, creates: (nat, Table) -> MatchOutcome, t: Turn)
    ensures PairsOf(turns + [t]) == PairsOf(turns) + (if t.act.Made? then [Pair(t.row, t.act.opponent)] else [])
    ensures Attempts(turns + [t]) == Attempts(turns) + if Tried(t) then 1 else 0
    ensures TableAfter(turns + [t], |turns|, creates) ==
            if Tried(t) then creates(Attempts(turns), t.table).table else t.table
  {
  }

  /** The variables of the loop after some turns, with the table at the start and the one now. */
  datatype Progress = Progress(
    turns: seq<Turn>, attempts: nat, pairs: seq<Pair>, processed: set<string>, matched: nat, start: Table, table: Table)

  ghost predicate SoFar(
      p: Progress, waiting: seq<QueueRow>, environmentID: string, widest: int, creates: (nat, Table) -> MatchOutcome)
  {
    && IsPass(p.turns, waiting, environmentID, widest, creates)
    && p.attempts == Attempts(p.turns)
    && p.pairs == PairsOf(p.turns) && PairsOk(p.pairs, waiting)
    && p.processed == AgentsOf(p.pairs) && p.matched == 2 * |p.pairs|
    && (if p.turns == [] then p.table == p.start else
          p.turns[0].table == p.start && p.table == TableAfter(p.turns, |p.turns| - 1, creates))
  }

  function Advanced(p: Progress, t: Turn, creates: (nat, Table) -> MatchOutcome): Progress {
    var turns := p.turns + [t];
    if !Tried(t) then p.(turns := turns) else
      var tried := p.(turns := turns, attempts := p.attempts + 1, table := creates(p.attempts, p.table).table);
      if t.act.Refused? then tried else
        tried.(pairs := p.pairs + [Pair(t.row, t.act.opponent)],
               processed := p.processed + {t.row.agentID} + {t.act.opponent.agentID}, matched := p.matched + 2)
  }

  lemma {:induction false} NoTurnYet(
      environmentID: string, widest: int, creates: (nat, Table) -> MatchOutcome, table: Table)
    ensures SoFar(Progress([], 0, [], {}, 0, table, table), [], environmentID, widest, creates)
  {
  }

  lemma {:induction false} NextTurn(
      p: Progress, waiting: seq<QueueRow>, environmentID: string, widest: int, creates: (nat, Table) -> MatchOutcome,
      t: Turn)
    requires SoFar(p, waiting, environmentID, widest, creates)
    requires t.taken == p.processed && t.table == p.table
    requires TurnOk(t, p.attempts, environmentID, widest, creates)
    ensures SoFar(Advanced(p, t, creates), waiting + [t.row], environmentID, widest, creates)
  {
    hide IsPass; hide PairsOk; hide Answers; hide AgentsOf; hide PairsOf; hide Attempts; hide TableAfter;
    OneTurnMore(p.turns, waiting, environmentID, widest, creates, t);
    CountsOfOneMore(p.turns, creates, t);
    MoreWaiting(p.pairs, waiting, t.row);
    if t.act.Made? {
      FreeOpponent(t, environmentID, widest);
      AddPair(p.pairs, waiting, t.row, t.act.opponent);
    }
  }

  lemma {:induction false} FinalTurns(
      p: Progress, waiting: seq<QueueRow>, environmentID: string, widest: int, creates: (nat, Table) -> MatchOutcome)
    requires SoFar(p, waiting, environmentID, widest, creates) && |p.turns| > 0
    ensures IsPass(p.turns, waiting, environmentID, widest, creates) && p.turns[0].table == p.start
    ensures p.pairs == PairsOf(p.turns) && PairsOk(p.pairs, waiting)
    ensures p.processed == AgentsOf(p.pairs) && p.matched == 2 * |p.pairs|
  {
  }

  // ---- what a pass makes ----

  function AgentsOf(pairs: seq<Pair>): set<string> {
    if pairs == [] then {} else
      var p := pairs[|pairs| - 1];
      AgentsOf(pairs[..|pairs| - 1]) + {p.initiator.agentID, p.opponent.agentID}
  }

  /** The agent at place 2i or 2i + 1 of the pairs. */
  function AgentAt(pairs: seq<Pair>, place: nat): string
    requires place < 2 * |pairs|
  {
    var p := pairs[place / 2];
    if place % 2 == 0 then p.initiator.agentID else p.opponent.agentID
  }

  /** A matching: no agent stands in two places, so no pair is an agent against itself either; every
      initiator comes from the waiting list. */
  predicate PairsOk(pairs: seq<Pair>, waiting: seq<QueueRow>) {
    && (forall i, j :: 0 <= i < j < 2 * |pairs| ==> AgentAt(pairs, i) != AgentAt(pairs, j))
    && forall i :: 0 <= i < |pairs| ==> pairs[i].initiator in waiting
  }

  predicate HasPlace(pairs: seq<Pair>, a: string) { exists i :: 0 <= i < 2 * |pairs| && AgentAt(pairs, i) == a }

  lemma {:induction false} PlacesOfOneMore(pairs: seq<Pair>, p: Pair, a: string)
    ensures HasPlace(pairs + [p], a) <==> HasPlace(pairs, a) || a == p.initiator.agentID || a == p.opponent.agentID
  {
    var more, n := pairs + [p], |pairs|;
    forall i | 0 <= i < 2 * n ensures AgentAt(more, i) == AgentAt(pairs, i) {}
    assert AgentAt(more, 2 * n) == p.initiator.agentID && AgentAt(more, 2 * n + 1) == p.opponent.agentID;
    hide AgentAt;
    if HasPlace(pairs, a) {
      var i :| 0 <= i < 2 * n && AgentAt(pairs, i) == a;
      assert AgentAt(more, i) == a;
    }
    if HasPlace(more, a) {
      var i :| 0 <= i < 2 * |more| && AgentAt(more, i) == a;
      assert i < 2 * n || i == 2 * n || i == 2 * n + 1;
    }
  }

  lemma {:induction false} AgentsAtPlaces(pairs: seq<Pair>)
    ensures forall a :: a in AgentsOf(pairs) <==> HasPlace(pairs, a)
    decreases |pairs|
  {
    if pairs != [] {
      var prior, p := pairs[..|pairs| - 1], pairs[|pairs| - 1];
      assert pairs == prior + [p];
      AgentsAtPlaces(prior);
      forall a
        ensures HasPlace(pairs, a) <==> HasPlace(prior, a) || a == p.initiator.agentID || a == p.opponent.agentID
      {
        PlacesOfOneMore(prior, p, a);
      }
      hide HasPlace;
    }
  }

  lemma {:induction false} AddPair(pairs: seq<Pair>, waiting: seq<QueueRow>, q: QueueRow, o: QueueRow)
    requires PairsOk(pairs, waiting)
    requires q.agentID !in AgentsOf(pairs) && o.agentID !in AgentsOf(pairs) && q.agentID != o.agentID
    ensures PairsOk(pairs + [Pair(q, o)], waiting + [q])
    ensures AgentsOf(pairs + [Pair(q, o)]) == AgentsOf(pairs) + {q.agentID, o.agentID}
  {
    var more, n := pairs + [Pair(q, o)], |pairs|;
    assert more[..n] == pairs;
    AgentsAtPlaces(pairs);
    forall i, j | 0 <= i < j < 2 * |more| ensures AgentAt(more, i) != AgentAt(more, j) {
      if i < 2 * n { assert AgentAt(more, i) == AgentAt(pairs, i); }
      if j < 2 * n { assert AgentAt(more, j) == AgentAt(pairs, j); }
    }
  }

  lemma {:induction false} FewerPairsOk(pairs: seq<Pair>, waiting: seq<QueueRow>)
    requires PairsOk(pairs, waiting) && pairs != []
    ensures PairsOk(pairs[..|pairs| - 1], waiting)
  {
    var n := |pairs| - 1;
    forall i, j | 0 <= i < j < 2 * n ensures AgentAt(pairs[..n], i) != AgentAt(pairs[..n], j) {
      assert AgentAt(pairs[..n], i) == AgentAt(pairs, i) && AgentAt(pairs[..n], j) == AgentAt(pairs, j);
    }
  }

  lemma {:induction false} LastPairIsNew(pairs: seq<Pair>, waiting: seq<QueueRow>)
    requires PairsOk(pairs, waiting) && pairs != []
    ensures var n := |pairs| - 1;
      var a, b := pairs[n].initiator.agentID, pairs[n].opponent.agentID;
      a != b && a !in AgentsOf(pairs[..n]) && b !in AgentsOf(pairs[..n])
  {
    var n := |pairs| - 1;
    AgentsAtPlaces(pairs[..n]);
    assert AgentAt(pairs, 2 * n) == pairs[n].initiator.agentID;
    assert AgentAt(pairs, 2 * n + 1) == pairs[n].opponent.agentID;
    hide AgentsOf;
    forall i | 0 <= i < 2 * n ensures AgentAt(pairs[..n], i) == AgentAt(pairs, i) {}
  }

  /** So the counter of matched agents counts agents. */
  lemma {:induction false} MatchedIsTwice(pairs: seq<Pair>, waiting: seq<QueueRow>)
    requires PairsOk(pairs, waiting)
    ensures |AgentsOf(pairs)| == 2 * |pairs|
    decreases |pairs|
  {
    if pairs != [] {
      FewerPairsOk(pairs, waiting);
      LastPairIsNew(pairs, waiting);
      hide PairsOk; hide AgentAt;
      MatchedIsTwice(pairs[..|pairs| - 1], waiting);
    }
  }

  lemma {:induction false} PairsOfOneMore(turns: seq<Turn>, t: Turn)
    ensures PairsOf(turns + [t]) == PairsOf(turns) + if t.act.Made? then [Pair(t.row, t.act.opponent)] else []
    ensures AgentsOf(PairsOf(turns + [t])) ==
            AgentsOf(PairsOf(turns)) + if t.act.Made? then {t.row.agentID, t.act.opponent.agentID} else {}
  {
    assert (turns + [t])[..|turns|] == turns;
    if t.act.Made? {
      var pairs, p := PairsOf(turns), Pair(t.row, t.act.opponent);
      assert (pairs + [p])[..|pairs|] == pairs;
    } else {
      assert PairsOf(turns) + [] == PairsOf(turns);
    }
  }

  /** Whoever is taken stays taken, and a match made takes both its agents. */
  lemma {:induction false} TakenStaysTaken(turns: seq<Turn>, i: nat)
    requires i < |turns|
    ensures AgentsOf(PairsOf(turns[..i])) <= AgentsOf(PairsOf(turns))
    ensures turns[i].act.Made? ==>
              turns[i].row.agentID in AgentsOf(PairsOf(turns))
              && turns[i].act.opponent.agentID in AgentsOf(PairsOf(turns))
    decreases |turns|
  {
    var n := |turns| - 1;
    var prior := turns[..n];
    assert turns == prior + [turns[n]];
    PairsOfOneMore(prior, turns[n]);
    hide AgentsOf; hide PairsOf;
    if i < n {
      TakenStaysTaken(prior, i);
      assert prior[..i] == turns[..i];
    }
  }

  /** When every match the pass tries is created, an agent it leaves over had, at its turn, nobody within
      500 points or a nearest opponent that the pass has paired. */
  lemma {:induction false} LeftOverOnlyWhen(
      turns: seq<Turn>, waiting: seq<QueueRow>, environmentID: string, creates: (nat, Table) -> MatchOutcome, i: nat)
    requires IsPass(turns, waiting, environmentID, Widest(100, 500), creates) && i < |waiting|
    requires forall n, t :: creates(n, t).created
    requires waiting[i].agentID !in AgentsOf(PairsOf(turns))
    ensures var q, table := waiting[i], turns[i].table;
      || (forall r :: IsOther(table, q, environmentID, r) ==> !(-500 <= r.eloRating - q.eloRating <= 500))
      || exists r :: IsBest(table, q, environmentID, 500, r) && r.agentID in AgentsOf(PairsOf(turns))
  {
    TakenStaysTaken(turns, i);
    assert TurnAt(turns, waiting, i, environmentID, Widest(100, 500), creates);
    assert Widest(100, 500) == 500;
    var q, t := waiting[i], turns[i];
    hide AgentsOf; hide PairsOf; hide Widest; hide Attempts; hide TableAfter; hide IsBest; hide IsPass;
    assert t.act == Alone && Answers(t.table, q, environmentID, t.taken, 500, None);
    if Candidates(t.table, q.agentID, environmentID, q.eloRating, 500) == {} {
      NobodyInRange(t.table, q, environmentID);
    }
  }

  lemma {:induction false} NobodyInRange(table: Table, q: QueueRow, environmentID: string)
    requires Candidates(table, q.agentID, environmentID, q.eloRating, 500) == {}
    ensures forall r :: IsOther(table, q, environmentID, r) ==> !(-500 <= r.eloRating - q.eloRating <= 500)
  {
    var found := Candidates(table, q.agentID, environmentID, q.eloRating, 500);
    forall r | IsOther(table, q, environmentID, r) && -500 <= r.eloRating - q.eloRating <= 500 ensures r in found {}
  }

  // ---- what the search finds ----

  /** The range-free statement: nobody waiting in the environment is strictly nearer. */
  lemma {:induction false} NobodyIsNearer(
      table: Table, q: QueueRow, environmentID: string, processed: set<string>, widest: int, r: QueueRow, o: QueueRow)
    requires Answers(table, q, environmentID, processed, widest, Some(r))
    requires o in table.Values && o.environmentID == environmentID && o.agentID != q.agentID && o.status == Waiting
    ensures Gap(q.eloRating, r) <= Gap(q.eloRating, o)
  {
    if Eligible(o, q.agentID, environmentID, q.eloRating, widest) {
      assert o in Candidates(table, q.agentID, environmentID, q.eloRating, widest);
    }
  }

  /** With a total tie-break the whole widening search is one nearest-neighbour query: its answer is
      the best row of the widest range if that one is free, and nothing otherwise. */
  lemma {:induction false} SearchIsOneQuery(
      table: Table, q: QueueRow, environmentID: string, processed: set<string>, widest: int,
      best: QueueRow, res: Option<QueueRow>)
    requires Answers(table, q, environmentID, processed, widest, res)
    requires IsBest(table, q, environmentID, widest, best)
    requires forall r :: IsBest(table, q, environmentID, widest, r) ==> r == best
    ensures res == if best.agentID in processed then None else Some(best)
  {
  }

  /** The search gives up, although somebody free is in range, exactly when the best row is taken. */
  lemma {:induction false} GivesUpExactlyWhen(
      table: Table, q: QueueRow, environmentID: string, processed: set<string>, widest: int,
      best: QueueRow, res: Option<QueueRow>, free: QueueRow)
    requires Answers(table, q, environmentID, processed, widest, res)
    requires IsBest(table, q, environmentID, widest, best)
    requires forall r :: IsBest(table, q, environmentID, widest, r) ==> r == best
    requires free in Candidates(table, q.agentID, environmentID, q.eloRating, widest) && free.agentID !in processed
    ensures res.None? <==> best.agentID in processed
  {
  }

  /** The last range tried is within a step of the configured maximum: whoever is 99 points nearer than
      it is reached, and nobody beyond it is. */
  lemma {:induction false} SearchReaches(
      table: Table, q: QueueRow, environmentID: string, start: int, max: int, r: QueueRow)
    requires start <= max && r in table.Values
    requires r.environmentID == environmentID && r.agentID != q.agentID && r.status == Waiting
    ensures var found := Candidates(table, q.agentID, environmentID, q.eloRating, Widest(start, max));
      && (Gap(q.eloRating, r) <= max - 99 ==> r in found)
      && (r in found ==> Gap(q.eloRating, r) <= max)
  {
  }

  predicate IsOther(table: Table, q: QueueRow, environmentID: string, r: QueueRow) {
    r in table.Values && r.environmentID == environmentID && r.agentID != q.agentID && r.status == Waiting
  }

  /** With the service's own ranges and nobody taken, the search finds nobody exactly when no other
      waiting agent of the environment is within 500 points. */
  lemma {:induction false} FindsNobodyExactlyWhen(
      table: Table, q: QueueRow, environmentID: string, res: Option<QueueRow>)
    requires Answers(table, q, environmentID, {}, Widest(100, 500), res)
    ensures res.None? <==>
            forall r :: IsOther(table, q, environmentID, r) ==> !(-500 <= r.eloRating - q.eloRating <= 500)
  {
    assert Widest(100, 500) == 500;
    hide Widest;
    var found := Candidates(table, q.agentID, environmentID, q.eloRating, 500);
    if found != {} {
      var r :| r in found;
      assert IsOther(table, q, environmentID, r);
    }
    forall r | IsOther(table, q, environmentID, r) && -500 <= r.eloRating - q.eloRating <= 500 ensures r in found {}
  }

  /** Whoever is found waits in the environment, is not the agent itself and not taken, is within 500
      points, and among all others as near has the highest priority and then the longest wait. */
  lemma {:induction false} FoundIsFirstInLine(
      table: Table, q: QueueRow, environmentID: string, processed: set<string>, r: QueueRow, o: QueueRow)
    requires Answers(table, q, environmentID, processed, Widest(100, 500), Some(r))
    ensures IsOther(table, q, environmentID, r) && r.agentID !in processed
    ensures -500 <= r.eloRating - q.eloRating <= 500
    ensures IsOther(table, q, environmentID, o) && Gap(q.eloRating, o) == Gap(q.eloRating, r) ==>
              r.priority > o.priority || (r.priority == o.priority && r.queuedAt <= o.queuedAt)
  {
    GapIsDistance(q.eloRating, r);
    GapIsDistance(q.eloRating, o);
    if IsOther(table, q, environmentID, o) && Gap(q.eloRating, o) == Gap(q.eloRating, r) {
      assert o in Candidates(table, q.agentID, environmentID, q.eloRating, Widest(100, 500));
    }
  }

  lemma {:induction false} GapIsDistance(elo: int, r: QueueRow)
    ensures Gap(elo, r) >= 0 && (r.eloRating == elo + Gap(elo, r) || r.eloRating == elo - Gap(elo, r))
  {
  }

  // ---- the waiting list ----

  /** A result of the waiting-list query: the environment's waiting rows of agents in no open match
      that pass both rate conditions, highest priority first, then longest wait. */
  ghost predicate IsWaitingList(
      list: seq<QueueRow>, table: Table, environmentID: string, inOpenMatch: set<string>,
      stats: map<string, Stats>, config: Config, now: int)
  {
    && (forall r :: r in list <==>
          && r in table.Values && r.environmentID == environmentID && r.status == Waiting
          && r.agentID !in inOpenMatch
          && PassesFilter(if r.agentID in stats then Some(stats[r.agentID]) else None, config, now))
    && (forall i, j :: 0 <= i < j < |list| ==>
          && list[i] != list[j]
          && (list[i].priority > list[j].priority
              || (list[i].priority == list[j].priority && list[i].queuedAt <= list[j].queuedAt)))
  }

  /** Whoever initiates a match of the pass is idle and within its limits by the snapshot; of the
      opponent the pass asks neither. */
  lemma {:induction false} InitiatorsPassedTheGate(
      pairs: seq<Pair>, list: seq<QueueRow>, table: Table, environmentID: string, inOpenMatch: set<string>,
      stats: map<string, Stats>, config: Config, now: int, i: nat)
    requires IsWaitingList(list, table, environmentID, inOpenMatch, stats, config, now)
    requires PairsOk(pairs, list) && i < |pairs|
    ensures var q := pairs[i].initiator;
      && q in table.Values && q.environmentID == environmentID && q.status == Waiting
      && q.agentID !in inOpenMatch
      && PassesFilter(if q.agentID in stats then Some(stats[q.agentID]) else None, config, now)
  {
  }

  /** Nobody in the list waits behind an agent of lower priority, or of the same that came later. */
  lemma {:induction false} EarlierInListIsMoreUrgent(
      list: seq<QueueRow>, table: Table, environmentID: string, inOpenMatch: set<string>,
      stats: map<string, Stats>, config: Config, now: int, i: nat, j: nat)
    requires IsWaitingList(list, table, environmentID, inOpenMatch, stats, config, now)
    requires i < |list| && j < |list|
    requires list[i].priority > list[j].priority
      || (list[i].priority == list[j].priority && list[i].queuedAt < list[j].queuedAt)
    ensures i < j
  {
    if i == j { assert false; }
  }
}
