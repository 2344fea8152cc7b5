/** Runs of the match bookkeeping: the counters of every agent against the log of completed matches. */
module BookRuns {
  import opened Options
  import opened FiniteSums
  import opened MatchBook

  // ---- the log ----

  predicate Plays(m: MatchRow, id: string) { m.agent1 == id || m.agent2 == id }

  datatype Outcome = Won | Lost | Drawn

  function OutcomeFor(winner: Option<string>, id: string): Outcome {
    if winner.None? then Drawn else if winner.value == id then Won else Lost
  }

  ghost function Played(ms: Matches, id: string): set<string> {
    set k | k in ms && ms[k].status.Completed? && Plays(ms[k], id)
  }

  ghost function Log(ms: Matches, id: string, o: Outcome): set<string> {
    set k | k in Played(ms, id) && OutcomeFor(ms[k].winner, id) == o
  }

  /** The counters of one agent are the sizes of its parts of the log. */
  ghost predicate TalliedFor(a: AgentRow, ms: Matches, id: string) {
    && a.wins == |Log(ms, id, Won)| && a.losses == |Log(ms, id, Lost)| && a.draws == |Log(ms, id, Drawn)|
    && a.totalMatches == |Played(ms, id)|
  }

  ghost predicate Tallied(b: Book) { forall id :: id in b.agents ==> TalliedFor(b.agents[id], b.matches, id) }

  /** Every match is between two different agents that exist. */
  ghost predicate WellFormed(b: Book) {
    forall k :: k in b.matches ==>
      && b.matches[k].agent1 != b.matches[k].agent2
      && b.matches[k].agent1 in b.agents && b.matches[k].agent2 in b.agents
  }

  predicate Fair(winner: Option<string>, id1: string, id2: string) {
    winner.None? || winner.value == id1 || winner.value == id2
  }

  ghost predicate FairLog(ms: Matches) {
    forall k :: k in ms && ms[k].status.Completed? ==> Fair(ms[k].winner, ms[k].agent1, ms[k].agent2)
  }

  // ---- the steps ----

  /** An agent is created, a match is created, a result is processed. Services of any number of
      processes interleave these. */
  datatype Step =
    | Join(id: string, environmentID: string, elo: int)
    | Open(matchID: string, environmentID: string, id1: string, id2: string)
    | Done(matchID: string, id1: string, id2: string, winner: Option<string>, change1: int, change2: int)

  predicate Enabled(b: Book, s: Step) {
    match s
    case Join(id, _, elo) => id !in b.agents && 0 <= elo
    case Open(matchID, _, id1, id2) => matchID !in b.matches && id1 != id2 && id1 in b.agents && id2 in b.agents
    case Done(matchID, id1, id2, _, _, _) =>
      matchID in b.matches && b.matches[matchID].status.Pending?
      && b.matches[matchID].agent1 == id1 && b.matches[matchID].agent2 == id2
  }

  function After(b: Book, s: Step): Book {
    match s
    case Join(id, environmentID, elo) =>
      b.(agents := b.agents[id := AgentRow(environmentID, None, elo, 0, 0, 0, 0)])
    case Open(matchID, environmentID, id1, id2) => Opened(b, matchID, environmentID, id1, id2)
    case Done(matchID, id1, id2, winner, c1, c2) => Settled(b, matchID, id1, id2, winner, c1, c2)
  }

  function Run(b: Book, steps: seq<Step>): Book {
    if steps == [] then b else After(Run(b, steps[..|steps| - 1]), steps[|steps| - 1])
  }

  predicate Legal(b: Book, steps: seq<Step>) {
    steps == [] || (Legal(b, steps[..|steps| - 1]) && Enabled(Run(b, steps[..|steps| - 1]), steps[|steps| - 1]))
  }

  /** The result names an existing agent that did not play: the log takes it, and agent 2 is given a win. */
  predicate Skews(b: Book, s: Step) {
    s.Done? && s.winner.Some? && s.winner.value in b.agents && s.winner.value != s.id1 && s.winner.value != s.id2
  }

  /** Some result of the run skews the book it is applied to. */
  predicate EverSkews(b: Book, steps: seq<Step>) {
    steps != [] &&
    (EverSkews(b, steps[..|steps| - 1]) || Skews(Run(b, steps[..|steps| - 1]), steps[|steps| - 1]))
  }

  /** The log takes the result. */
  predicate Lands(b: Book, s: Step) { s.Done? && !NoAgent(b.agents, s.winner) }

  lemma {:induction false} StepKeepsForm(b: Book, s: Step)
    requires WellFormed(b) && Enabled(b, s)
    ensures WellFormed(After(b, s))
    ensures FairLog(b.matches) && !Skews(b, s) ==> FairLog(After(b, s).matches)
  {
  }

  // ---- what one step does to counters and log ----

  lemma {:induction false} LogGrows(ms: Matches, k: string, winner: Option<string>, c1: int, c2: int, id: string)
    requires k in ms && !ms[k].status.Completed?
    ensures var after, p := ResultSaved(ms, k, winner, c1, c2), Plays(ms[k], id);
      && k !in Played(ms, id)
      && Played(after, id) == Played(ms, id) + (if p then {k} else {})
      && forall o :: Log(after, id, o) == Log(ms, id, o) + if p && OutcomeFor(winner, id) == o then {k} else {}
  {
  }

  function One(c: bool): int { if c then 1 else 0 }

  lemma {:induction false} LogCounts(ms: Matches, k: string, winner: Option<string>, c1: int, c2: int, id: string)
    requires k in ms && !ms[k].status.Completed?
    ensures var after, p := ResultSaved(ms, k, winner, c1, c2), Plays(ms[k], id);
      && |Played(after, id)| == |Played(ms, id)| + One(p)
      && forall o :: |Log(after, id, o)| == |Log(ms, id, o)| + One(p && OutcomeFor(winner, id) == o)
  {
    LogGrows(ms, k, winner, c1, c2, id);
    assert forall o :: k !in Log(ms, id, o);
    hide ResultSaved; hide Plays; hide OutcomeFor; hide Played; hide Log;
  }

  /** What a result the log takes adds to the counters of an agent. */
  lemma {:induction false} CountersGrow(b: Book, s: Step, id: string)
    requires Lands(b, s) && s.id1 != s.id2 && id in b.agents
    ensures id in After(b, s).agents
    ensures var before, after := b.agents[id], After(b, s).agents[id];
      var w := s.winner;
      if id == s.id1 then
        && after.wins == before.wins + One(w == Some(s.id1)) && after.losses == before.losses + One(w == Some(s.id2))
        && after.draws == before.draws + One(w.None?) && after.totalMatches == before.totalMatches + 1
      else if id == s.id2 then
        && after.wins == before.wins + One(w.Some? && w.value != s.id1)
        && after.losses == before.losses + One(w == Some(s.id1))
        && after.draws == before.draws + One(w.None?) && after.totalMatches == before.totalMatches + 1
      else after == before
  {
    hide ResultSaved;
  }

  /** A result that lands changes the log, one that does not changes nothing at all. */
  lemma {:induction false} DoneLands(b: Book, s: Step)
    requires s.Done? && Enabled(b, s)
    ensures if Lands(b, s)
      then After(b, s).matches == ResultSaved(b.matches, s.matchID, s.winner, s.change1, s.change2)
      else After(b, s) == b
  {
    hide StatsUpdated; hide ResultSaved;
  }

  /** A result that does not skew keeps an agent's counters equal to its log. */
  lemma {:induction false} DoneKeepsTally(b: Book, s: Step, id: string)
    requires WellFormed(b) && s.Done? && Enabled(b, s) && !Skews(b, s)
    requires id in b.agents && TalliedFor(b.agents[id], b.matches, id)
    ensures id in After(b, s).agents && TalliedFor(After(b, s).agents[id], After(b, s).matches, id)
  {
    DoneLands(b, s);
    if Lands(b, s) {
      CountersGrow(b, s, id);
      LogCounts(b.matches, s.matchID, s.winner, s.change1, s.change2, id);
    }
    hide After; hide ResultSaved; hide Log; hide Played;
  }

  lemma {:induction false} JoinOrOpenKeepsLog(b: Book, s: Step, id: string)
    requires WellFormed(b) && !s.Done? && Enabled(b, s)
    ensures Played(After(b, s).matches, id) == Played(b.matches, id)
    ensures forall o :: Log(After(b, s).matches, id, o) == Log(b.matches, id, o)
    ensures id !in b.agents ==> Played(b.matches, id) == {}
  {
  }

  lemma {:induction false} StepKeepsTally(b: Book, s: Step)
    requires WellFormed(b) && Tallied(b) && Enabled(b, s) && !Skews(b, s)
    ensures Tallied(After(b, s))
  {
    AgentsAfter(b, s);
    forall id | id in After(b, s).agents ensures TalliedFor(After(b, s).agents[id], After(b, s).matches, id) {
      if s.Done? {
        DoneKeepsTally(b, s, id);
      } else {
        JoinOrOpenKeepsLog(b, s, id);
        assert forall o :: Log(b.matches, id, o) <= Played(b.matches, id);
        hide Played; hide Log;
      }
    }
  }

  // ---- results that skew ----

  /** Wins the counter holds beyond the log. */
  ghost function Surplus(b: Book, id: string): int
    requires id in b.agents
  {
    b.agents[id].wins - |Log(b.matches, id, Won)|
  }

  ghost predicate NoDeficit(b: Book) { forall id :: id in b.agents ==> Surplus(b, id) >= 0 }

  ghost predicate Broken(b: Book) { exists id :: id in b.agents && Surplus(b, id) > 0 }

  /** A winner who did not play gives agent 2 a win that the log does not show. */
  lemma {:induction false} SurplusAfter(b: Book, s: Step, id: string)
    requires WellFormed(b) && Enabled(b, s) && id in b.agents
    ensures id in After(b, s).agents
    ensures Surplus(After(b, s), id) == Surplus(b, id) + One(Skews(b, s) && id == s.id2)
  {
    if s.Done? {
      DoneLands(b, s);
      if Lands(b, s) {
        CountersGrow(b, s, id);
        LogCounts(b.matches, s.matchID, s.winner, s.change1, s.change2, id);
      }
      hide After; hide ResultSaved; hide Log; hide Played;
    } else {
      JoinOrOpenKeepsLog(b, s, id);
      hide Log; hide Played;
    }
  }

  lemma {:induction false} JoinedHasNone(b: Book, s: Step)
    requires WellFormed(b) && s.Join? && Enabled(b, s)
    ensures Surplus(After(b, s), s.id) == 0
  {
  }

  lemma {:induction false} SurplusesAfter(b: Book, s: Step)
    requires WellFormed(b) && Enabled(b, s)
    ensures forall id :: id in b.agents ==>
              && id in After(b, s).agents
              && Surplus(After(b, s), id) == Surplus(b, id) + One(Skews(b, s) && id == s.id2)
    ensures forall id :: id in After(b, s).agents && id !in b.agents ==> Surplus(After(b, s), id) == 0
    ensures Skews(b, s) ==> s.id2 in b.agents
  {
    forall id | id in b.agents
      ensures id in After(b, s).agents
              && Surplus(After(b, s), id) == Surplus(b, id) + One(Skews(b, s) && id == s.id2)
    {
      hide *;
      SurplusAfter(b, s, id);
    }
    AgentsAfter(b, s);
    if s.Join? { JoinedHasNone(b, s); }
    hide Surplus; hide After;
  }

  lemma {:induction false} StepKeepsSurplus(b: Book, s: Step)
    requires WellFormed(b) && NoDeficit(b) && Enabled(b, s)
    ensures NoDeficit(After(b, s))
    ensures Broken(b) || Skews(b, s) ==> Broken(After(b, s))
  {
    SurplusesAfter(b, s);
    hide Surplus; hide After; hide Enabled; hide WellFormed; hide Skews;
  }

  lemma {:induction false} AgentsAfter(b: Book, s: Step)
    ensures After(b, s).agents.Keys == b.agents.Keys + if s.Join? then {s.id} else {}
  {
  }

  lemma {:induction false} RunKeepsBook(b: Book, steps: seq<Step>)
    requires WellFormed(b) && NoDeficit(b) && Legal(b, steps)
    ensures WellFormed(Run(b, steps)) && NoDeficit(Run(b, steps))
    ensures !EverSkews(b, steps) && Tallied(b) ==> Tallied(Run(b, steps))
    ensures !EverSkews(b, steps) && FairLog(b.matches) ==> FairLog(Run(b, steps).matches)
    ensures Broken(b) || EverSkews(b, steps) ==> Broken(Run(b, steps))
    decreases |steps|
  {
    if steps != [] {
      var prior, s := steps[..|steps| - 1], steps[|steps| - 1];
      RunKeepsBook(b, prior);
      var was := Run(b, prior);
      StepKeepsForm(was, s);
      StepKeepsSurplus(was, s);
      hide Tallied; hide WellFormed; hide NoDeficit; hide Broken; hide After; hide Enabled; hide Skews; hide FairLog;
      if Tallied(was) && !Skews(was, s) { StepKeepsTally(was, s); }
    }
  }

  lemma {:induction false} TalliedIsNotBroken(b: Book)
    requires Tallied(b)
    ensures NoDeficit(b) && !Broken(b)
  {
    hide Played; hide Log;
  }

  /** After a run the counters of all agents agree with the log exactly when no result named an
      existing agent that did not play. A winner that is no agent at all does no harm: it is refused. */
  lemma {:induction false} CountersAgreeExactlyWhenUnskewed(b: Book, steps: seq<Step>)
    requires WellFormed(b) && Tallied(b) && Legal(b, steps)
    ensures Tallied(Run(b, steps)) <==> !EverSkews(b, steps)
  {
    TalliedIsNotBroken(b);
    RunKeepsBook(b, steps);
    if Tallied(Run(b, steps)) { TalliedIsNotBroken(Run(b, steps)); }
    hide Run; hide Legal; hide EverSkews; hide Tallied; hide Broken; hide NoDeficit; hide WellFormed;
  }

  const EMPTY_BOOK := Book(map[], map[])

  lemma {:induction false} EmptyIsTallied()
    ensures WellFormed(EMPTY_BOOK) && Tallied(EMPTY_BOOK) && FairLog(EMPTY_BOOK.matches)
  {
  }

  lemma {:induction false} OneStepMore(b: Book, steps: seq<Step>, s: Step)
    requires Legal(b, steps) && Enabled(Run(b, steps), s)
    ensures Legal(b, steps + [s]) && Run(b, steps + [s]) == After(Run(b, steps), s)
    ensures EverSkews(b, steps + [s]) <==> EverSkews(b, steps) || Skews(Run(b, steps), s)
  {
    assert (steps + [s])[..|steps|] == steps;
  }

  /** Three agents, one match, won by the agent that watched. */
  function WatcherWins(id1: string, id2: string, watcher: string, matchID: string): seq<Step> {
    [Join(id1, "env", 1500), Join(id2, "env", 1500), Join(watcher, "env", 1500), Open(matchID, "env", id1, id2),
     Done(matchID, id1, id2, Some(watcher), -20, 20)]
  }

  lemma {:induction false} ThreeJoined(id1: string, id2: string, watcher: string)
    requires id1 != id2 && watcher != id1 && watcher != id2
    ensures var steps := [Join(id1, "env", 1500), Join(id2, "env", 1500), Join(watcher, "env", 1500)];
      Legal(EMPTY_BOOK, steps) && Run(EMPTY_BOOK, steps).matches == map[]
      && Run(EMPTY_BOOK, steps).agents.Keys == {id1, id2, watcher}
  {
    var j1, j2, j3 := Join(id1, "env", 1500), Join(id2, "env", 1500), Join(watcher, "env", 1500);
    assert [] + [j1] == [j1] && [j1] + [j2] == [j1, j2] && [j1, j2] + [j3] == [j1, j2, j3];
    OneStepMore(EMPTY_BOOK, [], j1);
    OneStepMore(EMPTY_BOOK, [j1], j2);
    OneStepMore(EMPTY_BOOK, [j1, j2], j3);
    hide Run; hide Legal;
  }

  /** After such a run the counters do not agree with the log. */
  lemma {:induction false} WatcherBreaksTally(id1: string, id2: string, watcher: string, matchID: string)
    requires id1 != id2 && watcher != id1 && watcher != id2
    ensures Legal(EMPTY_BOOK, WatcherWins(id1, id2, watcher, matchID))
    ensures !Tallied(Run(EMPTY_BOOK, WatcherWins(id1, id2, watcher, matchID)))
  {
    ThreeJoined(id1, id2, watcher);
    var steps := [Join(id1, "env", 1500), Join(id2, "env", 1500), Join(watcher, "env", 1500)];
    var start, finish := Open(matchID, "env", id1, id2), Done(matchID, id1, id2, Some(watcher), -20, 20);
    OneStepMore(EMPTY_BOOK, steps, start);
    OneStepMore(EMPTY_BOOK, steps + [start], finish);
    assert WatcherWins(id1, id2, watcher, matchID) == steps + [start] + [finish];
    EmptyIsTallied();
    CountersAgreeExactlyWhenUnskewed(EMPTY_BOOK, steps + [start] + [finish]);
    hide Run; hide Legal; hide EverSkews; hide Tallied; hide WellFormed;
  }

  // ---- the record against each opponent ----

  datatype OpponentStats = OpponentStats(wins: int, losses: int, draws: int, totalMatches: int)

  function OpponentID(m: MatchRow, id: string): string { if m.agent1 == id then m.agent2 else m.agent1 }

  function Meetings(ms: Matches, id: string, opponent: string): set<string> {
    set k | k in ms && ms[k].status.Completed? && Plays(ms[k], id) && OpponentID(ms[k], id) == opponent
  }

  function WonBy(ms: Matches, keys: set<string>, winner: Option<string>): set<string> {
    set k | k in keys && k in ms && ms[k].winner == winner
  }

  /** The grouped query: a row for each opponent of a completed match. */
  function GetOpponentStats(b: Book, id: string): map<string, OpponentStats> {
    map opponent | opponent in b.agents && Meetings(b.matches, id, opponent) != {} ::
      var met := Meetings(b.matches, id, opponent);
      OpponentStats(|WonBy(b.matches, met, Some(id))|, |WonBy(b.matches, met, Some(opponent))|,
                    |WonBy(b.matches, met, None)|, |met|)
  }

  datatype Column = WinsColumn | LossesColumn | DrawsColumn | TotalColumn

  function Cell(r: OpponentStats, c: Column): int {
    match c
    case WinsColumn => r.wins
    case LossesColumn => r.losses
    case DrawsColumn => r.draws
    case TotalColumn => r.totalMatches
  }

  ghost function Entry(rows: map<string, OpponentStats>, c: Column): string -> int {
    o => if o in rows then Cell(rows[o], c) else 0
  }

  function Counter(a: AgentRow, c: Column): int {
    match c
    case WinsColumn => a.wins
    case LossesColumn => a.losses
    case DrawsColumn => a.draws
    case TotalColumn => a.totalMatches
  }

  /** The part of an agent's log that a column counts. */
  ghost function Part(ms: Matches, id: string, c: Column): set<string> {
    match c
    case WinsColumn => Log(ms, id, Won)
    case LossesColumn => Log(ms, id, Lost)
    case DrawsColumn => Log(ms, id, Drawn)
    case TotalColumn => Played(ms, id)
  }

  ghost function OpponentIn(ms: Matches, id: string): string -> string {
    k => if k in ms then OpponentID(ms[k], id) else ""
  }

  lemma {:induction false} EntryIsFiber(b: Book, id: string, c: Column, o: string)
    requires WellFormed(b) && FairLog(b.matches) && o in GetOpponentStats(b, id)
    ensures Entry(GetOpponentStats(b, id), c)(o) == |Fiber(Part(b.matches, id, c), OpponentIn(b.matches, id), o)|
  {
    var ms, met := b.matches, Meetings(b.matches, id, o);
    FiberOfPart(b, id, c, o);
    assert WonBy(ms, met, Some(id)) <= met;
    hide Meetings; hide WonBy; hide Part; hide OpponentIn; hide Fiber;
  }

  /** The matches of one kind against one opponent. */
  lemma {:induction false} FiberOfPart(b: Book, id: string, c: Column, o: string)
    requires WellFormed(b) && FairLog(b.matches)
    ensures var met := Meetings(b.matches, id, o);
      Fiber(Part(b.matches, id, c), OpponentIn(b.matches, id), o) ==
      match c
      case WinsColumn => WonBy(b.matches, met, Some(id))
      case LossesColumn => WonBy(b.matches, met, Some(o))
      case DrawsColumn => WonBy(b.matches, met, None)
      case TotalColumn => met
  {
  }

  lemma {:induction false} OpponentHasRow(b: Book, id: string, k: string)
    requires WellFormed(b) && k in Played(b.matches, id)
    ensures OpponentIn(b.matches, id)(k) in GetOpponentStats(b, id)
  {
    assert k in Meetings(b.matches, id, OpponentID(b.matches[k], id));
  }

  lemma {:induction false} PartIsPlayed(ms: Matches, id: string, c: Column)
    ensures Part(ms, id, c) <= Played(ms, id)
  {
  }

  /** Each counter of an agent is the sum of its column over the agent's opponents. */
  lemma {:induction false} OpponentRowsSumToCounters(b: Book, id: string, c: Column)
    requires WellFormed(b) && Tallied(b) && FairLog(b.matches) && id in b.agents
    ensures Sum(GetOpponentStats(b, id).Keys, Entry(GetOpponentStats(b, id), c)) == Counter(b.agents[id], c)
  {
    var rows, part, f := GetOpponentStats(b, id), Part(b.matches, id, c), OpponentIn(b.matches, id);
    PartIsPlayed(b.matches, id, c);
    forall k | k in part ensures f(k) in rows.Keys { OpponentHasRow(b, id, k); }
    forall o | o in rows.Keys ensures Entry(rows, c)(o) == |Fiber(part, f, o)| { EntryIsFiber(b, id, c, o); }
    assert Counter(b.agents[id], c) == |part|;
    hide *;
    CountByFiber(part, f, rows.Keys, Entry(rows, c));
  }

  /** Two agents' rows about each other are mirror images. */
  lemma {:induction false} OpponentRowsMirror(b: Book, id: string, o: string)
    requires WellFormed(b) && id in b.agents && o in GetOpponentStats(b, id)
    ensures id in GetOpponentStats(b, o)
    ensures var here, there := GetOpponentStats(b, id)[o], GetOpponentStats(b, o)[id];
      there == OpponentStats(here.losses, here.wins, here.draws, here.totalMatches)
  {
    MeetingsMirror(b, id, o);
    hide Meetings; hide WonBy; hide WellFormed;
  }

  lemma {:induction false} MeetingsMirror(b: Book, id: string, o: string)
    requires WellFormed(b)
    ensures Meetings(b.matches, id, o) == Meetings(b.matches, o, id)
  {
  }

  // ---- all agents together ----

  ghost function CounterOf(b: Book, c: Column): string -> int {
    id => if id in b.agents then Counter(b.agents[id], c) else 0
  }

  ghost function Finished(ms: Matches): set<string> { set k | k in ms && ms[k].status.Completed? }

  ghost function Decided(ms: Matches): set<string> { set k | k in Finished(ms) && ms[k].winner.Some? }

  ghost function WinnerIn(ms: Matches): string -> string {
    k => if k in ms && ms[k].winner.Some? then ms[k].winner.value else ""
  }

  ghost function LoserIn(ms: Matches): string -> string {
    k => if k in ms && ms[k].winner == Some(ms[k].agent1) then ms[k].agent2 else if k in ms then ms[k].agent1 else ""
  }

  ghost function Agent1In(ms: Matches): string -> string { k => if k in ms then ms[k].agent1 else "" }

  ghost function Agent2In(ms: Matches): string -> string { k => if k in ms then ms[k].agent2 else "" }

  /** Each decided match has one winner and one loser. */
  lemma {:induction false} DecidedFibers(b: Book, id: string)
    requires WellFormed(b) && FairLog(b.matches)
    ensures Fiber(Decided(b.matches), WinnerIn(b.matches), id) == Log(b.matches, id, Won)
    ensures Fiber(Decided(b.matches), LoserIn(b.matches), id) == Log(b.matches, id, Lost)
  {
  }

  lemma {:induction false} WinsAreDecided(b: Book)
    requires WellFormed(b) && Tallied(b) && FairLog(b.matches)
    ensures Sum(b.agents.Keys, CounterOf(b, WinsColumn)) == |Decided(b.matches)|
  {
    var s, f := Decided(b.matches), WinnerIn(b.matches);
    DecidedAreOfAgents(b);
    forall id | id in b.agents.Keys ensures CounterOf(b, WinsColumn)(id) == |Fiber(s, f, id)| { DecidedFibers(b, id); }
    hide *;
    CountByFiber(s, f, b.agents.Keys, CounterOf(b, WinsColumn));
  }

  lemma {:induction false} LossesAreDecided(b: Book)
    requires WellFormed(b) && Tallied(b) && FairLog(b.matches)
    ensures Sum(b.agents.Keys, CounterOf(b, LossesColumn)) == |Decided(b.matches)|
  {
    var s, f := Decided(b.matches), LoserIn(b.matches);
    DecidedAreOfAgents(b);
    forall id | id in b.agents.Keys ensures CounterOf(b, LossesColumn)(id) == |Fiber(s, f, id)| {
      DecidedFibers(b, id);
    }
    hide *;
    CountByFiber(s, f, b.agents.Keys, CounterOf(b, LossesColumn));
  }

  lemma {:induction false} DecidedAreOfAgents(b: Book)
    requires WellFormed(b) && FairLog(b.matches)
    ensures forall k :: k in Decided(b.matches) ==>
              WinnerIn(b.matches)(k) in b.agents.Keys && LoserIn(b.matches)(k) in b.agents.Keys
  {
  }

  lemma {:induction false} PlayedAsEither(b: Book, id: string)
    requires WellFormed(b)
    ensures var ms := b.matches;
      |Played(ms, id)| == |Fiber(Finished(ms), Agent1In(ms), id)| + |Fiber(Finished(ms), Agent2In(ms), id)|
  {
    var ms := b.matches;
    var first, second := Fiber(Finished(ms), Agent1In(ms), id), Fiber(Finished(ms), Agent2In(ms), id);
    assert Played(ms, id) == first + second && first !! second;
  }

  lemma {:induction false} FinishedAreOfAgents(b: Book)
    requires WellFormed(b)
    ensures forall k :: k in Finished(b.matches) ==>
              Agent1In(b.matches)(k) in b.agents.Keys && Agent2In(b.matches)(k) in b.agents.Keys
  {
  }

  lemma {:induction false} TotalOf(b: Book, id: string)
    requires WellFormed(b) && Tallied(b) && id in b.agents
    ensures CounterOf(b, TotalColumn)(id) ==
            |Fiber(Finished(b.matches), Agent1In(b.matches), id)|
            + |Fiber(Finished(b.matches), Agent2In(b.matches), id)|
  {
    hide Played; hide Log; hide Finished; hide Fiber; hide Agent1In; hide Agent2In; hide WellFormed;
    assert CounterOf(b, TotalColumn)(id) == |Played(b.matches, id)|;
    hide *;
    PlayedAsEither(b, id);
  }

  lemma {:induction false} TotalsAreTwice(b: Book)
    requires WellFormed(b) && Tallied(b)
    ensures Sum(b.agents.Keys, CounterOf(b, TotalColumn)) == 2 * |Finished(b.matches)|
  {
    var s, f, g := Finished(b.matches), Agent1In(b.matches), Agent2In(b.matches);
    FinishedAreOfAgents(b);
    forall id | id in b.agents.Keys
      ensures CounterOf(b, TotalColumn)(id) == |Fiber(s, f, id)| + |Fiber(s, g, id)|
    {
      hide *;
      TotalOf(b, id);
    }
    hide *;
    CountByTwoFibers(s, f, g, b.agents.Keys, CounterOf(b, TotalColumn));
  }

  /** From an empty book on, every run that nobody skews keeps all of it: counters are the log's counts
      and the sums of the opponent rows, all wins are all losses and all totals are twice the finished
      matches. */
  lemma {:induction false} BookAgreesWithLog(steps: seq<Step>, id: string, c: Column)
    requires Legal(EMPTY_BOOK, steps) && !EverSkews(EMPTY_BOOK, steps)
    ensures var b := Run(EMPTY_BOOK, steps);
      && Tallied(b)
      && (id in b.agents ==>
            Sum(GetOpponentStats(b, id).Keys, Entry(GetOpponentStats(b, id), c)) == Counter(b.agents[id], c))
      && Sum(b.agents.Keys, CounterOf(b, WinsColumn)) == Sum(b.agents.Keys, CounterOf(b, LossesColumn))
      && Sum(b.agents.Keys, CounterOf(b, TotalColumn)) == 2 * |Finished(b.matches)|
  {
    EmptyIsTallied();
    TalliedIsNotBroken(EMPTY_BOOK);
    RunKeepsBook(EMPTY_BOOK, steps);
    var b := Run(EMPTY_BOOK, steps);
    hide Run; hide Legal; hide Tallied; hide WellFormed; hide FairLog; hide EverSkews; hide NoDeficit; hide Broken;
    WinsAreDecided(b);
    LossesAreDecided(b);
    TotalsAreTwice(b);
    if id in b.agents { OpponentRowsSumToCounters(b, id, c); }
  }
}
