/** The per-agent match gate: a daily counter and a cooldown. Times are microseconds of UTC, the
    clock of the service and of the database alike. */
module MatchGate {
  import opened Options

  const MINUTE := 60_000_000
  const DAY := 1440 * MINUTE

  /** A row of agent_match_stats. */
  datatype Stats = Stats(lastMatchAt: Option<int>, matchesToday: int, dailyResetAt: int, totalMatches: int)

  datatype Config = Config(dailyMatchLimit: int, matchCooldown: int)

  const DEFAULT_CONFIG := Config(100, 5 * MINUTE)

  datatype Verdict = Allowed | DailyLimitReached | CooldownActive

  function Day(now: int): int { now / DAY }

  /** CURRENT_DATE + INTERVAL '1 day'. */
  function NextMidnight(now: int): int { (Day(now) + 1) * DAY }

  function NewRow(now: int): Stats { Stats(None, 0, NextMidnight(now), 0) }

  /** The row GetOrCreate returns and leaves behind. */
  function Looked(row: Option<Stats>, now: int): Stats { if row.None? then NewRow(now) else row.value }

  function Incremented(row: Option<Stats>, now: int): Stats {
    if row.None? then Stats(Some(now), 1, NextMidnight(now), 1) else
      var s := row.value;
      Stats(Some(now),
            if s.dailyResetAt <= now then 1 else s.matchesToday + 1,
            if s.dailyResetAt <= now then NextMidnight(now) else s.dailyResetAt,
            s.totalMatches + 1)
  }

  function Judge(s: Stats, config: Config, now: int): Verdict {
    if s.dailyResetAt > now && s.matchesToday >= config.dailyMatchLimit then DailyLimitReached
    else if s.lastMatchAt.Some? && now - s.lastMatchAt.value < config.matchCooldown then CooldownActive
    else Allowed
  }

  /** int(cooldown.Minutes()), as the waiting-list query gets it. */
  function WholeMinutes(cooldown: int): int {
    if cooldown >= 0 then cooldown / MINUTE else -(-cooldown / MINUTE)
  }

  /** The two rate conditions of the waiting-list query; the row may be missing. */
  predicate FilterCooldown(row: Option<Stats>, cooldownMinutes: int, now: int) {
    row.None? || row.value.lastMatchAt.None? || row.value.lastMatchAt.value < now - MINUTE * cooldownMinutes
  }

  predicate FilterDaily(row: Option<Stats>, dailyLimit: int, now: int) {
    row.None? || row.value.dailyResetAt <= now || row.value.matchesToday < dailyLimit
  }

  predicate PassesFilter(row: Option<Stats>, config: Config, now: int) {
    && FilterCooldown(row, WholeMinutes(config.matchCooldown), now)
    && FilterDaily(row, config.dailyMatchLimit, now)
  }

  class AgentMatchStatsRepository {
    var rows: map<string, Stats>

    function Row(agentID: string): Option<Stats>
      reads this
    {
      if agentID in rows then Some(rows[agentID]) else None
    }

    constructor ()
      ensures rows == map[]
    {
      rows := map[];
    }

    method GetOrCreate(agentID: string, now: int) returns (stats: Stats)
      modifies this
      ensures stats == old(Looked(Row(agentID), now))
      ensures rows == old(rows)[agentID := stats]
    {
      if agentID !in rows {
        rows := rows[agentID := NewRow(now)];
      }
      stats := rows[agentID];
      assert rows == old(rows)[agentID := stats];
    }

    method IncrementMatchCount(agentID: string, now: int)
      modifies this
      ensures rows == old(rows)[agentID := old(Incremented(Row(agentID), now))]
    {
      if agentID in rows {
        var s := rows[agentID];
        var today, reset := s.matchesToday + 1, s.dailyResetAt;
        if s.dailyResetAt <= now {
          today, reset := 1, NextMidnight(now);
        }
        rows := rows[agentID := Stats(Some(now), today, reset, s.totalMatches + 1)];
      } else {
        rows := rows[agentID := Stats(Some(now), 1, NextMidnight(now), 1)];
      }
    }

    method CanMatch(agentID: string, config: Config, now: int) returns (verdict: Verdict)
      modifies this
      ensures verdict == old(Judge(Looked(Row(agentID), now), config, now))
      ensures rows == old(rows)[agentID := old(Looked(Row(agentID), now))]
    {
      var stats := GetOrCreate(agentID, now);
      if stats.dailyResetAt > now && stats.matchesToday >= config.dailyMatchLimit {
        return DailyLimitReached;
      }
      if stats.lastMatchAt.Some? {
        var since := now - stats.lastMatchAt.value;
        if since < config.matchCooldown {
          return CooldownActive;
        }
      }
      return Allowed;
    }
  }

  // ---- the history of one agent ----

  /** Look: the row is read, and made if missing. Played: a match is counted. */
  datatype Event = Look(now: int) | Played(now: int)

  function RowAfter(events: seq<Event>): Option<Stats> {
    if events == [] then None else
      var row, e := RowAfter(events[..|events| - 1]), events[|events| - 1];
      Some(if e.Look? then Looked(row, e.now) else Incremented(row, e.now))
  }

  predicate Clocked(events: seq<Event>) {
    forall i, j :: 0 <= i < j < |events| ==> events[i].now <= events[j].now
  }

  function PlayedOn(events: seq<Event>, day: int): nat {
    if events == [] then 0 else
      var e := events[|events| - 1];
      PlayedOn(events[..|events| - 1], day) + if e.Played? && Day(e.now) == day then 1 else 0
  }

  function PlayedInAll(events: seq<Event>): nat {
    if events == [] then 0 else
      PlayedInAll(events[..|events| - 1]) + if events[|events| - 1].Played? then 1 else 0
  }

  function LastPlayed(events: seq<Event>): Option<int> {
    if events == [] then None else
      var e := events[|events| - 1];
      if e.Played? then Some(e.now) else LastPlayed(events[..|events| - 1])
  }

  /** What a row says about its history, however the matches were let through: its counter is the
      number of matches of the day that ends at the reset time. */
  predicate Tells(s: Stats, events: seq<Event>) {
    && s.dailyResetAt == Day(s.dailyResetAt) * DAY
    && s.matchesToday == PlayedOn(events, Day(s.dailyResetAt) - 1)
    && s.totalMatches == PlayedInAll(events)
    && s.lastMatchAt == LastPlayed(events)
  }

  lemma {:induction false} DayOfMidnight(now: int)
    ensures Day(NextMidnight(now)) == Day(now) + 1
    ensures NextMidnight(now) == Day(NextMidnight(now)) * DAY
    ensures now < NextMidnight(now)
  {
  }

  /** A reset time at midnight is after an instant just when its day is. */
  lemma {:induction false} BeforeMidnight(now: int, reset: int)
    requires reset == Day(reset) * DAY
    ensures now < reset <==> Day(now) < Day(reset)
  {
  }

  lemma {:induction false} DayMonotone(a: int, b: int)
    requires a <= b
    ensures Day(a) <= Day(b)
  {
  }

  /** No match was counted on this day or a later one. */
  predicate QuietFrom(events: seq<Event>, day: int) {
    forall e :: e in events && e.Played? ==> Day(e.now) < day
  }

  lemma {:induction false} QuietDay(events: seq<Event>, day: int)
    requires QuietFrom(events, day)
    ensures PlayedOn(events, day) == 0
    decreases |events|
  {
    if events != [] {
      assert events[|events| - 1] in events;
      QuietDay(events[..|events| - 1], day);
    }
  }

  /** The row tells its history, and its reset time is the midnight after the latest counted match,
      or after the instant the row was made. */
  predicate Faithful(s: Stats, events: seq<Event>) {
    && events != []
    && Tells(s, events)
    && Day(s.dailyResetAt) <= Day(events[|events| - 1].now) + 1
    && QuietFrom(events, Day(s.dailyResetAt))
  }

  lemma {:induction false} FirstIsFaithful(e: Event)
    ensures Faithful(RowAfter([e]).value, [e])
  {
  }

  lemma {:induction false} LookIsFaithful(s: Stats, prior: seq<Event>, e: Event)
    requires Faithful(s, prior) && e.Look? && prior[|prior| - 1].now <= e.now
    ensures Faithful(Looked(Some(s), e.now), prior + [e])
  {
  }

  lemma {:induction false} PlayIsFaithful(s: Stats, prior: seq<Event>, e: Event)
    requires Faithful(s, prior) && e.Played? && prior[|prior| - 1].now <= e.now
    ensures Faithful(Incremented(Some(s), e.now), prior + [e])
  {
    assert (prior + [e])[..|prior|] == prior;
    DayMonotone(prior[|prior| - 1].now, e.now);
    BeforeMidnight(e.now, s.dailyResetAt);
    DayOfMidnight(e.now);
    hide Day; hide NextMidnight;
    if s.dailyResetAt <= e.now {
      QuietDay(prior, Day(e.now));
    }
  }

  lemma {:induction false} ClockedBefore(prior: seq<Event>, e: Event)
    requires Clocked(prior + [e])
    ensures Clocked(prior)
    ensures prior != [] ==> prior[|prior| - 1].now <= e.now
  {
    var events := prior + [e];
    assert forall i :: 0 <= i < |prior| ==> events[i] == prior[i];
    if prior != [] { assert events[|prior| - 1].now <= events[|prior|].now; }
  }

  lemma {:induction false} RowOfOneMore(prior: seq<Event>, e: Event)
    ensures RowAfter(prior + [e]) ==
            Some(if e.Look? then Looked(RowAfter(prior), e.now) else Incremented(RowAfter(prior), e.now))
  {
  }

  lemma {:induction false} RowIsFaithful(events: seq<Event>)
    requires Clocked(events) && events != []
    ensures RowAfter(events).Some? && Faithful(RowAfter(events).value, events)
    decreases |events|
  {
    hide *;
    var prior, e := events[..|events| - 1], events[|events| - 1];
    assert events == prior + [e];
    RowOfOneMore(prior, e);
    ClockedBefore(prior, e);
    if prior == [] {
      FirstIsFaithful(e);
    } else {
      RowIsFaithful(prior);
      if e.Look? {
        LookIsFaithful(RowAfter(prior).value, prior, e);
      } else {
        PlayIsFaithful(RowAfter(prior).value, prior, e);
      }
    }
  }

  // ---- what the gates guarantee ----

  /** The daily condition of both gates asks exactly whether today's counted matches are below the limit. */
  lemma {:induction false} DailyGateCountsToday(events: seq<Event>, now: int, limit: int)
    requires Clocked(events) && limit >= 1
    requires events != [] ==> events[|events| - 1].now <= now
    ensures FilterDaily(RowAfter(events), limit, now) <==> PlayedOn(events, Day(now)) < limit
  {
    if events != [] {
      RowIsFaithful(events);
      var s := RowAfter(events).value;
      DayMonotone(events[|events| - 1].now, now);
      BeforeMidnight(now, s.dailyResetAt);
      hide Day; hide RowAfter;
      if s.dailyResetAt <= now { QuietDay(events, Day(now)); }
    }
  }

  /** CanMatch and the query agree on the daily limit. */
  lemma {:induction false} GatesAgreeOnTheDay(row: Option<Stats>, config: Config, now: int)
    requires config.dailyMatchLimit >= 1
    ensures Judge(Looked(row, now), config, now) == DailyLimitReached <==>
            !FilterDaily(row, config.dailyMatchLimit, now)
  {
  }

  ghost predicate WithinLimit(events: seq<Event>, limit: int) {
    forall day :: PlayedOn(events, day) <= limit
  }

  /** Every counted match passed the daily condition at its own instant. */
  predicate DailyGated(events: seq<Event>, limit: int) {
    events == [] ||
    (var prior, e := events[..|events| - 1], events[|events| - 1];
     DailyGated(prior, limit) && (e.Played? ==> FilterDaily(RowAfter(prior), limit, e.now)))
  }

  /** No UTC day holds more matches than the limit exactly when each match was gated. */
  lemma {:induction false} DailyLimitExactlyWhenGated(events: seq<Event>, limit: int)
    requires Clocked(events) && limit >= 1
    ensures WithinLimit(events, limit) <==> DailyGated(events, limit)
    decreases |events|
  {
    if events != [] {
      var prior, e := events[..|events| - 1], events[|events| - 1];
      DailyLimitExactlyWhenGated(prior, limit);
      DailyGateCountsToday(prior, e.now, limit);
      hide Day; hide RowAfter; hide FilterDaily;
      assert forall day :: PlayedOn(prior, day) <= PlayedOn(events, day);
      if e.Played? { assert PlayedOn(events, Day(e.now)) == PlayedOn(prior, Day(e.now)) + 1; }
    }
  }

  /** Any two matches of the history are at least the cooldown apart. */
  predicate Spaced(events: seq<Event>, cooldown: int) {
    forall i, j :: 0 <= i < j < |events| && events[i].Played? && events[j].Played? ==>
      events[j].now - events[i].now >= cooldown
  }

  predicate CooldownGated(events: seq<Event>, cooldown: int) {
    events == [] ||
    (var prior, e := events[..|events| - 1], events[|events| - 1];
     && CooldownGated(prior, cooldown)
     && (e.Played? && RowAfter(prior).Some? && RowAfter(prior).value.lastMatchAt.Some? ==>
           e.now - RowAfter(prior).value.lastMatchAt.value >= cooldown))
  }

  lemma {:induction false} LastPlayedIsLatest(events: seq<Event>)
    requires Clocked(events)
    ensures match LastPlayed(events)
      case None => forall e :: e in events ==> e.Look?
      case Some(t) =>
        && (exists i :: 0 <= i < |events| && events[i] == Played(t))
        && forall e :: e in events && e.Played? ==> e.now <= t
    decreases |events|
  {
    if events != [] {
      var n := |events| - 1;
      assert events == events[..n] + [events[n]];
      LastPlayedIsLatest(events[..n]);
    }
  }

  /** With a clock that does not run back, only the latest match matters for the next one. */
  lemma {:induction false} SpacedOneMore(prior: seq<Event>, e: Event, cooldown: int)
    requires Clocked(prior + [e])
    ensures Spaced(prior + [e], cooldown) <==>
            Spaced(prior, cooldown)
            && (e.Played? && LastPlayed(prior).Some? ==> e.now - LastPlayed(prior).value >= cooldown)
  {
    var events, n := prior + [e], |prior|;
    assert forall i :: 0 <= i < n ==> events[i] == prior[i];
    LastPlayedIsLatest(prior);
    hide LastPlayed;
    if Spaced(events, cooldown) {
      forall i, j | 0 <= i < j < n && prior[i].Played? && prior[j].Played?
        ensures prior[j].now - prior[i].now >= cooldown
      {
        assert events[j].now - events[i].now >= cooldown;
      }
      if e.Played? && LastPlayed(prior).Some? {
        var i :| 0 <= i < n && prior[i] == Played(LastPlayed(prior).value);
        assert events[n].now - events[i].now >= cooldown;
      }
    } else if Spaced(prior, cooldown) {
      var i, j :|
        0 <= i < j < |events| && events[i].Played? && events[j].Played? && events[j].now - events[i].now < cooldown;
      assert j == n && events[i] in prior;
    }
  }

  lemma {:induction false} RowTellsLast(events: seq<Event>)
    requires Clocked(events)
    ensures (if RowAfter(events).Some? then RowAfter(events).value.lastMatchAt else None) == LastPlayed(events)
  {
    if events != [] { RowIsFaithful(events); }
    hide Day; hide PlayedOn; hide QuietFrom;
  }

  /** Matches keep the cooldown exactly when each one waited for it since the row's last match. */
  lemma {:induction false} CooldownExactlyWhenGated(events: seq<Event>, cooldown: int)
    requires Clocked(events)
    ensures Spaced(events, cooldown) <==> CooldownGated(events, cooldown)
    decreases |events|
  {
    if events != [] {
      var prior, e := events[..|events| - 1], events[|events| - 1];
      assert events == prior + [e];
      CooldownExactlyWhenGated(prior, cooldown);
      RowTellsLast(prior);
      SpacedOneMore(prior, e, cooldown);
      hide Spaced; hide RowAfter; hide LastPlayed;
    }
  }

  /** The query is told whole minutes, but compares strictly. */
  predicate MinutesSuffice(cooldown: int) { cooldown - MINUTE * WholeMinutes(cooldown) <= 1 }

  ghost predicate FilterKeepsCooldown(row: Option<Stats>, cooldown: int, now: int) {
    FilterCooldown(row, WholeMinutes(cooldown), now) && row.Some? && row.value.lastMatchAt.Some?
    ==> now - row.value.lastMatchAt.value >= cooldown
  }

  /** The query's cooldown implies the configured one exactly when no seconds are cut off. */
  lemma {:induction false} FilterHonoursCooldownExactlyWhen(cooldown: int)
    ensures MinutesSuffice(cooldown) <==> forall row, now :: FilterKeepsCooldown(row, cooldown, now)
  {
    if !MinutesSuffice(cooldown) {
      var row := Some(Stats(Some(0), 1, DAY, 1));
      assert !FilterKeepsCooldown(row, cooldown, MINUTE * WholeMinutes(cooldown) + 1);
    }
  }

  predicate PassesCanMatch(row: Option<Stats>, config: Config, now: int) {
    Judge(Looked(row, now), config, now) == Allowed
  }

  /** Every counted match directly follows a gate passed at the same instant. */
  predicate Gated(events: seq<Event>, config: Config) {
    events == [] ||
    (var prior, e := events[..|events| - 1], events[|events| - 1];
     && Gated(prior, config)
     && (e.Played? ==>
           PassesCanMatch(RowAfter(prior), config, e.now) || PassesFilter(RowAfter(prior), config, e.now)))
  }

  /** Some counted match passed the query's filter alone. */
  predicate SomeOnlyFiltered(events: seq<Event>, config: Config) {
    events != [] &&
    (var prior, e := events[..|events| - 1], events[|events| - 1];
     || SomeOnlyFiltered(prior, config)
     || (e.Played? && !PassesCanMatch(RowAfter(prior), config, e.now)))
  }

  lemma {:induction false} GatedMeansBoth(events: seq<Event>, config: Config)
    requires Gated(events, config) && config.dailyMatchLimit >= 1
    requires SomeOnlyFiltered(events, config) ==> MinutesSuffice(config.matchCooldown)
    ensures DailyGated(events, config.dailyMatchLimit) && CooldownGated(events, config.matchCooldown)
    decreases |events|
  {
    if events != [] {
      var prior, e := events[..|events| - 1], events[|events| - 1];
      GatedMeansBoth(prior, config);
      GatesAgreeOnTheDay(RowAfter(prior), config, e.now);
      if MinutesSuffice(config.matchCooldown) {
        FilterHonoursCooldownExactlyWhen(config.matchCooldown);
        assert FilterKeepsCooldown(RowAfter(prior), config.matchCooldown, e.now);
      }
    }
  }

  /** An agent whose every match passed a gate never exceeds the daily limit and always rests. Where
      only the filter was passed, the cooldown must be whole minutes. */
  lemma {:induction false} DailyAndCooldownSafety(events: seq<Event>, config: Config)
    requires Clocked(events) && Gated(events, config) && config.dailyMatchLimit >= 1
    requires SomeOnlyFiltered(events, config) ==> MinutesSuffice(config.matchCooldown)
    ensures WithinLimit(events, config.dailyMatchLimit) && Spaced(events, config.matchCooldown)
  {
    GatedMeansBoth(events, config);
    DailyLimitExactlyWhenGated(events, config.dailyMatchLimit);
    CooldownExactlyWhenGated(events, config.matchCooldown);
  }

  // ---- what the gates let through ----

  /** Matches of the history that fall on a day of 86 400 seconds. */
  function PlayedAt(events: seq<Event>, day: int): set<int> {
    set i | 0 <= i < |events| && events[i].Played?
            && 86_400_000_000 * day <= events[i].now < 86_400_000_000 * (day + 1)
  }

  lemma {:induction false} PlayedOnCounts(events: seq<Event>, day: int)
    ensures PlayedOn(events, day) == |PlayedAt(events, day)|
    decreases |events|
  {
    if events != [] {
      var n := |events| - 1;
      var prior, e := events[..n], events[n];
      PlayedOnCounts(prior, day);
      DayIs(e.now, day);
      if e.Played? && Day(e.now) == day {
        assert PlayedAt(events, day) == PlayedAt(prior, day) + {n};
      } else {
        assert PlayedAt(events, day) == PlayedAt(prior, day);
      }
    }
  }

  lemma {:induction false} DayIs(now: int, day: int)
    ensures Day(now) == day <==> 86_400_000_000 * day <= now < 86_400_000_000 * (day + 1)
  {
  }

  /** CanMatch says yes exactly to an agent that has matches of today left and has rested, and names the
      daily limit first. */
  lemma {:induction false} CanMatchExactlyWhen(events: seq<Event>, config: Config, now: int)
    requires Clocked(events) && config.dailyMatchLimit >= 1
    requires events != [] ==> events[|events| - 1].now <= now
    ensures var verdict := Judge(Looked(RowAfter(events), now), config, now);
      var today, last := |PlayedAt(events, Day(now))|, LastPlayed(events);
      var rested := last.None? || now - last.value >= config.matchCooldown;
      && (verdict == Allowed <==> today < config.dailyMatchLimit && rested)
      && (verdict == DailyLimitReached <==> today >= config.dailyMatchLimit)
      && (verdict == CooldownActive <==> today < config.dailyMatchLimit && !rested)
  {
    DailyGateCountsToday(events, now, config.dailyMatchLimit);
    GatesAgreeOnTheDay(RowAfter(events), config, now);
    PlayedOnCounts(events, Day(now));
    RowTellsLast(events);
    hide Day; hide RowAfter; hide PlayedOn; hide PlayedAt; hide LastPlayed; hide FilterDaily;
  }

  /** The query lists an agent exactly when it has matches of today left and its last match is more than
      the cooldown's whole minutes ago. */
  lemma {:induction false} FilterPassesExactlyWhen(events: seq<Event>, config: Config, now: int)
    requires Clocked(events) && config.dailyMatchLimit >= 1 && config.matchCooldown >= 0
    requires events != [] ==> events[|events| - 1].now <= now
    ensures var today, last := |PlayedAt(events, Day(now))|, LastPlayed(events);
      PassesFilter(RowAfter(events), config, now) <==>
        && today < config.dailyMatchLimit
        && (last.None? || now - last.value > 60_000_000 * (config.matchCooldown / 60_000_000))
  {
    DailyGateCountsToday(events, now, config.dailyMatchLimit);
    PlayedOnCounts(events, Day(now));
    RowTellsLast(events);
    hide Day; hide RowAfter; hide PlayedOn; hide PlayedAt; hide LastPlayed; hide FilterDaily;
  }

  /** With the default configuration CanMatch says yes exactly to an agent with fewer than 100 matches on
      this UTC day and none in the last five minutes. */
  lemma {:induction false} DefaultCanMatchExactlyWhen(events: seq<Event>, now: int)
    requires Clocked(events) && (events != [] ==> events[|events| - 1].now <= now)
    ensures Judge(Looked(RowAfter(events), now), DEFAULT_CONFIG, now) == Allowed <==>
            && |PlayedAt(events, Day(now))| < 100
            && (LastPlayed(events).None? || now - LastPlayed(events).value >= 300_000_000)
  {
    CanMatchExactlyWhen(events, DEFAULT_CONFIG, now);
    hide Day; hide RowAfter; hide PlayedAt; hide LastPlayed; hide Judge; hide Looked;
  }

  /** With the default configuration no agent plays more than 100 matches between two UTC midnights, and
      five minutes pass between any two. */
  lemma {:induction false} DefaultConfigIsSafe(events: seq<Event>)
    requires Clocked(events) && Gated(events, DEFAULT_CONFIG)
    ensures forall day :: |PlayedAt(events, day)| <= 100
    ensures forall i, j :: 0 <= i < j < |events| && events[i].Played? && events[j].Played? ==>
              events[j].now - events[i].now >= 300_000_000
  {
    DailyAndCooldownSafety(events, DEFAULT_CONFIG);
    forall day ensures |PlayedAt(events, day)| <= 100 { PlayedOnCounts(events, day); }
  }
}
