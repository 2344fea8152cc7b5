/** The stored rating, which is never let below zero, against the sum of the changes in the log. */
module RatingRuns {
  import opened FiniteSums
  import opened MatchBook
  import opened BookRuns

  function Total(cs: seq<int>): int { if cs == [] then 0 else Total(cs[..|cs| - 1]) + cs[|cs| - 1] }

  function Stored(elo: int, cs: seq<int>): int {
    if cs == [] then elo else
      var next := Stored(elo, cs[..|cs| - 1]) + cs[|cs| - 1];
      if next < 0 then 0 else next
  }

  /** What the last changes after the k-th sum to. */
  function Tail(cs: seq<int>, k: nat): int
    requires k <= |cs|
  {
    Total(cs) - Total(cs[..k])
  }

  /** x is the greatest of elo plus all changes and of every later tail of them. */
  ghost predicate IsGreatest(x: int, elo: int, cs: seq<int>) {
    && x >= elo + Total(cs)
    && (forall k :: 1 <= k <= |cs| ==> x >= Tail(cs, k))
    && (x == elo + Total(cs) || exists k :: 1 <= k <= |cs| && x == Tail(cs, k))
  }

  lemma {:induction false} TailOfOneMore(cs: seq<int>, k: nat)
    requires k < |cs|
    ensures Tail(cs, k) == Tail(cs[..|cs| - 1], k) + cs[|cs| - 1]
    ensures Tail(cs, |cs|) == 0
  {
    assert cs[..|cs| - 1][..k] == cs[..k] && cs[..|cs|] == cs;
  }

  /** Clamping step by step is one maximum over the unclamped sums. */
  lemma {:induction false} StoredIsGreatest(elo: int, cs: seq<int>)
    ensures IsGreatest(Stored(elo, cs), elo, cs)
    decreases |cs|
  {
    if cs != [] {
      var n := |cs| - 1;
      StoredIsGreatest(elo, cs[..n]);
      forall k | 1 <= k <= n ensures Tail(cs, k) == Tail(cs[..n], k) + cs[n] { TailOfOneMore(cs, k); }
      TailOfOneMore(cs, 0);
      var x := Stored(elo, cs[..n]);
      if x + cs[n] >= 0 && x != elo + Total(cs[..n]) {
        var k :| 1 <= k <= n && x == Tail(cs[..n], k);
        assert Stored(elo, cs) == Tail(cs, k);
      }
    }
  }

  /** No step of the unclamped ledger goes below zero. */
  ghost predicate StaysAbove(elo: int, cs: seq<int>) { forall k :: 0 <= k <= |cs| ==> elo + Total(cs[..k]) >= 0 }

  /** The stored rating is the ledger exactly when the ledger never went below zero. */
  lemma {:induction false} StoredIsLedgerExactlyWhen(elo: int, cs: seq<int>)
    requires elo >= 0
    ensures Stored(elo, cs) >= 0 && Stored(elo, cs) >= elo + Total(cs)
    ensures Stored(elo, cs) == elo + Total(cs) <==> StaysAbove(elo, cs)
  {
    StoredIsGreatest(elo, cs);
    assert cs[..|cs|] == cs && cs[..0] == [];
    if cs != [] { TailOfOneMore(cs, 0); }
    if !StaysAbove(elo, cs) {
      var k :| 0 <= k <= |cs| && elo + Total(cs[..k]) < 0;
      assert Stored(elo, cs) >= Tail(cs, k);
    } else if exists k :: 1 <= k <= |cs| && Stored(elo, cs) == Tail(cs, k) {
      var k :| 1 <= k <= |cs| && Stored(elo, cs) == Tail(cs, k);
      assert elo + Total(cs[..k]) >= 0;
    }
  }

  /** Above, changes are lifted by exactly as much as the clamping gave away, so it is never taken back. */
  lemma {:induction false} LiftNeverShrinks(elo: int, cs: seq<int>, c: int)
    ensures Stored(elo, cs + [c]) - (elo + Total(cs + [c])) >= Stored(elo, cs) - (elo + Total(cs))
  {
  }

  // ---- over runs of the bookkeeping ----

  /** The changes a run applies to an agent, in order. */
  function ChangesOf(b: Book, steps: seq<Step>, id: string): seq<int> {
    if steps == [] then [] else
      var prior, s := steps[..|steps| - 1], steps[|steps| - 1];
      ChangesOf(b, prior, id) + ChangeIn(Run(b, prior), s, id)
  }

  function ChangeIn(b: Book, s: Step, id: string): seq<int> {
    if !Lands(b, s) then [] else if id == s.id1 then [s.change1] else if id == s.id2 then [s.change2] else []
  }

  lemma {:induction false} StepChangesRating(b: Book, s: Step, id: string, elo: int, cs: seq<int>)
    requires WellFormed(b) && Enabled(b, s) && id in b.agents && b.agents[id].elo == Stored(elo, cs)
    ensures id in After(b, s).agents && After(b, s).agents[id].elo == Stored(elo, cs + ChangeIn(b, s, id))
  {
    hide ResultSaved;
    if Lands(b, s) && (id == s.id1 || id == s.id2) {
      var c := if id == s.id1 then s.change1 else s.change2;
      assert (cs + [c])[..|cs|] == cs;
    } else {
      assert cs + [] == cs;
    }
  }

  lemma {:induction false} RatingIsStored(b: Book, steps: seq<Step>, id: string)
    requires WellFormed(b) && Legal(b, steps) && id in b.agents
    ensures WellFormed(Run(b, steps))
    ensures id in Run(b, steps).agents
    ensures Run(b, steps).agents[id].elo == Stored(b.agents[id].elo, ChangesOf(b, steps, id))
    decreases |steps|
  {
    if steps != [] {
      var prior, s := steps[..|steps| - 1], steps[|steps| - 1];
      RatingIsStored(b, prior, id);
      hide WellFormed; hide Enabled; hide After; hide Stored; hide ChangeIn;
      StepKeepsForm(Run(b, prior), s);
      StepChangesRating(Run(b, prior), s, id, b.agents[id].elo, ChangesOf(b, prior, id));
    }
  }

  /** The change column of an agent in a match of the log. */
  function LoggedChange(m: MatchRow, id: string): int {
    var c := if m.agent1 == id then m.change1 else m.change2;
    if c.Some? then c.value else 0
  }

  ghost function ChangeColumn(ms: Matches, id: string): string -> int {
    k => if k in ms then LoggedChange(ms[k], id) else 0
  }

  /** What the log says the agent won and lost in all. */
  ghost function Ledger(ms: Matches, id: string): int { Sum(Played(ms, id), ChangeColumn(ms, id)) }

  lemma {:induction false} DoneAddsToLedger(b: Book, s: Step, id: string)
    requires WellFormed(b) && Lands(b, s) && Enabled(b, s)
    ensures Ledger(After(b, s).matches, id) == Ledger(b.matches, id) + Total(ChangeIn(b, s, id))
  {
    var ms, after, k := b.matches, After(b, s).matches, s.matchID;
    DoneLands(b, s);
    LogGrows(ms, k, s.winner, s.change1, s.change2, id);
    hide After; hide Played; hide Log;
    DoneColumn(b, s, id);
    SumSame(Played(ms, id), ChangeColumn(ms, id), ChangeColumn(after, id));
    hide ResultSaved; hide ChangeColumn; hide LoggedChange;
    if Plays(ms[k], id) {
      SumPut(Played(ms, id), ChangeColumn(after, id), k);
    } else {
      assert Played(ms, id) + {} == Played(ms, id);
    }
  }

  lemma {:induction false} DoneColumn(b: Book, s: Step, id: string)
    requires WellFormed(b) && Lands(b, s) && Enabled(b, s)
    ensures var ms, after := b.matches, ResultSaved(b.matches, s.matchID, s.winner, s.change1, s.change2);
      && (forall k :: k != s.matchID ==> ChangeColumn(after, id)(k) == ChangeColumn(ms, id)(k))
      && Total(ChangeIn(b, s, id)) == if Plays(ms[s.matchID], id) then ChangeColumn(after, id)(s.matchID) else 0
  {
  }

  lemma {:induction false} StepAddsToLedger(b: Book, s: Step, id: string)
    requires WellFormed(b) && Enabled(b, s)
    ensures Ledger(After(b, s).matches, id) == Ledger(b.matches, id) + Total(ChangeIn(b, s, id))
  {
    if Lands(b, s) {
      DoneAddsToLedger(b, s, id);
    } else if s.Done? {
      DoneLands(b, s);
    } else {
      JoinOrOpenKeepsLog(b, s, id);
      SumSame(Played(b.matches, id), ChangeColumn(b.matches, id), ChangeColumn(After(b, s).matches, id));
    }
  }

  lemma {:induction false} TotalOfMore(cs: seq<int>, more: seq<int>)
    requires |more| <= 1
    ensures Total(cs + more) == Total(cs) + Total(more)
  {
    if more == [] { assert cs + more == cs; } else {
      assert (cs + more)[..|cs|] == cs && more[..0] == [];
    }
  }

  lemma {:induction false} LedgerIsTotal(b: Book, steps: seq<Step>, id: string)
    requires WellFormed(b) && Legal(b, steps)
    ensures WellFormed(Run(b, steps))
    ensures Ledger(Run(b, steps).matches, id) == Ledger(b.matches, id) + Total(ChangesOf(b, steps, id))
    decreases |steps|
  {
    if steps != [] {
      var prior, s := steps[..|steps| - 1], steps[|steps| - 1];
      LedgerIsTotal(b, prior, id);
      StepKeepsForm(Run(b, prior), s);
      StepAddsToLedger(Run(b, prior), s, id);
      TotalOfMore(ChangesOf(b, prior, id), ChangeIn(Run(b, prior), s, id));
    }
  }

  /** An agent that starts at `elo` with no finished match is never rated below zero nor below what the
      log adds up to, and at exactly that when no step of the run would have gone below zero. */
  lemma {:induction false} RatingAgainstLog(b: Book, steps: seq<Step>, id: string)
    requires WellFormed(b) && Legal(b, steps) && id in b.agents
    requires b.agents[id].elo >= 0 && Played(b.matches, id) == {}
    ensures id in Run(b, steps).agents
    ensures var elo, logged := b.agents[id].elo, Ledger(Run(b, steps).matches, id);
      var rating := Run(b, steps).agents[id].elo;
      && rating >= 0 && rating >= elo + logged
      && (rating == elo + logged <==> StaysAbove(elo, ChangesOf(b, steps, id)))
      && IsGreatest(rating, elo, ChangesOf(b, steps, id))
  {
    RatingIsStored(b, steps, id);
    LedgerIsTotal(b, steps, id);
    StoredIsLedgerExactlyWhen(b.agents[id].elo, ChangesOf(b, steps, id));
    StoredIsGreatest(b.agents[id].elo, ChangesOf(b, steps, id));
    assert Ledger(b.matches, id) == 0;
  }
}
