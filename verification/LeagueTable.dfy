/** A league table and the match ledger that determines it. */
module LeagueTable {
  import opened Collections
  import opened Fixtures
  import opened Priors
  import opened Simulation

  datatype TableRow = TableRow(team: TeamId, totals: Tally) {
    /** The row validator. */
    predicate Valid() {
      totals.Balanced()
    }
  }

  datatype Table = Table(teams: seq<TeamId>, matches: seq<PlayedFixture>, rows: seq<TableRow>)

  /** One match as one of its clubs counts it. */
  function WithMatch(t: Tally, team: TeamId, m: PlayedFixture): Tally {
    if m.home == team then t.Plus(m.score.home, m.score.away)
    else if m.away == team then t.Plus(m.score.away, m.score.home)
    else t
  }

  /** A club's line in the table, as a function of the ledger. */
  function Standing(team: TeamId, matches: seq<PlayedFixture>): Tally {
    if matches == [] then NOTHING
    else WithMatch(Standing(team, matches[..|matches| - 1]), team, matches[|matches| - 1])
  }

  predicate PlayedByMembers(teams: seq<TeamId>, m: PlayedFixture) {
    m.home != m.away && m.home in teams && m.away in teams
  }

  /** What the table validator accepts. */
  ghost predicate Accepted(t: Table) {
    && |t.teams| == 20 && (forall i, j :: 0 <= i < j < 20 ==> t.teams[i] < t.teams[j])
    && (forall i, j :: 0 <= i < j < |t.matches| ==> t.matches[i].id < t.matches[j].id)
    && (forall m :: m in t.matches ==> PlayedByMembers(t.teams, m))
    && |t.rows| == 20 && forall i :: 0 <= i < 20 ==> t.rows[i] == TableRow(t.teams[i], Standing(t.teams[i], t.matches))
  }

  // ---------------------------------------------------------------- the validator

  ghost predicate IsLedger(expected: map<TeamId, Tally>, teams: seq<TeamId>, matches: seq<PlayedFixture>) {
    && (forall team :: team in expected <==> team in teams)
    && forall team :: team in expected ==> expected[team] == Standing(team, matches)
  }

  lemma LedgerStep(expected: map<TeamId, Tally>, teams: seq<TeamId>, matches: seq<PlayedFixture>, i: nat)
    requires i < |matches| && IsLedger(expected, teams, matches[..i]) && PlayedByMembers(teams, matches[i])
    ensures var m := matches[i];
      IsLedger(expected[m.home := expected[m.home].Plus(m.score.home, m.score.away)]
                       [m.away := expected[m.away].Plus(m.score.away, m.score.home)], teams, matches[..i + 1])
  {
    assert matches[..i + 1][..i] == matches[..i];
  }

  /** Recounts the table from its ledger. */
  method Recount(teams: seq<TeamId>, matches: seq<PlayedFixture>) returns (expected: map<TeamId, Tally>)
    requires forall m :: m in matches ==> PlayedByMembers(teams, m)
    ensures IsLedger(expected, teams, matches)
  {
    expected := map team | team in teams :: NOTHING;
    for i := 0 to |matches|
      invariant IsLedger(expected, teams, matches[..i])
    {
      var m := matches[i];
      assert m in matches;
      LedgerStep(expected, teams, matches, i);
      var home := expected[m.home].Plus(m.score.home, m.score.away);
      var away := expected[m.away].Plus(m.score.away, m.score.home);
      expected := expected[m.home := home][m.away := away];
    }
    assert matches[..|matches|] == matches;
  }

  method TableIsCanonical(t: Table) returns (ok: bool)
    ensures ok <==> Accepted(t)
  {
    StrictIds(t.matches);
    if |t.teams| != 20 || !Strict(t.teams) || !Strict(PlayedIds(t.matches)) {
      return false;
    }
    if exists m :: m in t.matches && !PlayedByMembers(t.teams, m) {
      return false;
    }
    if |t.rows| != 20 || exists i :: 0 <= i < 20 && t.rows[i].team != t.teams[i] {
      return false;
    }
    var expected := Recount(t.teams, t.matches);
    assert forall i :: 0 <= i < 20 ==> t.rows[i].team in expected;
    ok := forall i :: 0 <= i < 20 ==> t.rows[i].totals == expected[t.teams[i]];
    assert forall i :: 0 <= i < 20 ==> expected[t.teams[i]] == Standing(t.teams[i], t.matches);
  }

  // ---------------------------------------------------------------- identities

  lemma {:induction false} StandingBalanced(team: TeamId, matches: seq<PlayedFixture>)
    ensures Standing(team, matches).Balanced()
    decreases |matches|
  {
    if matches != [] {
      StandingBalanced(team, matches[..|matches| - 1]);
    }
  }

  /** Every row of an accepted table satisfies its own validator. */
  lemma AcceptedRowsAreValid(t: Table, i: nat)
    requires Accepted(t) && i < 20
    ensures t.rows[i].Valid()
  {
    StandingBalanced(t.teams[i], t.matches);
  }

  lemma {:induction false} StandingMove(team: TeamId, s: seq<PlayedFixture>, i: nat)
    requires i < |s|
    ensures Standing(team, s) == WithMatch(Standing(team, s[..i] + s[i + 1..]), team, s[i])
    decreases |s|
  {
    var n := |s| - 1;
    if i == n {
      assert s[..n] + s[n + 1..] == s[..n];
    } else {
      var init := s[..n];
      StandingMove(team, init, i);
      MovedLast(team, init, i, s[n]);
      assert s == init + [s[n]];
    }
  }

  lemma MovedLast(team: TeamId, init: seq<PlayedFixture>, i: nat, last: PlayedFixture)
    requires i < |init| && Standing(team, init) == WithMatch(Standing(team, init[..i] + init[i + 1..]), team, init[i])
    ensures var s := init + [last]; Standing(team, s) == WithMatch(Standing(team, s[..i] + s[i + 1..]), team, s[i])
  {
    var s, rest := init + [last], init[..i] + init[i + 1..];
    assert s[..i] + s[i + 1..] == rest + [last];
    StandingLast(team, rest, last);
    StandingLast(team, init, last);
    MatchesCommute(Standing(team, rest), team, init[i], last);
  }

  lemma StandingLast(team: TeamId, rest: seq<PlayedFixture>, last: PlayedFixture)
    ensures Standing(team, rest + [last]) == WithMatch(Standing(team, rest), team, last)
  {
    assert (rest + [last])[..|rest|] == rest;
  }

  lemma MatchesCommute(t: Tally, team: TeamId, a: PlayedFixture, b: PlayedFixture)
    ensures WithMatch(WithMatch(t, team, a), team, b) == WithMatch(WithMatch(t, team, b), team, a)
  {
  }

  lemma FirstOut(team: TeamId, s: seq<PlayedFixture>)
    requires s != []
    ensures Standing(team, s) == WithMatch(Standing(team, s[1..]), team, s[0])
  {
    StandingMove(team, s, 0);
    assert s[..0] + s[1..] == s[1..];
  }

  /** The table depends on which matches were played, not on how they are listed. */
  lemma {:induction false} LedgerOrderFree(team: TeamId, a: seq<PlayedFixture>, b: seq<PlayedFixture>)
    requires multiset(a) == multiset(b)
    ensures Standing(team, a) == Standing(team, b)
    decreases |a|
  {
    NoneOfNone(a, b);
    if a != [] {
      var i := WithoutFirst(a, b);
      LedgerOrderFree(team, a[1..], b[..i] + b[i + 1..]);
      FirstOut(team, a);
      StandingMove(team, b, i);
    }
  }

  /** One more match changes the lines of its two clubs and no other. */
  lemma OneMatchTwoRows(team: TeamId, matches: seq<PlayedFixture>, m: PlayedFixture)
    ensures Standing(team, matches + [m]) != Standing(team, matches) <==> team == m.home || team == m.away
    ensures Standing(team, matches + [m]).matches
         == Standing(team, matches).matches + if team == m.home || team == m.away then 1 else 0
  {
    assert (matches + [m])[..|matches|] == matches;
  }

  /** What a match is to one of its clubs: its goals, the other's, and three points, one or none. */
  ghost predicate Credits(before: Tally, after: Tally, goals: nat, conceded: nat) {
    && after.goalsFor == before.goalsFor + goals && after.goalsAgainst == before.goalsAgainst + conceded
    && after.points == before.points + (if goals > conceded then 3 else if goals == conceded then 1 else 0)
    && after.wins == before.wins + (if goals > conceded then 1 else 0)
    && after.draws == before.draws + (if goals == conceded then 1 else 0)
    && after.losses == before.losses + (if goals < conceded then 1 else 0)
  }

  /** The home club is credited with the home goals and the away club with the away goals. */
  lemma MatchCredits(matches: seq<PlayedFixture>, m: PlayedFixture)
    requires m.home != m.away
    ensures Credits(Standing(m.home, matches), Standing(m.home, matches + [m]), m.score.home, m.score.away)
    ensures Credits(Standing(m.away, matches), Standing(m.away, matches + [m]), m.score.away, m.score.home)
  {
    StandingLast(m.home, matches, m);
    StandingLast(m.away, matches, m);
  }

  // ---------------------------------------------------------------- the whole table

  /** One number read off a line of the table. */
  type Figure = Tally -> int

  /** The total of a figure over some clubs. */
  function Column(figure: Figure, teams: seq<TeamId>, matches: seq<PlayedFixture>): int {
    if teams == [] then 0
    else Column(figure, teams[..|teams| - 1], matches) + figure(Standing(teams[|teams| - 1], matches))
  }

  /** A number added up over the ledger. */
  function OverLedger(each: PlayedFixture -> int, matches: seq<PlayedFixture>): int {
    if matches == [] then 0 else OverLedger(each, matches[..|matches| - 1]) + each(matches[|matches| - 1])
  }

  /** What one match changes in a figure of one club. */
  function Change(figure: Figure, team: TeamId, matches: seq<PlayedFixture>, m: PlayedFixture): int {
    figure(Standing(team, matches + [m])) - figure(Standing(team, matches))
  }

  ghost predicate DistinctTeams(teams: seq<TeamId>) {
    forall i, j :: 0 <= i < j < |teams| ==> teams[i] != teams[j]
  }

  lemma SplitTeams(teams: seq<TeamId>) returns (init: seq<TeamId>, last: TeamId)
    requires teams != [] && DistinctTeams(teams)
    ensures init == teams[..|teams| - 1] && last == teams[|teams| - 1]
    ensures DistinctTeams(init) && last !in init
    ensures forall team :: team in teams <==> team in init || team == last
  {
    init, last := teams[..|teams| - 1], teams[|teams| - 1];
    assert teams == init + [last];
  }

  /** A column changes by the changes of the two clubs that played. */
  lemma {:induction false} ColumnGrows(figure: Figure, teams: seq<TeamId>, matches: seq<PlayedFixture>, m: PlayedFixture)
    requires m.home != m.away && DistinctTeams(teams)
    ensures Column(figure, teams, matches + [m]) == Column(figure, teams, matches)
          + (if m.home in teams then Change(figure, m.home, matches, m) else 0)
          + (if m.away in teams then Change(figure, m.away, matches, m) else 0)
    decreases |teams|
  {
    if teams != [] {
      var init, last := SplitTeams(teams);
      ColumnGrows(figure, init, matches, m);
      OneMatchTwoRows(last, matches, m);
    }
  }

  lemma {:induction false} EmptyColumn(figure: Figure, teams: seq<TeamId>)
    requires figure(NOTHING) == 0
    ensures Column(figure, teams, []) == 0
    decreases |teams|
  {
    if teams != [] {
      EmptyColumn(figure, teams[..|teams| - 1]);
    }
  }

  /** Both clubs' shares of a match add up to a number of the match alone. */
  ghost predicate SharedOut(figure: Figure, each: PlayedFixture -> int) {
    && figure(NOTHING) == 0
    && forall t: Tally, u: Tally, m: PlayedFixture ::
         m.home != m.away ==>
         figure(WithMatch(t, m.home, m)) - figure(t) + figure(WithMatch(u, m.away, m)) - figure(u) == each(m)
  }

  /** A figure that every match shares out adds up over the table to its total over the ledger. */
  lemma {:induction false} ColumnIsLedger(
      figure: Figure, each: PlayedFixture -> int, teams: seq<TeamId>, matches: seq<PlayedFixture>)
    requires SharedOut(figure, each) && DistinctTeams(teams)
    requires forall m :: m in matches ==> PlayedByMembers(teams, m)
    ensures Column(figure, teams, matches) == OverLedger(each, matches)
    decreases |matches|
  {
    if matches == [] {
      EmptyColumn(figure, teams);
    } else {
      var init, m := matches[..|matches| - 1], matches[|matches| - 1];
      assert matches == init + [m];
      assert m in matches;
      ColumnIsLedger(figure, each, teams, init);
      ColumnGrows(figure, teams, init, m);
      BothChanges(figure, each, init, m);
    }
  }

  lemma BothChanges(figure: Figure, each: PlayedFixture -> int, matches: seq<PlayedFixture>, m: PlayedFixture)
    requires SharedOut(figure, each) && m.home != m.away
    ensures Change(figure, m.home, matches, m) + Change(figure, m.away, matches, m) == each(m)
  {
    assert (matches + [m])[..|matches|] == matches;
    var t, u := Standing(m.home, matches), Standing(m.away, matches);
    assert figure(WithMatch(t, m.home, m)) - figure(t) + figure(WithMatch(u, m.away, m)) - figure(u) == each(m);
  }

  const PLAYED: Figure := (t: Tally) => t.matches
  const WON_LESS_LOST: Figure := (t: Tally) => t.wins - t.losses
  const GOAL_DIFFERENCE: Figure := (t: Tally) => t.goalsFor - t.goalsAgainst
  const POINTS: Figure := (t: Tally) => t.points

  function Worth(m: PlayedFixture): int {
    if m.score.Outcome().Draw? then 2 else 3
  }

  function Drawn(matches: seq<PlayedFixture>): nat {
    if matches == [] then 0 else
      Drawn(matches[..|matches| - 1]) + if matches[|matches| - 1].score.Outcome().Draw? then 1 else 0
  }

  lemma {:induction false} ConstantOverLedger(k: int, matches: seq<PlayedFixture>)
    ensures OverLedger((m: PlayedFixture) => k, matches) == k * |matches|
    decreases |matches|
  {
    if matches != [] {
      ConstantOverLedger(k, matches[..|matches| - 1]);
    }
  }

  lemma {:induction false} WorthOverLedger(matches: seq<PlayedFixture>)
    ensures OverLedger(Worth, matches) == 3 * |matches| - Drawn(matches)
    decreases |matches|
  {
    if matches != [] {
      WorthOverLedger(matches[..|matches| - 1]);
    }
  }

  /** In every table: two appearances a match, wins balance losses, goals balance, and a draw costs one point. */
  lemma ColumnTotals(teams: seq<TeamId>, matches: seq<PlayedFixture>)
    requires DistinctTeams(teams) && forall m :: m in matches ==> PlayedByMembers(teams, m)
    ensures Column(PLAYED, teams, matches) == 2 * |matches|
    ensures Column(WON_LESS_LOST, teams, matches) == 0
    ensures Column(GOAL_DIFFERENCE, teams, matches) == 0
    ensures Column(POINTS, teams, matches) == 3 * |matches| - Drawn(matches)
  {
    var two, none := (m: PlayedFixture) => 2, (m: PlayedFixture) => 0;
    ColumnIsLedger(PLAYED, two, teams, matches);
    ColumnIsLedger(WON_LESS_LOST, none, teams, matches);
    ColumnIsLedger(GOAL_DIFFERENCE, none, teams, matches);
    ColumnIsLedger(POINTS, Worth, teams, matches);
    ConstantOverLedger(2, matches);
    ConstantOverLedger(0, matches);
    WorthOverLedger(matches);
  }
}
