/**
 * Data assembly for the scoring engine (NBAGamesDataCollector in nbagames.py): the decoded
 * provider payloads are filtered and reconciled into the rows that Scoring.Calculate scores.
 * Network answers are inputs here: the standings and box scores the providers would return,
 * and the secondary provider's game list (None when its request failed).
 */
module Collector {
  import opened Wrappers
  import opened Decimal
  import opened Scoring

  /** One side of a primary-provider game; a null team id is decoded as "". */
  datatype TeamSide = TeamSide(teamId: string, shortName: string, fullName: string, points: int)

  /** One entry of the primary provider's game list for a date. */
  datatype RawGame = RawGame(
    gameId: string,
    status: string,
    currentPeriod: string,
    vTeam: TeamSide,
    hTeam: TeamSide)

  /** One entry of the secondary provider's game list: home team name and its over_time score. */
  datatype SecondaryGame = SecondaryGame(homeName: Option<string>, homeOverTime: Option<int>)

  /** One row of the playoff reference table. */
  datatype PlayoffEntry = PlayoffEntry(visitor: string, points: int)

  /** What the standings provider returns for a team. */
  datatype Standing = Standing(confRank: int, winPct: real)

  /** Failures that abort get_games_stats (uncaught exceptions in the source). */
  datatype StatsError =
    | MalformedPeriod(gameId: string)     // int() of the period digit fails
    | StandingsUnavailable(teamId: string) // standings call fails or returns no standing
    | SecondaryUnavailable                // the secondary game list was never received
    | GamesUnavailable                    // the primary game list was never requested

  /** Everything one pass of get_games_stats reads besides the primary game list. */
  datatype Context = Context(
    playoffMode: bool,
    playoffTable: seq<PlayoffEntry>,
    secondary: Option<seq<SecondaryGame>>,
    standings: map<string, Standing>,
    boxScores: map<string, seq<Option<int>>>)

  function Abs(x: int): int { if x < 0 then -x else x }

  // ---------------------------------------------------------------------------------------
  // Overtime count from the primary provider's period field.

  /** int(currentPeriod[0:1]) - 4: only the first character is read. */
  function PeriodOvertimeAsWritten(period: string): (r: Option<int>)
    ensures r.Some? <==> |period| >= 1 && IsDigit(period[0])
    ensures r.Some? ==> -4 <= r.value <= 5
  {
    if |period| >= 1 && IsDigit(period[0]) then Some(DigitValue(period[0]) - 4) else None
  }

  /** The tenth period (six overtimes) is read as period 1, that is, -3 overtimes. */
  lemma PeriodOvertimeAsWrittenMisreadsTen()
    ensures PeriodOvertimeAsWritten("10/4") == Some(-3)
  {
  }

  /** The number of periods the field starts with, minus 4. */
  function PeriodOvertime(period: string): (r: Option<int>)
    ensures r.None? <==> (period == [] || !IsDigit(period[0]))
  {
    match ParseLeadingNat(period)
    case None => None
    case Some(n) => Some(n - 4)
  }

  /** A period field written as the period count followed by a non-digit yields that count minus 4. */
  lemma PeriodOvertimeCountsPeriods(n: nat, rest: string)
    requires rest == [] || !IsDigit(rest[0])
    ensures PeriodOvertime(NatToString(n) + rest) == Some(n - 4)
  {
    ParseNatToString(n, rest);
  }

  lemma PeriodOvertimeReadsTen()
    ensures PeriodOvertime("10/4") == Some(6)
  {
    assert NatToString(10) == "10";
    PeriodOvertimeCountsPeriods(10, "/4");
    assert NatToString(10) + "/4" == "10/4";
  }

  /** For single-digit period counts both readings agree. */
  lemma PeriodOvertimeAgreesBelowTen(period: string)
    requires |period| >= 1 && IsDigit(period[0])
    requires |period| == 1 || !IsDigit(period[1])
    ensures PeriodOvertime(period) == PeriodOvertimeAsWritten(period)
  {
    LeadingDigitsOfDigitsThenRest([period[0]], period[1..]);
    assert [period[0]] + period[1..] == period;
    assert DigitsValue([period[0]]) == DigitValue(period[0]) by {
      assert [period[0]][..0] == [];
    }
  }

  // ---------------------------------------------------------------------------------------
  // Overtime indicator from the secondary provider.

  predicate HomeMatches(e: SecondaryGame, homeTeamName: string)
  {
    e.homeName == Some(homeTeamName)
  }

  /** Entry i is the first entry whose home team is the given one. */
  predicate IsFirstMatch(entries: seq<SecondaryGame>, homeTeamName: string, i: int)
  {
    && 0 <= i < |entries|
    && HomeMatches(entries[i], homeTeamName)
    && forall j :: 0 <= j < i ==> !HomeMatches(entries[j], homeTeamName)
  }

  /** 1 when the first entry for the home team reports an over_time score, else 0. */
  function FirstMatchOvertime(entries: seq<SecondaryGame>, homeTeamName: string): (r: int)
    ensures r == 0 || r == 1
    ensures r == 1 <==>
      exists i :: IsFirstMatch(entries, homeTeamName, i) && entries[i].homeOverTime.Some?
  {
    if entries == [] then 0
    else if HomeMatches(entries[0], homeTeamName) then
      assert IsFirstMatch(entries, homeTeamName, 0);
      if entries[0].homeOverTime.Some? then 1 else 0
    else
      var r := FirstMatchOvertime(entries[1..], homeTeamName);
      assert forall i :: IsFirstMatch(entries[1..], homeTeamName, i) <==>
        IsFirstMatch(entries, homeTeamName, i + 1);
      assert !IsFirstMatch(entries, homeTeamName, 0);
      assert r == 1 ==> exists i :: IsFirstMatch(entries, homeTeamName, i) && entries[i].homeOverTime.Some? by {
        if r == 1 {
          var k :| IsFirstMatch(entries[1..], homeTeamName, k) && entries[1..][k].homeOverTime.Some?;
          assert IsFirstMatch(entries, homeTeamName, k + 1);
        }
      }
      r
  }

  // ---------------------------------------------------------------------------------------
  // Highest individual points from a box score.

  /** The point totals read before the first one that does not parse. */
  function ParsedPrefix(points: seq<Option<int>>): (vs: seq<int>)
    ensures |vs| <= |points|
    ensures forall i :: 0 <= i < |vs| ==> points[i] == Some(vs[i])
    ensures |vs| < |points| ==> points[|vs|].None?
  {
    if points == [] || points[0].None? then [] else [points[0].value] + ParsedPrefix(points[1..])
  }

  /** The largest value, starting from 0. */
  function MaxOrZero(vs: seq<int>): (m: int)
    ensures m >= 0
    ensures forall i :: 0 <= i < |vs| ==> vs[i] <= m
    ensures m == 0 || exists i :: 0 <= i < |vs| && vs[i] == m
  {
    if vs == [] then 0
    else
      var m := MaxOrZero(vs[..|vs| - 1]);
      assert forall i :: 0 <= i < |vs| - 1 ==> vs[..|vs| - 1][i] == vs[i];
      if vs[|vs| - 1] > m then vs[|vs| - 1] else m
  }

  /** get_the_highest_pts: 0 when the box score could not be fetched or decoded. */
  function HighestPoints(response: Option<seq<Option<int>>>): (h: int)
    ensures h >= 0
    ensures response.None? ==> h == 0
    ensures response.Some? ==>
      var vs := ParsedPrefix(response.value);
      && (forall i :: 0 <= i < |vs| ==> vs[i] <= h)
      && (h == 0 || exists i :: 0 <= i < |vs| && vs[i] == h)
  {
    match response
    case None => 0
    case Some(points) => MaxOrZero(ParsedPrefix(points))
  }

  // ---------------------------------------------------------------------------------------
  // Playoff bonus lookup.

  predicate IsFirstPlayoffEntry(table: seq<PlayoffEntry>, visitor: string, i: int)
  {
    && 0 <= i < |table|
    && table[i].visitor == visitor
    && forall j :: 0 <= j < i ==> table[j].visitor != visitor
  }

  /** The bonus of the first table row for the visitor; 0 when the visitor is not in the table. */
  function PlayoffPoints(table: seq<PlayoffEntry>, visitor: string): (p: int)
    ensures forall i :: IsFirstPlayoffEntry(table, visitor, i) ==> p == table[i].points
    ensures (forall i :: 0 <= i < |table| ==> table[i].visitor != visitor) ==> p == 0
  {
    if table == [] then 0
    else if table[0].visitor == visitor then table[0].points
    else
      assert forall i :: IsFirstPlayoffEntry(table, visitor, i) ==>
        i >= 1 && IsFirstPlayoffEntry(table[1..], visitor, i - 1);
      PlayoffPoints(table[1..], visitor)
  }

  // ---------------------------------------------------------------------------------------
  // One pass of get_games_stats over a game list, as a specification.

  datatype Step = Skip | Keep(row: GameRow) | Fail(error: StatsError)

  function BoxScoreResponse(ctx: Context, gameId: string): Option<seq<Option<int>>>
  {
    if gameId in ctx.boxScores then Some(ctx.boxScores[gameId]) else None
  }

  function AssembleRow(g: RawGame, ot: int, ot2: int, vs: Standing, hs: Standing, ctx: Context): GameRow
  {
    GameRow(
      status := g.status,
      vTeamId := g.vTeam.teamId,
      vPct := vs.winPct,
      vConfRank := vs.confRank,
      visitor := g.vTeam.shortName,
      vPts := g.vTeam.points,
      hPts := g.hTeam.points,
      host := g.hTeam.shortName,
      hConfRank := hs.confRank,
      hPct := hs.winPct,
      hTeamId := g.hTeam.teamId,
      pointsDiff := Abs(g.vTeam.points - g.hTeam.points),
      ot := ot,
      ot2 := ot2,
      playoff := if ctx.playoffMode then PlayoffPoints(ctx.playoffTable, g.vTeam.shortName) else 0,
      gameId := g.gameId,
      highestPts := HighestPoints(BoxScoreResponse(ctx, g.gameId)))
  }

  /** What one loop iteration does with a game, checks in the order the source makes them. */
  function GameStep(g: RawGame, ctx: Context): (step: Step)
    ensures step.Skip? <==>
      || g.status != FINISHED
      || (PeriodOvertime(g.currentPeriod).Some?
          && (g.vTeam.teamId == "" || (g.vTeam.teamId in ctx.standings && g.hTeam.teamId == "")))
    ensures step.Fail? <==>
      && g.status == FINISHED
      && (|| PeriodOvertime(g.currentPeriod).None?
          || (&& g.vTeam.teamId != ""
              && (|| g.vTeam.teamId !in ctx.standings
                  || (&& g.hTeam.teamId != ""
                      && (g.hTeam.teamId !in ctx.standings || ctx.secondary.None?)))))
  {
    if g.status != FINISHED then Skip
    else match PeriodOvertime(g.currentPeriod)
      case None => Fail(MalformedPeriod(g.gameId))
      case Some(ot) =>
        if g.vTeam.teamId == "" then Skip
        else if g.vTeam.teamId !in ctx.standings then Fail(StandingsUnavailable(g.vTeam.teamId))
        else if g.hTeam.teamId == "" then Skip
        else if g.hTeam.teamId !in ctx.standings then Fail(StandingsUnavailable(g.hTeam.teamId))
        else if ctx.secondary.None? then Fail(SecondaryUnavailable)
        else
          var ot2 := FirstMatchOvertime(ctx.secondary.value, g.hTeam.fullName);
          Keep(AssembleRow(g, ot, ot2, ctx.standings[g.vTeam.teamId], ctx.standings[g.hTeam.teamId], ctx))
  }

  /** The properties every emitted row has. */
  predicate WellFormedRow(r: GameRow, playoffMode: bool)
  {
    && r.status == FINISHED
    && r.vTeamId != "" && r.hTeamId != ""
    && r.pointsDiff == Abs(r.vPts - r.hPts)
    && (r.ot2 == 0 || r.ot2 == 1)
    && r.highestPts >= 0
    && (!playoffMode ==> r.playoff == 0)
  }

  function Prepend(done: seq<GameRow>, rest: Result<seq<GameRow>, StatsError>): Result<seq<GameRow>, StatsError>
  {
    match rest
    case Ok(rs) => Ok(done + rs)
    case Err(e) => Err(e)
  }

  /** The rows of the games table, or the first failure, processing the games in order. */
  function GamesStats(games: seq<RawGame>, ctx: Context): (res: Result<seq<GameRow>, StatsError>)
    ensures res.Ok? ==> |res.value| <= |games|
    ensures res.Ok? ==> forall k :: 0 <= k < |res.value| ==> WellFormedRow(res.value[k], ctx.playoffMode)
  {
    if games == [] then Ok([])
    else match GameStep(games[0], ctx)
      case Skip => GamesStats(games[1..], ctx)
      case Fail(e) => Err(e)
      case Keep(row) => Prepend([row], GamesStats(games[1..], ctx))
  }

  lemma PrependAssociates(done: seq<GameRow>, row: GameRow, rest: Result<seq<GameRow>, StatsError>)
    ensures Prepend(done + [row], rest) == Prepend(done, Prepend([row], rest))
  {
    if rest.Ok? {
      assert (done + [row]) + rest.value == done + ([row] + rest.value);
    }
  }

  lemma GamesStatsUnfold(games: seq<RawGame>, i: int, ctx: Context)
    requires 0 <= i < |games|
    ensures GamesStats(games[i..], ctx) ==
      match GameStep(games[i], ctx)
      case Skip => GamesStats(games[i + 1..], ctx)
      case Fail(e) => Err(e)
      case Keep(row) => Prepend([row], GamesStats(games[i + 1..], ctx))
  {
    assert games[i..][0] == games[i];
    assert games[i..][1..] == games[i + 1..];
  }

  /** Game i is the first game of the list whose step fails. */
  predicate IsFirstFailure(games: seq<RawGame>, ctx: Context, i: int)
  {
    && 0 <= i < |games|
    && GameStep(games[i], ctx).Fail?
    && forall j :: 0 <= j < i ==> !GameStep(games[j], ctx).Fail?
  }

  /**
   * The pass fails exactly when some game's step fails (an uncaught exception aborts the whole
   * pass rather than dropping the game), and the error is that of the first such game.
   */
  lemma {:induction false} GamesStatsFailsIff(games: seq<RawGame>, ctx: Context)
    ensures GamesStats(games, ctx).Err? <==> exists i :: 0 <= i < |games| && GameStep(games[i], ctx).Fail?
    ensures GamesStats(games, ctx).Err? ==>
      exists i :: IsFirstFailure(games, ctx, i) && GamesStats(games, ctx).error == GameStep(games[i], ctx).error
  {
    if games != [] {
      var step := GameStep(games[0], ctx);
      if step.Fail? {
        assert IsFirstFailure(games, ctx, 0);
      } else {
        GamesStatsFailsIff(games[1..], ctx);
        assert GamesStats(games, ctx).Err? <==> GamesStats(games[1..], ctx).Err?;
        assert forall i :: 0 <= i < |games| - 1 ==> games[1..][i] == games[i + 1];
        if GamesStats(games, ctx).Err? {
          var k :| IsFirstFailure(games[1..], ctx, k)
            && GamesStats(games[1..], ctx).error == GameStep(games[1..][k], ctx).error;
          assert IsFirstFailure(games, ctx, k + 1);
        }
      }
    }
  }

  /** The finished games among the given ones, in their order. */
  function FinishedOnly(games: seq<RawGame>): (fs: seq<RawGame>)
    ensures |fs| <= |games|
    ensures forall k :: 0 <= k < |fs| ==> fs[k].status == FINISHED
  {
    if games == [] then []
    else if games[0].status == FINISHED then [games[0]] + FinishedOnly(games[1..])
    else FinishedOnly(games[1..])
  }

  /** Dropping every game that is not finished (lingering scheduled duplicates) changes nothing. */
  lemma {:induction false} UnfinishedGamesIgnored(games: seq<RawGame>, ctx: Context)
    ensures GamesStats(games, ctx) == GamesStats(FinishedOnly(games), ctx)
  {
    if games != [] {
      UnfinishedGamesIgnored(games[1..], ctx);
      if games[0].status == FINISHED {
        var fs := FinishedOnly(games);
        assert fs[0] == games[0] && fs[1..] == FinishedOnly(games[1..]);
      }
    }
  }

  /** A finished game together with a scheduled ghost entry for the same match-up yields one row. */
  lemma GhostDuplicateYieldsOneRow(ghostEntry: RawGame, g: RawGame, ctx: Context)
    requires ghostEntry.status != FINISHED
    requires GameStep(g, ctx).Keep?
    ensures GamesStats([ghostEntry, g], ctx) == Ok([GameStep(g, ctx).row])
  {
    assert [ghostEntry, g][1..] == [g];
    assert [g][1..] == [];
    assert GamesStats([g], ctx) == Prepend([GameStep(g, ctx).row], Ok([]));
    assert [GameStep(g, ctx).row] + [] == [GameStep(g, ctx).row];
  }

  /**
   * What a row reconciled from a game holds: the game's own fields, the period reading, the
   * standings of both teams, the secondary provider's first-match indicator for the host's full
   * name, the playoff bonus of the visitor and the box score's highest points.
   */
  predicate RowOfGame(r: GameRow, g: RawGame, ctx: Context)
  {
    && r.status == g.status && r.gameId == g.gameId
    && r.vTeamId == g.vTeam.teamId && r.hTeamId == g.hTeam.teamId
    && r.visitor == g.vTeam.shortName && r.host == g.hTeam.shortName
    && r.vPts == g.vTeam.points && r.hPts == g.hTeam.points
    && r.pointsDiff == Abs(g.vTeam.points - g.hTeam.points)
    && PeriodOvertime(g.currentPeriod) == Some(r.ot)
    && g.vTeam.teamId in ctx.standings && g.hTeam.teamId in ctx.standings
    && r.vConfRank == ctx.standings[g.vTeam.teamId].confRank
    && r.vPct == ctx.standings[g.vTeam.teamId].winPct
    && r.hConfRank == ctx.standings[g.hTeam.teamId].confRank
    && r.hPct == ctx.standings[g.hTeam.teamId].winPct
    && ctx.secondary.Some?
    && r.ot2 == FirstMatchOvertime(ctx.secondary.value, g.hTeam.fullName)
    && r.playoff == (if ctx.playoffMode then PlayoffPoints(ctx.playoffTable, g.vTeam.shortName) else 0)
    && r.highestPts == HighestPoints(BoxScoreResponse(ctx, g.gameId))
  }

  /**
   * A game yields a row exactly when it is finished, its period parses, both team ids are
   * present with standings, and the secondary list was received; the row is then the game's.
   */
  lemma GameStepKeeps(g: RawGame, ctx: Context)
    ensures GameStep(g, ctx).Keep? <==>
      && Emitted(g)
      && PeriodOvertime(g.currentPeriod).Some?
      && g.vTeam.teamId in ctx.standings && g.hTeam.teamId in ctx.standings
      && ctx.secondary.Some?
    ensures GameStep(g, ctx).Keep? ==> RowOfGame(GameStep(g, ctx).row, g, ctx)
  {
  }

  /** The games whose rows are emitted: finished, with both team ids present. */
  predicate Emitted(g: RawGame)
  {
    g.status == FINISHED && g.vTeam.teamId != "" && g.hTeam.teamId != ""
  }

  function EmittedGames(games: seq<RawGame>): seq<RawGame>
  {
    if games == [] then []
    else if Emitted(games[0]) then [games[0]] + EmittedGames(games[1..])
    else EmittedGames(games[1..])
  }

  /**
   * On success there is exactly one row per emitted game, in the order of the game list,
   * and each row is reconciled from its own game.
   */
  lemma {:induction false} GamesStatsRowsFollowGames(games: seq<RawGame>, ctx: Context)
    requires GamesStats(games, ctx).Ok?
    ensures var rows := GamesStats(games, ctx).value;
      var es := EmittedGames(games);
      && |rows| == |es|
      && forall k :: 0 <= k < |rows| ==> RowOfGame(rows[k], es[k], ctx)
  {
    if games != [] {
      GamesStatsRowsFollowGames(games[1..], ctx);
      var step := GameStep(games[0], ctx);
      GameStepKeeps(games[0], ctx);
      if step.Keep? {
        var rows := GamesStats(games, ctx).value;
        var tail := GamesStats(games[1..], ctx).value;
        assert rows == [step.row] + tail;
        var es := EmittedGames(games);
        assert es == [games[0]] + EmittedGames(games[1..]);
        forall k | 1 <= k < |rows|
          ensures rows[k] == tail[k - 1] && es[k] == EmittedGames(games[1..])[k - 1]
        {
        }
      } else {
        assert step.Skip?;
        assert !Emitted(games[0]);
      }
    }
  }

  // ---------------------------------------------------------------------------------------
  // The collector object.

  class GamesCollector {
    const playoffMode: bool
    /** The decoded primary-provider game list of the last date fetched; None before the first request. */
    var games: Option<seq<RawGame>>
    /** The decoded secondary-provider game list; a failed request keeps the previous one. */
    var secondary: Option<seq<SecondaryGame>>
    /** The playoff reference table (empty until loaded). */
    var playoffTable: seq<PlayoffEntry>
    /** The games table. */
    var rows: seq<GameRow>

    constructor (playoffMode: bool)
      ensures this.playoffMode == playoffMode
      ensures games == None && secondary == None && playoffTable == [] && rows == []
    {
      this.playoffMode := playoffMode;
      games := None;
      secondary := None;
      playoffTable := [];
      rows := [];
    }

    /**
     * The state change of get_games_data once both responses are decoded: the game list is
     * replaced, the secondary list only when its request succeeded; the reported count is returned.
     */
    method ReceiveGamesData(primary: seq<RawGame>, results: int, secondaryResponse: Option<seq<SecondaryGame>>)
      returns (n: int)
      modifies this
      ensures n == results
      ensures games == Some(primary)
      ensures secondary == (if secondaryResponse.Some? then secondaryResponse else old(secondary))
      ensures playoffTable == old(playoffTable) && rows == old(rows)
    {
      games := Some(primary);
      if secondaryResponse.Some? {
        secondary := secondaryResponse;
      }
      n := results;
    }

    /** get_playoff_data: the table is loaded only in playoff mode. */
    method GetPlayoffData(table: seq<PlayoffEntry>)
      modifies this`playoffTable
      ensures playoffTable == (if playoffMode then table else old(playoffTable))
    {
      if playoffMode {
        playoffTable := table;
      }
    }

    /**
     * get_the_highest_pts over a decoded box score: the largest point total seen before the
     * first entry that fails to parse, never below 0.
     */
    method GetTheHighestPts(response: Option<seq<Option<int>>>) returns (highest: int)
      ensures highest == HighestPoints(response)
      ensures highest >= 0
    {
      highest := 0;
      if response.None? {
        return;
      }
      var points := response.value;
      ghost var parsed := ParsedPrefix(points);
      var i := 0;
      while i < |points|
        invariant 0 <= i <= |parsed|
        invariant highest == MaxOrZero(parsed[..i])
      {
        if points[i].None? {
          break;
        }
        assert parsed[..i + 1][..i] == parsed[..i];
        if points[i].value > highest {
          highest := points[i].value;
        }
        i := i + 1;
      }
      assert parsed[..|parsed|] == parsed;
    }

    /** calculate_OTs: the overtime indicator of the first secondary entry for the home team. */
    method CalculateOTs(homeTeamName: string) returns (noOT2: Option<int>)
      ensures secondary.None? ==> noOT2.None?
      ensures secondary.Some? ==> noOT2 == Some(FirstMatchOvertime(secondary.value, homeTeamName))
    {
      if secondary.None? {
        return None;
      }
      var entries := secondary.value;
      var found := 0;
      var i := 0;
      while i < |entries|
        invariant 0 <= i <= |entries|
        invariant found == 0
        invariant FirstMatchOvertime(entries, homeTeamName) == FirstMatchOvertime(entries[i..], homeTeamName)
      {
        assert entries[i..][0] == entries[i] && entries[i..][1..] == entries[i + 1..];
        if HomeMatches(entries[i], homeTeamName) {
          if entries[i].homeOverTime.Some? {
            found := 1;
          }
          break;
        }
        i := i + 1;
      }
      noOT2 := Some(found);
    }

    /**
     * One iteration of get_games_stats' loop: skips the game, fails, or assembles its row,
     * with the requests made in the order the source makes them.
     */
    method GameEntry(g: RawGame, standings: map<string, Standing>, boxScores: map<string, seq<Option<int>>>)
      returns (step: Step)
      ensures step == GameStep(g, Context(playoffMode, playoffTable, secondary, standings, boxScores))
    {
      if g.status != FINISHED {
        return Skip;
      }
      var otOpt := PeriodOvertime(g.currentPeriod);
      if otOpt.None? {
        return Fail(MalformedPeriod(g.gameId));
      }
      var vTeamId := g.vTeam.teamId;
      if vTeamId == "" {
        return Skip;
      }
      if vTeamId !in standings {
        return Fail(StandingsUnavailable(vTeamId));
      }
      var vStanding := standings[vTeamId];
      var hTeamId := g.hTeam.teamId;
      if hTeamId == "" {
        return Skip;
      }
      if hTeamId !in standings {
        return Fail(StandingsUnavailable(hTeamId));
      }
      var hStanding := standings[hTeamId];
      var playoffPts := 0;
      if playoffMode {
        playoffPts := PlayoffPoints(playoffTable, g.vTeam.shortName);
      }
      var boxScore := if g.gameId in boxScores then Some(boxScores[g.gameId]) else None;
      var highestPts := GetTheHighestPts(boxScore);
      var noOT2 := CalculateOTs(g.hTeam.fullName);
      if noOT2.None? {
        return Fail(SecondaryUnavailable);
      }
      var row := GameRow(
        status := g.status,
        vTeamId := vTeamId,
        vPct := vStanding.winPct,
        vConfRank := vStanding.confRank,
        visitor := g.vTeam.shortName,
        vPts := g.vTeam.points,
        hPts := g.hTeam.points,
        host := g.hTeam.shortName,
        hConfRank := hStanding.confRank,
        hPct := hStanding.winPct,
        hTeamId := hTeamId,
        pointsDiff := Abs(g.vTeam.points - g.hTeam.points),
        ot := otOpt.value,
        ot2 := noOT2.value,
        playoff := playoffPts,
        gameId := g.gameId,
        highestPts := highestPts);
      return Keep(row);
    }

    /**
     * get_games_stats: on success the games table becomes the rows of GamesStats and their
     * number is returned; on a failure the table is left as it was. Before any game list was
     * requested the pass fails.
     */
    method GetGamesStats(standings: map<string, Standing>, boxScores: map<string, seq<Option<int>>>)
      returns (res: Result<nat, StatsError>)
      modifies this`rows
      ensures games.None? ==> rows == old(rows) && res == Err(GamesUnavailable)
      ensures games.Some? ==>
        var spec := GamesStats(games.value, Context(playoffMode, playoffTable, secondary, standings, boxScores));
        && (spec.Ok? ==> rows == spec.value && res == Ok(|spec.value|))
        && (spec.Err? ==> rows == old(rows) && res == Err(spec.error))
    {
      if games.None? {
        return Err(GamesUnavailable);
      }
      var gs := games.value;
      ghost var ctx := Context(playoffMode, playoffTable, secondary, standings, boxScores);
      var lst: seq<GameRow> := [];
      assert gs[0..] == gs;
      assert GamesStats(gs, ctx).Ok? ==> [] + GamesStats(gs, ctx).value == GamesStats(gs, ctx).value;
      for i := 0 to |gs|
        invariant rows == old(rows)
        invariant Prepend(lst, GamesStats(gs[i..], ctx)) == GamesStats(gs, ctx)
      {
        GamesStatsUnfold(gs, i, ctx);
        var step := GameEntry(gs[i], standings, boxScores);
        match step
        case Skip =>
        case Fail(e) =>
          return Err(e);
        case Keep(row) =>
          PrependAssociates(lst, row, GamesStats(gs[i + 1..], ctx));
          lst := lst + [row];
      }
      assert gs[|gs|..] == [];
      rows := lst;
      res := Ok(|lst|);
    }
  }
}
