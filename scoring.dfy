/**
 * The entertainment score of one game (NBAGamesScoringCalculator.calculate in nbagames.py).
 * Points are added by five first-match-wins tier chains, an optional playoff bonus, and
 * the total is normalised to 0..100 against the largest attainable total.
 */
module Scoring {

  const FINISHED: string := "Finished"

  /** One row of the games table that get_games_stats assembles; the score is computed from it. */
  datatype GameRow = GameRow(
    status: string,
    vTeamId: string,
    vPct: real,
    vConfRank: int,
    visitor: string,
    vPts: int,
    hPts: int,
    host: string,
    hConfRank: int,
    hPct: real,
    hTeamId: string,
    pointsDiff: int,
    ot: int,          // overtimes from the primary provider (period count minus 4)
    ot2: int,         // 0 or 1, from the secondary provider
    playoff: int,     // playoff bonus from the reference table
    gameId: string,
    highestPts: int)

  function RealAbs(x: real): (y: real)
    ensures y >= 0.0 && (y == x || y == -x)
  {
    if x < 0.0 then -x else x
  }

  /** The overtime count that is scored: the larger of the two providers' counts. */
  function EffectiveOvertime(ot: int, ot2: int): (n: int)
    ensures n >= ot && n >= ot2
    ensures n == ot || n == ot2
  {
    if ot2 > ot then ot2 else ot
  }

  /** Overtime / closeness tier: overtime tiers first, then the final margin. */
  function ClosenessPoints(ot: int, pointsDiff: int): (p: int)
    ensures 0 <= p <= 30
    ensures ot >= 1 ==> p >= 27
  {
    if ot >= 3 then 30
    else if ot == 2 then 29
    else if ot == 1 then 27
    else if pointsDiff == 1 then 27
    else if 1 < pointsDiff <= 3 then 25
    else if 3 < pointsDiff <= 6 then 19
    else if 6 < pointsDiff <= 10 then 8
    else if 10 < pointsDiff <= 15 then 1
    else 0
  }

  /** Bonus when the visitor has the better win percentage. */
  function UpsetPoints(vPct: real, hPct: real): (p: int)
    ensures p == 0 || p == 3
  {
    if vPct > hPct then 3 else 0
  }

  /** Bonus for the sum of the two conference ranks. */
  function RankPoints(combinedRank: int): (p: int)
    ensures 0 <= p <= 10
  {
    if combinedRank <= 5 then 10
    else if 5 < combinedRank <= 10 then 8
    else if 10 < combinedRank <= 16 then 4
    else 0
  }

  /** Bonus for win percentages close to each other. */
  function ParityPoints(pctDiff: real): (p: int)
    ensures 0 <= p <= 7
  {
    if pctDiff <= 0.02 then 7
    else if 0.02 < pctDiff <= 0.04 then 5
    else if 0.04 < pctDiff <= 0.1 then 4
    else if 0.1 < pctDiff <= 0.2 then 2
    else if 0.2 < pctDiff <= 0.3 then 1
    else 0
  }

  /** Bonus for an exceptional individual scoring performance. */
  function PerformancePoints(highestPts: int): (p: int)
    ensures 0 <= p <= 15
  {
    if highestPts >= 55 then 15
    else if highestPts >= 48 then 10
    else if highestPts >= 45 then 5
    else if highestPts >= 40 then 3
    else 0
  }

  /** The accumulated points without the playoff bonus. */
  function BaseTotal(row: GameRow): (t: int)
    ensures 0 <= t <= 65
  {
    ClosenessPoints(EffectiveOvertime(row.ot, row.ot2), row.pointsDiff)
    + UpsetPoints(row.vPct, row.hPct)
    + RankPoints(row.vConfRank + row.hConfRank)
    + ParityPoints(RealAbs(row.vPct - row.hPct))
    + PerformancePoints(row.highestPts)
  }

  function RawTotal(row: GameRow, playoffMode: bool): int
  {
    BaseTotal(row) + (if playoffMode then row.playoff else 0)
  }

  /** max_scoring: 65, or 69 when playoff mode reserves 4 points for the playoff bonus. */
  function MaxScoring(playoffMode: bool): int
  {
    if playoffMode then 69 else 65
  }

  /**
   * round((raw / max) * 100). Both denominators are odd, so 100 * raw / max never lies halfway
   * between two integers and the integer below is the only nearest one, whatever the rounding mode.
   */
  function Normalize(raw: int, playoffMode: bool): (score: int)
    ensures !playoffMode ==> 130 * score - 65 < 200 * raw < 130 * score + 65
    ensures playoffMode ==> 138 * score - 69 < 200 * raw < 138 * score + 69
  {
    // the remainder is 200 * raw + max minus an even number, so it is odd and never 0
    if playoffMode then
      var q, r := (200 * raw + 69) / 138, (200 * raw + 69) % 138;
      assert 200 * raw + 69 == 138 * q + r && 0 <= r < 138;
      assert r == 2 * (100 * raw - 69 * q) + 69;
      q
    else
      var q, r := (200 * raw + 65) / 130, (200 * raw + 65) % 130;
      assert 200 * raw + 65 == 130 * q + r && 0 <= r < 130;
      assert r == 2 * (100 * raw - 65 * q) + 65;
      q
  }

  /** The score of one row; 0 for a game that is not finished. */
  function Calculate(row: GameRow, playoffMode: bool): (score: int)
    ensures row.status != FINISHED ==> score == 0
    ensures !playoffMode ==> 0 <= score <= 100
    ensures playoffMode && 0 <= row.playoff <= 4 ==> 0 <= score <= 100
  {
    if row.status != FINISHED then 0
    else Normalize(RawTotal(row, playoffMode), playoffMode)
  }

  lemma NormalizeBounds(raw: int, playoffMode: bool)
    requires 0 <= raw <= MaxScoring(playoffMode)
    ensures 0 <= Normalize(raw, playoffMode) <= 100
  {
  }

  /** Rounding never reverses the order of two totals. */
  lemma NormalizeMonotone(a: int, b: int, playoffMode: bool)
    requires a <= b
    ensures Normalize(a, playoffMode) <= Normalize(b, playoffMode)
  {
  }

  /** For equal non-negative totals the playoff denominator never gives the higher score. */
  lemma PlayoffNormalizeNotHigher(raw: int)
    requires raw >= 0
    ensures Normalize(raw, true) <= Normalize(raw, false)
  {
  }

  /** A row whose playoff bonus is 0 never scores higher in playoff mode. */
  lemma PlayoffModeNotHigher(row: GameRow)
    requires row.playoff == 0
    ensures Calculate(row, true) <= Calculate(row, false)
  {
    PlayoffNormalizeNotHigher(BaseTotal(row));
  }

  /** ...but it is not always strictly lower: a total of 2 rounds to 3 under both denominators. */
  lemma PlayoffNormalizeCanTie()
    ensures Normalize(2, true) == Normalize(2, false) == 3
  {
  }

  /** Only the larger of the two overtime counts matters, and the providers can be swapped. */
  lemma OvertimeSourcesMerge(row: GameRow, playoffMode: bool)
    ensures var m := EffectiveOvertime(row.ot, row.ot2);
      Calculate(row, playoffMode) == Calculate(row.(ot := m, ot2 := m), playoffMode)
    ensures Calculate(row, playoffMode) == Calculate(row.(ot := row.ot2, ot2 := row.ot), playoffMode)
  {
  }

  /** Any overtime pre-empts the margin tiers, whatever the margin. */
  lemma OvertimePreemptsMargin(ot: int, d1: int, d2: int)
    requires ot >= 1
    ensures ClosenessPoints(ot, d1) == ClosenessPoints(ot, d2)
    ensures ClosenessPoints(ot, d1) == (if ot >= 3 then 30 else if ot == 2 then 29 else 27)
  {
  }

  /** The margin tiers at their boundaries, with no overtime. */
  lemma MarginBoundaries()
    ensures ClosenessPoints(0, 1) == 27
    ensures ClosenessPoints(0, 3) == 25 && ClosenessPoints(0, 4) == 19
    ensures ClosenessPoints(0, 10) == 8 && ClosenessPoints(0, 15) == 1
    ensures ClosenessPoints(0, 16) == 0 && ClosenessPoints(0, 0) == 0
  {
  }

  /** Without overtime, a closer game (margin at least 1) never earns fewer closeness points. */
  lemma MarginMonotone(ot: int, d1: int, d2: int)
    requires ot <= 0 && 1 <= d1 <= d2
    ensures ClosenessPoints(ot, d1) >= ClosenessPoints(ot, d2)
  {
  }

  /** More overtimes never earn fewer closeness points, and any overtime earns at least any margin. */
  lemma OvertimeMonotone(ot1: int, ot2: int, d: int, d0: int)
    requires 1 <= ot1 <= ot2
    ensures ClosenessPoints(ot1, d) <= ClosenessPoints(ot2, d)
    ensures ClosenessPoints(0, d0) <= ClosenessPoints(ot1, d)
  {
  }

  /** The combined-rank bonus is non-increasing in the sum of the ranks. */
  lemma RankMonotone(c1: int, c2: int)
    requires c1 <= c2
    ensures RankPoints(c1) >= RankPoints(c2)
  {
  }

  /** The parity bonus is non-increasing in the win-percentage gap. */
  lemma ParityMonotone(x: real, y: real)
    requires x <= y
    ensures ParityPoints(x) >= ParityPoints(y)
  {
  }

  /** The individual-performance bonus is non-decreasing in the highest points. */
  lemma PerformanceMonotone(h1: int, h2: int)
    requires h1 <= h2
    ensures PerformancePoints(h1) <= PerformancePoints(h2)
  {
  }

  predicate AllTopBands(row: GameRow)
  {
    && EffectiveOvertime(row.ot, row.ot2) >= 3
    && row.vPct > row.hPct
    && row.vConfRank + row.hConfRank <= 5
    && RealAbs(row.vPct - row.hPct) <= 0.02
    && row.highestPts >= 55
  }

  predicate NoBands(row: GameRow)
  {
    && ClosenessPoints(EffectiveOvertime(row.ot, row.ot2), row.pointsDiff) == 0
    && !(row.vPct > row.hPct)
    && row.vConfRank + row.hConfRank > 16
    && RealAbs(row.vPct - row.hPct) > 0.3
    && row.highestPts < 40
  }

  /** Outside playoff mode a finished game scores 100 exactly when it hits every top band. */
  lemma ScoreIs100Iff(row: GameRow)
    requires row.status == FINISHED
    ensures Calculate(row, false) == 100 <==> AllTopBands(row)
  {
    var t := BaseTotal(row);
    if Calculate(row, false) == 100 {
      assert t == 65;
    }
  }

  /** Outside playoff mode a finished game scores 0 exactly when it hits no band at all. */
  lemma ScoreIs0Iff(row: GameRow)
    requires row.status == FINISHED
    ensures Calculate(row, false) == 0 <==> NoBands(row)
  {
    var t := BaseTotal(row);
    if Calculate(row, false) == 0 {
      assert t == 0;
    }
  }

  /** A playoff bonus above the conventional cap of 4 can push the score past 100. */
  lemma PlayoffBonusAboveCapOverflows(row: GameRow)
    requires row.status == FINISHED && AllTopBands(row) && row.playoff > 4
    ensures Calculate(row, true) > 100
  {
    assert BaseTotal(row) == 65;
  }
}
