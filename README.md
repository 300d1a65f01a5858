# NBA Games Ranked — scoring engine and ranking post, in Dafny

This project models the decision logic of NBA Games Ranked. The system fetches the previous
day's NBA results, gives every finished game an "entertainment score" from 0 to 100, and
posts the top games with a 1–5 star rating.

- `scoring.dfy` (module `Scoring`) is the scoring engine, `NBAGamesScoringCalculator.calculate`.
  It has five first-match-wins tier chains: overtime/closeness, visitor-has-better-record,
  combined conference rank, win-percentage parity, and individual high score. There is an
  optional playoff bonus. The total is normalised against 65, or 69 in playoff mode.
  Win percentages are `real`. Python's `round((s / max) * 100)` is the integer
  `(200 s + max) div (2 max)`. `Normalize` proves that this is the unique nearest integer:
  both denominators are odd, so no total lies exactly halfway, and banker's rounding and
  half-up agree.
- `collector.dfy` (module `Collector`) is the data-assembly pass of `NBAGamesDataCollector`.
  - `GamesCollector` is a class. Its fields are the received game lists, the playoff table and
    the games table, and its methods update them as the source object does.
  - `get_games_stats` is `GetGamesStats`, a loop with `continue` and early failure; its body is
    `GameEntry`. It is proved equal to the specification function `GamesStats`.
  - `calculate_OTs` and `get_the_highest_pts` are loops proved against `FirstMatchOvertime`
    and `HighestPoints`.
  - Provider answers are inputs: a standings map, a box-score map, and the secondary game list
    (`None` when it was never received).
- `tweet.dfy` (module `Tweet`) is the ranking post of `post-tweet.py`: `gen_stars`, the star
  banding, and the loop that lists at most `LIMIT = 8` games and ends the post with `#nba`.
- `decimal.dfy` holds Python's `str()` of an integer and `int()` of leading digits.
  `wrappers.dfy` holds `Option` and `Result`.

The model follows the code in these behaviours, which are easy to assume otherwise. The one
exception is the period reading, described under "## Findings":

- Playoff mode does not always give a strictly lower score for the same total. Raw total 2 rounds
  to 3 under both denominators (`PlayoffNormalizeCanTie`). The score is never higher, though
  (`PlayoffNormalizeNotHigher`).
- A failed secondary-provider request is not degraded to "no overtime".
  - If no secondary list was ever received, `calculate_OTs` subscripts `None` (a TypeError)
    and `get_games_stats` aborts (`SecondaryUnavailable`).
  - If a later request fails, the previous date's list is kept and used
    (`ReceiveGamesData`).
- A failed standings request aborts the whole pass (`StandingsUnavailable`); the game is not
  merely excluded. `GamesStatsFailsIff` states this: the pass fails exactly when some game fails,
  with the first such game's error.
- In a box score, a player whose points do not parse stops the maximum loop. The maximum of the
  players before it is kept (`ParsedPrefix`).

## Model

| member | source | states |
|---|---|---|
| `Scoring.Calculate` | nbagames.py:299-379 | 0 for a row whose status is not "Finished"; outside playoff mode the score is in 0..100; in playoff mode too when the bonus is between 0 and 4 |
| `Scoring.EffectiveOvertime` | nbagames.py:307-311 | the overtime count used is the maximum of the two providers' counts: at least both, and equal to one of them |
| `Scoring.OvertimeSourcesMerge` | nbagames.py:307-311 | the score depends on the two overtime counts only through their maximum, and swapping the providers changes nothing |
| `Scoring.ClosenessPoints` | nbagames.py:313-329 | the overtime/closeness tier is worth 0..30, and at least 27 whenever there is overtime |
| `Scoring.OvertimePreemptsMargin` | nbagames.py:313-319 | with overtime the tier ignores the margin: 3 or more overtimes give 30, 2 give 29, 1 gives 27 |
| `Scoring.MarginBoundaries` | nbagames.py:320-329 | without overtime: margin 1 gives 27, 3 gives 25, 4 gives 19, 10 gives 8, 15 gives 1, 16 and 0 give 0 |
| `Scoring.MarginMonotone` | nbagames.py:320-329 | without overtime, for margins of at least 1 a smaller margin never earns fewer points |
| `Scoring.OvertimeMonotone` | nbagames.py:313-329 | more overtimes never earn fewer points, and any overtime earns at least as much as any margin |
| `Scoring.UpsetPoints` | nbagames.py:331-333 | the better-visitor bonus is either 0 or 3 |
| `Scoring.RankPoints` | nbagames.py:335-342 | the combined-rank bonus is between 0 and 10 |
| `Scoring.RankMonotone` | nbagames.py:335-342 | the combined-rank bonus is non-increasing in the sum of the conference ranks |
| `Scoring.ParityPoints` | nbagames.py:344-355 | the parity bonus is between 0 and 7 |
| `Scoring.ParityMonotone` | nbagames.py:344-355 | the parity bonus is non-increasing in the win-percentage gap |
| `Scoring.PerformancePoints` | nbagames.py:361-369 | the individual-performance bonus is between 0 and 15 |
| `Scoring.PerformanceMonotone` | nbagames.py:361-369 | the individual-performance bonus is non-decreasing in the highest points |
| `Scoring.BaseTotal` | nbagames.py:313-369 | the accumulated points without the playoff bonus lie between 0 and 65 |
| `Scoring.Normalize` | nbagames.py:371-377 | the normalised score is the unique integer nearest to 100 * total / max (strictly within one half), for max 65 or 69 |
| `Scoring.NormalizeBounds` | nbagames.py:371-377 | a total between 0 and the maximum normalises to a score between 0 and 100 |
| `Scoring.NormalizeMonotone` | nbagames.py:377 | a larger total never gets a smaller score |
| `Scoring.PlayoffNormalizeNotHigher` | nbagames.py:373-377 | for the same non-negative total, the playoff denominator 69 never gives a higher score than 65 |
| `Scoring.PlayoffModeNotHigher` | nbagames.py:357-377 | a row with playoff bonus 0 never scores higher in playoff mode |
| `Scoring.PlayoffNormalizeCanTie` | nbagames.py:373-377 | playoff mode is not always strictly lower: total 2 scores 3 in both modes |
| `Scoring.ScoreIs100Iff` | nbagames.py:313-377 | outside playoff mode a finished game scores 100 exactly when it reaches every top band (3+ overtimes, better visitor, ranks summing to at most 5, gap at most 0.02, 55+ points) |
| `Scoring.ScoreIs0Iff` | nbagames.py:313-377 | outside playoff mode a finished game scores 0 exactly when it reaches no band at all |
| `Scoring.PlayoffBonusAboveCapOverflows` | nbagames.py:357-377 | the cap of 4 is needed: a game reaching every band with a bonus above 4 scores more than 100 |
| `Collector.PeriodOvertimeAsWritten` | nbagames.py:101 | the source's reading of the period: defined exactly when the field starts with a digit; the result is that digit minus 4, so it is at most 5 |
| `Collector.PeriodOvertimeAsWrittenMisreadsTen` | nbagames.py:101 | the tenth period ("10/4", six overtimes) is read as -3 overtimes |
| `Collector.PeriodOvertime` | nbagames.py:101 | corrected reading: the whole leading number minus 4; it fails exactly when the field does not start with a digit |
| `Collector.PeriodOvertimeCountsPeriods` | nbagames.py:101 | a field made of a period count and a non-digit suffix yields that count minus 4 |
| `Collector.PeriodOvertimeReadsTen` | nbagames.py:101 | "10/4" yields 6 overtimes |
| `Collector.PeriodOvertimeAgreesBelowTen` | nbagames.py:101 | for single-digit period counts the corrected reading equals the source's |
| `Collector.FirstMatchOvertime` | nbagames.py:234-247 | 0 or 1; it is 1 exactly when the first secondary entry whose home team has the name reports an over_time value; later entries are ignored, and no match gives 0 |
| `Collector.ParsedPrefix` | nbagames.py:210-225 | the points read before the first player whose points fail to parse, in order |
| `Collector.MaxOrZero` | nbagames.py:209-217 | the maximum loop's result is at least 0 and at least every value, and is 0 or one of the values |
| `Collector.PlayoffPoints` | nbagames.py:143-156 | the bonus is that of the first table row for the visitor, or 0 when the visitor is not in the table |
| `Collector.GamesStats` | nbagames.py:80-194 | on success at most one row per game, and every row is from a Finished game with both team ids present, pointsDiff = abs(vPts - hPts), OT2 of 0 or 1, highest points of at least 0, and no playoff bonus outside playoff mode |
| `Collector.UnfinishedGamesIgnored` | nbagames.py:87-99 | removing every game that is not Finished does not change the result |
| `Collector.GhostDuplicateYieldsOneRow` | nbagames.py:89-99 | a scheduled ghost entry next to the finished game yields exactly the finished game's row |
| `Collector.HighestPoints` | nbagames.py:208-232 | the highest points of a box score are at least 0 and at least every player's points read before the first parse failure, and are 0 or one of those points; 0 when the box score could not be fetched |
| `Collector.GameStep` | nbagames.py:87-191 | one loop iteration skips a game exactly when it is not Finished, or its period parses and either the visitor id is missing or the visitor has standings and the host id is missing; it fails exactly when the game is Finished and its period does not parse, or the visitor id is present without standings, or the visitor has standings and the host id is present without standings, or both have standings and no secondary list was received |
| `Collector.GamesStatsFailsIff` | nbagames.py:87-191 | the pass fails exactly when some game's step fails, and the error is that of the first failing game |
| `Collector.GameStepKeeps` | nbagames.py:87-191 | a game yields a row exactly when it is Finished, its period parses, both team ids are present and have standings, and the secondary list was received; the row then holds that game's fields, both teams' ranks and win percentages, the period's overtime count, the first-match overtime indicator for the host's full name, the visitor's playoff bonus (0 outside playoff mode) and the box score's highest points |
| `Collector.GamesStatsRowsFollowGames` | nbagames.py:87-191 | on success the rows are exactly the finished games with both ids, one each, in list order; each row holds its game's ids, names and points, both teams' standings, the period's overtime count, the first-match OT2 for the host's full name, the visitor's playoff bonus and the box score's highest points |
| `Collector.GamesCollector.constructor` | nbagames.py:24-49 | a new collector has the playoff mode given, no primary and no secondary game list (both None), an empty playoff table and an empty games table |
| `Collector.GamesCollector.ReceiveGamesData` | nbagames.py:52-77 | the primary list becomes the one received; the secondary list is replaced only when its request succeeded; the reported count is returned |
| `Collector.GamesCollector.GetPlayoffData` | nbagames.py:197-199 | the playoff table is loaded only in playoff mode |
| `Collector.GamesCollector.GetTheHighestPts` | nbagames.py:208-232 | returns the highest points of the players read before any parse failure, never below 0, and 0 when the box score could not be fetched |
| `Collector.GamesCollector.CalculateOTs` | nbagames.py:234-247 | returns the first-match overtime indicator; fails when no secondary list was ever received |
| `Collector.GamesCollector.GameEntry` | nbagames.py:87-191 | one loop iteration, with its checks and requests in the source's order, skips, fails or assembles exactly as `GameStep` specifies |
| `Collector.GamesCollector.GetGamesStats` | nbagames.py:80-194 | before any game list was requested the pass fails and the table is unchanged; otherwise, on success the games table becomes the specified rows and their number is returned, and on failure the table is unchanged and the first failure is returned |
| `Decimal.NatToString` | post-tweet.py:79-80 | str() of a natural number is a non-empty string of digits without a leading zero |
| `Decimal.IntToString` | post-tweet.py:79-80 | str() of an integer is non-empty, starts with '-' exactly when the integer is negative, and is all digits otherwise |
| `Decimal.ParseIntToString` | post-tweet.py:79-80 | int() reads back what str() printed, when it is followed by a non-digit: the value itself, or for a negative number its absolute value after the '-' |
| `Decimal.ParseLeadingNat` | nbagames.py:101 | int() of the leading digits is undefined exactly when the text does not start with a digit |
| `Decimal.ParseNatToString` | nbagames.py:101 | reading back a number written by str() and followed by a non-digit gives the number |
| `Tweet.Stars` | post-tweet.py:22-26 | n stars, all U+2B50, and none for n <= 0 |
| `Tweet.GenStars` | post-tweet.py:22-26 | the loop over range(1, n + 1) yields exactly Stars(n) |
| `Tweet.StarCount` | post-tweet.py:65-77 | every integer score gets exactly one star count, between 1 and 5 |
| `Tweet.StarCountByBounds` | post-tweet.py:65-77 | the star count is 1 plus the number of band bounds 15, 27, 40, 56 the score exceeds |
| `Tweet.StarCountMonotone` | post-tweet.py:68-77 | a higher score never gets fewer stars |
| `Tweet.StarBandBoundaries` | post-tweet.py:65-77 | 15 gives 1 star, 16 and 27 give 2, 28 and 40 give 3, 41 and 56 give 4, 57 gives 5 |
| `Tweet.FormatLine` | post-tweet.py:79-80 | a formatted line is 7 characters longer than the team names, the stars and str() of the score together, and ends with a line break |
| `Tweet.FormatLineShape` | post-tweet.py:79-80 | a formatted line is exactly "Visitor-Host: ", the stars, " (", str() of the score, and ")\n"; int() reads the score back from it |
| `Tweet.GameLineShape` | post-tweet.py:79-80 | a game line starts with "Visitor-Host: ", then has exactly the score's star rating in stars, then " (", str() of the score (read back by int()) and ")\n" |
| `Tweet.BuildPost` | post-tweet.py:61-84 | the post is the header, then the lines of the first min(rows, 8) games in file order, then "#nba"; the number of listed games is returned |
| `Tweet.PreparePost` | post-tweet.py:86-92 | nothing is posted exactly when there are no games; otherwise 1 to 8 games are posted, with the built text |

## Findings

| source | as written | input that shows it | evidently intended | confidence | as-written member | corrected member |
|---|---|---|---|---|---|---|
| nbagames.py:101 | `int(game['currentPeriod'][0:1]) - 4` reads only the first character of the period field | a game decided in the tenth period (six overtimes), period field "10/4", gives OT = -3 | OT = number of periods minus 4, here 6 | low: not executed, and the "N/4" period format of the provider is assumed | `Collector.PeriodOvertimeAsWrittenMisreadsTen` | `Collector.PeriodOvertimeCountsPeriods` |

In the source, the misread OT = -3 is rescued only by the secondary provider's indicator. That
indicator is at most 1, so such a game would score the one-overtime tier (+27) instead of +30.
`GamesStats` and `GetGamesStats` use the corrected `PeriodOvertime`. For every period count below
ten the two readings agree (`PeriodOvertimeAgreesBelowTen`).

## Left out

- GamesStats: a row's OT uses the corrected reading of the period field (the whole leading
  number minus 4, `PeriodOvertime`), not the source's first character minus 4 at nbagames.py:101.
  The two differ only for a period count of ten or more (see "## Findings"); below ten they
  agree (`PeriodOvertimeAgreesBelowTen`), and both fail on the same inputs.
- GamesCollector.GetGamesStats: stores rows with the same corrected OT reading as `GamesStats`
  (through `GameEntry`).
- HTTP requests, API keys and `time.sleep` pacing are not modelled; only the decoded answers are
  (`get_games_data`, `get_team_data`, `get_seasons`, and the requests inside
  `get_the_highest_pts`).
- Standings failures are not distinguished: a failed request, bad JSON or an empty standings
  list all appear as a team missing from the standings map.
- `get_formatted_dates` and all start/end time columns are not modelled. They are timezone
  conversions through pytz, with daylight-saving rules the model cannot see. Logo columns are
  also dropped.
- `calculate_score`, `sort_values`, the CSV/HTML/JSON writers, `print_games_json` and
  `write_games_to_file` are not modelled. They are pandas glue and file output.
- The scoring file is not read: the post is built from its rows, given in file order.
- The reading of `./scoring/playoff.csv` is not modelled; the table is given to `GetPlayoffData`.
- `nba_games_scoring.py` is not part of this model: two-date fetch, concatenation, and the
  filter on the Eastern-time start date.
- These parts of `post-tweet.py` are not modelled: the log file, the dotenv credentials, the
  tweepy client and its errors, the date in the header, and `random.choice` of the preamble.
  The header is a parameter.
- Verbose printing is not modelled.
- Win percentages are exact reals. IEEE float effects at the 0.02/0.04/0.1/0.2/0.3 parity
  boundaries are not modelled.
- Points, ranks and box-score totals arrive as decoded integers. `int()` failures on them are
  not modelled, except a box-score entry that fails to parse (`None`). A failure to decode the
  primary game list is not modelled either.
- `int()` accepting surrounding whitespace or non-ASCII digits in the period field is not
  modelled; only ASCII digits count.
- A null team id is decoded as the empty string. The source treats both the same way.
- A secondary entry without a home-team name never matches, because the home team's full name
  is always a string here.
