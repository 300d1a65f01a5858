/**
 * The ranking post (post-tweet.py): each ranked game becomes one line with a 1-5 star rating,
 * at most LIMIT games are listed, and nothing is posted when there are no games.
 */
module Tweet {
  import opened Wrappers
  import opened Decimal

  /** U+2B50, the star printed by gen_stars. */
  const STAR: char := '\U{2B50}'

  /** At most this many games are listed in one post. */
  const LIMIT: nat := 8

  /** One row of the scoring file, in file order. */
  datatype RankedGame = RankedGame(visitor: string, host: string, score: int)

  /** What the script does with the post it built. */
  datatype Outcome = NoGames | Publish(text: string, games: nat)

  function Min(a: int, b: int): int { if a <= b then a else b }

  /** n stars; none when n is not positive. */
  function Stars(n: int): (s: string)
    ensures |s| == (if n > 0 then n else 0)
    ensures forall i :: 0 <= i < |s| ==> s[i] == STAR
  {
    if n <= 0 then "" else Stars(n - 1) + [STAR]
  }

  /** gen_stars: concatenates one star per value of range(1, n + 1). */
  method GenStars(n: int) returns (s: string)
    ensures s == Stars(n)
  {
    s := "";
    var i := 1;
    while i < n + 1
      invariant 1 <= i <= (if n >= 0 then n + 1 else 1)
      invariant s == Stars(i - 1)
    {
      s := s + [STAR];
      i := i + 1;
    }
  }

  /** The star rating of a score: 1..15 one star, 16..27 two, 28..40 three, 41..56 four, 57 and above five. */
  function StarCount(pts: int): (n: int)
    ensures 1 <= n <= 5
  {
    if pts <= 15 then 1
    else if 15 < pts <= 27 then 2
    else if 27 < pts <= 40 then 3
    else if 40 < pts <= 56 then 4
    else 5
  }

  /** The band upper bounds, lowest first. */
  const BAND_TOPS: seq<int> := [15, 27, 40, 56]

  /** How many of the bounds the score exceeds. */
  function CountExceeded(bounds: seq<int>, pts: int): (c: nat)
    ensures c <= |bounds|
  {
    if bounds == [] then 0
    else (if pts > bounds[0] then 1 else 0) + CountExceeded(bounds[1..], pts)
  }

  /** The rating is one star plus one for each band bound the score passes. */
  lemma StarCountByBounds(pts: int)
    ensures StarCount(pts) == 1 + CountExceeded(BAND_TOPS, pts)
  {
    var one := if pts > 56 then 1 else 0;
    assert [56][1..] == [];
    assert CountExceeded([56], pts) == one;
    assert [40, 56][1..] == [56];
    assert CountExceeded([40, 56], pts) == (if pts > 40 then 1 else 0) + one;
    assert [27, 40, 56][1..] == [40, 56];
    assert CountExceeded([27, 40, 56], pts) == (if pts > 27 then 1 else 0) + (if pts > 40 then 1 else 0) + one;
    assert BAND_TOPS[1..] == [27, 40, 56];
  }

  /** A higher score never gets fewer stars. */
  lemma StarCountMonotone(a: int, b: int)
    requires a <= b
    ensures StarCount(a) <= StarCount(b)
  {
  }

  lemma StarBandBoundaries()
    ensures StarCount(15) == 1
    ensures StarCount(16) == 2 && StarCount(27) == 2
    ensures StarCount(28) == 3 && StarCount(40) == 3
    ensures StarCount(41) == 4 && StarCount(56) == 4
    ensures StarCount(57) == 5
  {
  }

  /** "Visitor-Host: <stars> (<score>)" and a line break. */
  function FormatLine(visitor: string, host: string, stars: string, pts: int): (line: string)
    ensures |line| == |visitor| + |host| + |stars| + |IntToString(pts)| + 7
    ensures line[|line| - 1] == '\n'
  {
    var body := visitor + "-" + host + ": " + stars + " (" + IntToString(pts);
    assert (body + ")\n")[|body| + 1] == '\n';
    body + ")\n"
  }

  function GameLine(g: RankedGame): string
  {
    FormatLine(g.visitor, g.host, Stars(StarCount(g.score)), g.score)
  }

  /** The lines of the given games, in order. */
  function Lines(gs: seq<RankedGame>): string
  {
    if gs == [] then "" else Lines(gs[..|gs| - 1]) + GameLine(gs[|gs| - 1])
  }

  /** Appending a game appends its line. */
  lemma LinesStep(gs: seq<RankedGame>, k: nat)
    requires k < |gs|
    ensures Lines(gs[..k + 1]) == Lines(gs[..k]) + GameLine(gs[k])
  {
    assert gs[..k + 1][..k] == gs[..k];
  }

  lemma LinesSnoc(header: string, gs: seq<RankedGame>, k: nat)
    requires k < |gs|
    ensures header + Lines(gs[..k + 1]) == (header + Lines(gs[..k])) + GameLine(gs[k])
  {
    LinesStep(gs, k);
    Associates(header, Lines(gs[..k]), GameLine(gs[k]));
  }

  lemma Associates(a: string, b: string, c: string)
    ensures a + (b + c) == (a + b) + c
  {
  }

  /** Where the pieces of "<prefix><stars> (<num>)\n" sit. */
  lemma LineLayout(prefix: string, stars: string, num: string)
    ensures var line := prefix + stars + " (" + num + ")\n";
      var at := |prefix| + |stars| + 2;
      && |line| == at + |num| + 2
      && line[..|prefix|] == prefix
      && line[|prefix|..|prefix| + |stars|] == stars
      && line[|prefix| + |stars|..at] == " ("
      && line[at..] == num + ")\n"
      && line[|line| - 2..] == ")\n"
  {
    var head := prefix + stars + " (";
    assert prefix + stars + " (" + num + ")\n" == head + (num + ")\n");
    assert head[..|prefix|] == prefix;
    assert head[|prefix|..|prefix| + |stars|] == stars;
  }

  /**
   * The line is the prefix, then the stars, then " (", str() of the score and ")\n"; int() reads
   * the score back (after a minus sign when it is negative).
   */
  predicate ShowsScore(line: string, prefix: string, stars: string, pts: int)
  {
    var at := |prefix| + |stars| + 2;
    && |line| > at
    && line[..|prefix|] == prefix
    && line[|prefix|..|prefix| + |stars|] == stars
    && line[|prefix| + |stars|..at] == " ("
    && (pts >= 0 ==> ParseLeadingNat(line[at..]) == Some(pts))
    && (pts < 0 ==> line[at] == '-' && ParseLeadingNat(line[at + 1..]) == Some(-pts))
    && line[at..] == IntToString(pts) + ")\n"
    && line[|line| - 2..] == ")\n"
  }

  /** A formatted line shows the match-up, the stars given and the score. */
  lemma FormatLineShape(visitor: string, host: string, stars: string, pts: int)
    ensures ShowsScore(FormatLine(visitor, host, stars, pts), visitor + "-" + host + ": ", stars, pts)
  {
    var prefix := visitor + "-" + host + ": ";
    var num := IntToString(pts);
    LineLayout(prefix, stars, num);
    var line := FormatLine(visitor, host, stars, pts);
    var at := |prefix| + |stars| + 2;
    var tail := line[at..];
    ParseIntToString(pts, ")\n");
    assert line[at + 1..] == tail[1..] && line[at] == tail[0];
  }

  /** Each game line shows the match-up, exactly the score's star rating in stars, and the score. */
  lemma GameLineShape(g: RankedGame)
    ensures ShowsScore(GameLine(g), g.visitor + "-" + g.host + ": ", Stars(StarCount(g.score)), g.score)
  {
    FormatLineShape(g.visitor, g.host, Stars(StarCount(g.score)), g.score);
  }

  /**
   * The post-building loop: the header, then one line per game of the file in order, stopping
   * after LIMIT games, then "#nba". Also returns how many games were listed.
   */
  method BuildPost(header: string, games: seq<RankedGame>) returns (post: string, count: nat)
    ensures count == Min(|games|, LIMIT)
    ensures post == header + Lines(games[..count]) + "#nba"
  {
    post := header;
    count := 0;
    var ind := 0;
    while ind < |games|
      invariant ind == count && count <= |games| && count < LIMIT
      invariant post == header + Lines(games[..count])
    {
      var pts := games[ind].score;
      var stars := GenStars(StarCount(pts));
      var line := FormatLine(games[ind].visitor, games[ind].host, stars, pts);
      assert line == GameLine(games[ind]);
      LinesSnoc(header, games, count);
      post := post + line;
      count := count + 1;
      ind := ind + 1;
      if count == LIMIT {
        break;
      }
    }
    post := post + "#nba";
  }

  /** The whole decision: no post without games, otherwise the built post. */
  method PreparePost(header: string, games: seq<RankedGame>) returns (outcome: Outcome)
    ensures outcome.NoGames? <==> |games| == 0
    ensures outcome.Publish? ==>
      && 1 <= outcome.games <= LIMIT
      && outcome.games == Min(|games|, LIMIT)
      && outcome.text == header + Lines(games[..outcome.games]) + "#nba"
  {
    var post, count := BuildPost(header, games);
    if count == 0 {
      return NoGames;
    }
    outcome := Publish(post, count);
  }
}
