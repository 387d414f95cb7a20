/**
 * The static catalog: the five team rosters, the level configurations and
 * the achievement codes.
 */
module Levels {
  import opened ParityEngine

  datatype Level = Level(
    name: string,
    teams: seq<Team>,
    targetFairness: real,
    description: string,
    allowDistributionChoice: bool,
    defaultDistribution: Distribution,
    luxuryTaxEnabled: bool,
    claimCode: string)

  const LevelCount: nat := 5

  const Level1Teams: seq<Team> := [
    Team("LA Lakers", "Los Angeles", Big, 400.0, 15.0, "🏀"),
    Team("Memphis Grizzlies", "Memphis", Small, 220.0, 5.0, "🐻"),
    Team("Phoenix Suns", "Phoenix", Mid, 310.0, 10.0, "☀️")
  ]

  const Level2Teams: seq<Team> := [
    Team("NY Knicks", "New York", Big, 450.0, 18.0, "🗽"),
    Team("Miami Heat", "Miami", Mid, 340.0, 11.0, "🔥"),
    Team("Sacramento Kings", "Sacramento", Small, 210.0, 4.0, "👑"),
    Team("Milwaukee Bucks", "Milwaukee", Small, 240.0, 6.0, "🦌")
  ]

  const Level3Teams: seq<Team> := [
    Team("Golden State Warriors", "San Francisco", Big, 480.0, 20.0, "🌉"),
    Team("Chicago Bulls", "Chicago", Big, 420.0, 16.0, "🐂"),
    Team("Portland Trail Blazers", "Portland", Mid, 290.0, 9.0, "🌲"),
    Team("Oklahoma City Thunder", "OKC", Small, 200.0, 3.0, "⚡"),
    Team("New Orleans Pelicans", "New Orleans", Small, 215.0, 4.0, "🦅")
  ]

  const Level4Teams: seq<Team> := [
    Team("Boston Celtics", "Boston", Big, 440.0, 17.0, "🍀"),
    Team("Dallas Mavericks", "Dallas", Big, 410.0, 15.0, "🐴"),
    Team("Atlanta Hawks", "Atlanta", Mid, 320.0, 10.0, "🦅"),
    Team("Denver Nuggets", "Denver", Mid, 300.0, 8.0, "⛰️"),
    Team("Utah Jazz", "Salt Lake City", Small, 195.0, 3.0, "🎵"),
    Team("Indiana Pacers", "Indianapolis", Small, 225.0, 5.0, "🏁")
  ]

  const Level5Teams: seq<Team> := [
    Team("LA Clippers", "Los Angeles", Big, 430.0, 15.0, "🚢"),
    Team("Brooklyn Nets", "New York", Big, 445.0, 18.0, "🌃"),
    Team("Toronto Raptors", "Toronto", Big, 390.0, 14.0, "🦖"),
    Team("Philadelphia 76ers", "Philadelphia", Mid, 350.0, 12.0, "🔔"),
    Team("Washington Wizards", "Washington DC", Mid, 315.0, 9.0, "🪄"),
    Team("Charlotte Hornets", "Charlotte", Small, 190.0, 3.0, "🐝"),
    Team("San Antonio Spurs", "San Antonio", Small, 235.0, 6.0, "⚔️"),
    Team("Minnesota Timberwolves", "Minneapolis", Small, 205.0, 4.0, "🐺")
  ]

  /** LEVELS[n] for the five defined levels. */
  function LevelConfig(n: int): (level: Level)
    requires 1 <= n <= LevelCount
    ensures 3 <= |level.teams| <= 8
    ensures n == 1 <==> !level.allowDistributionChoice
  {
    match n
    case 1 => Level("Rookie League", Level1Teams, 70.0, "Learn the basics of revenue sharing",
                    false, Equal, false, "NBA-ROOKIE-2025")
    case 2 => Level("All-Star Challenge", Level2Teams, 75.0, "Balance big and small market teams",
                    true, Equal, false, "NBA-ALLSTAR-2025")
    case 3 => Level("Conference Finals", Level3Teams, 80.0, "Navigate luxury tax challenges",
                    true, Equal, true, "NBA-CONFERENCE-2025")
    case 4 => Level("NBA Finals", Level4Teams, 85.0, "Master complex revenue rules",
                    true, Weighted, true, "NBA-FINALS-2025")
    case _ => Level("Commissioner Legend", Level5Teams, 88.0, "Ultimate balancing challenge",
                    true, Weighted, true, "NBA-LEGEND-2025")
  }

  /** ACHIEVEMENT_CODES: level1 .. level5. */
  function AchievementCode(n: int): (code: string)
    requires 1 <= n <= LevelCount
    ensures |code| > 4 && code[..4] == "NBA-"
  {
    match n
    case 1 => "NBA-ROOKIE-2025"
    case 2 => "NBA-ALLSTAR-2025"
    case 3 => "NBA-CONFERENCE-2025"
    case 4 => "NBA-FINALS-2025"
    case _ => "NBA-LEGEND-2025"
  }

  const Bonus3LevelsCode: string := "NBA-RISING-STAR-2025"
  const Bonus5LevelsCode: string := "NBA-COMMISSIONER-MASTER-2025"

  /** Every code in the table is different: no two levels share one, and neither bonus repeats a level's code. */
  lemma AchievementCodesDistinct(i: int, j: int)
    requires 1 <= i <= LevelCount && 1 <= j <= LevelCount
    ensures AchievementCode(i) == AchievementCode(j) <==> i == j
    ensures AchievementCode(i) != Bonus3LevelsCode && AchievementCode(i) != Bonus5LevelsCode
    ensures Bonus3LevelsCode != Bonus5LevelsCode
  {
  }

  /** The target fairness tightens strictly from one level to the next. */
  lemma TargetFairnessIncreases(i: int, j: int)
    requires 1 <= i < j <= LevelCount
    ensures LevelConfig(i).targetFairness < LevelConfig(j).targetFairness
  {
  }

  /** Each roster is strictly larger than the one before it. */
  lemma RostersGrow(i: int, j: int)
    requires 1 <= i < j <= LevelCount
    ensures |LevelConfig(i).teams| < |LevelConfig(j).teams|
  {
  }

  /** The luxury tax control is offered from level 3 on. */
  lemma LuxuryTaxFromLevelThree(n: int)
    requires 1 <= n <= LevelCount
    ensures LevelConfig(n).luxuryTaxEnabled <==> n >= 3
  {
  }

  /** The code a level's completion reveals is the achievement code listed for it. */
  lemma ClaimCodesMatchAchievements(n: int)
    requires 1 <= n <= LevelCount
    ensures LevelConfig(n).claimCode == AchievementCode(n)
  {
  }

  predicate SizesPositive(teams: seq<Team>)
  {
    forall k :: 0 <= k < |teams| ==> teams[k].marketSize > 0.0
  }

  lemma RostersSizesPositive()
    ensures SizesPositive(Level1Teams) && SizesPositive(Level2Teams) && SizesPositive(Level3Teams)
    ensures SizesPositive(Level4Teams) && SizesPositive(Level5Teams)
  {
    forall k | 0 <= k < |Level1Teams|
      ensures Level1Teams[k].marketSize > 0.0
    {
    }
    forall k | 0 <= k < |Level2Teams|
      ensures Level2Teams[k].marketSize > 0.0
    {
    }
    forall k | 0 <= k < |Level3Teams|
      ensures Level3Teams[k].marketSize > 0.0
    {
    }
    forall k | 0 <= k < |Level4Teams|
      ensures Level4Teams[k].marketSize > 0.0
    {
    }
    forall k | 0 <= k < |Level5Teams|
      ensures Level5Teams[k].marketSize > 0.0
    {
    }
  }

  /** Every roster's market sizes are positive. */
  lemma CatalogMarketSizesPositive(n: int, k: int)
    requires 1 <= n <= LevelCount
    requires 0 <= k < |LevelConfig(n).teams|
    ensures LevelConfig(n).teams[k].marketSize > 0.0
  {
    RostersSizesPositive();
    assert SizesPositive(LevelConfig(n).teams);
  }

  predicate RevenuesWhole(teams: seq<Team>)
  {
    forall k :: 0 <= k < |teams| ==> teams[k].baseRevenue == teams[k].baseRevenue.Floor as real
  }

  lemma RostersRevenuesWhole()
    ensures RevenuesWhole(Level1Teams) && RevenuesWhole(Level2Teams) && RevenuesWhole(Level3Teams)
    ensures RevenuesWhole(Level4Teams) && RevenuesWhole(Level5Teams)
  {
    forall k | 0 <= k < |Level1Teams|
      ensures Level1Teams[k].baseRevenue == Level1Teams[k].baseRevenue.Floor as real
    {
    }
    forall k | 0 <= k < |Level2Teams|
      ensures Level2Teams[k].baseRevenue == Level2Teams[k].baseRevenue.Floor as real
    {
    }
    forall k | 0 <= k < |Level3Teams|
      ensures Level3Teams[k].baseRevenue == Level3Teams[k].baseRevenue.Floor as real
    {
    }
    forall k | 0 <= k < |Level4Teams|
      ensures Level4Teams[k].baseRevenue == Level4Teams[k].baseRevenue.Floor as real
    {
    }
    forall k | 0 <= k < |Level5Teams|
      ensures Level5Teams[k].baseRevenue == Level5Teams[k].baseRevenue.Floor as real
    {
    }
  }

  /** Every base revenue of the catalog is a whole number of millions. */
  lemma CatalogBaseRevenuesWhole(n: int, k: int)
    requires 1 <= n <= LevelCount
    requires 0 <= k < |LevelConfig(n).teams|
    ensures LevelConfig(n).teams[k].baseRevenue == LevelConfig(n).teams[k].baseRevenue.Floor as real
  {
    RostersRevenuesWhole();
    assert RevenuesWhole(LevelConfig(n).teams);
  }

  /** The calculator can be run on any level's roster under any policy. */
  lemma CatalogWellWeighted(n: int, distributionType: Distribution)
    requires 1 <= n <= LevelCount
    ensures TotalInverseWeight(LevelConfig(n).teams) >= |LevelConfig(n).teams| as real
    ensures WellWeighted(LevelConfig(n).teams, distributionType)
  {
    var teams := LevelConfig(n).teams;
    forall k | 0 <= k < |teams|
      ensures teams[k].marketSize >= 0.0
    {
      CatalogMarketSizesPositive(n, k);
    }
    NonNegativeSizesWellWeighted(teams);
  }

  /** On any level, no sharing and no tax leave every team at its base revenue. */
  lemma CatalogZeroSharingIdentity(n: int, distributionType: Distribution, k: nat)
    requires 1 <= n <= LevelCount
    requires k < |LevelConfig(n).teams|
    ensures WellWeighted(LevelConfig(n).teams, distributionType)
    ensures var r := SharingOutcome(LevelConfig(n).teams, 0.0, distributionType, 0.0)[k];
            r.finalRevenue == r.team.baseRevenue && r.change == 0.0
  {
    var teams := LevelConfig(n).teams;
    CatalogWellWeighted(n, distributionType);
    CatalogBaseRevenuesWhole(n, k);
    var whole := teams[k].baseRevenue.Floor;
    assert teams[k].baseRevenue == (10 * whole) as real / 10.0;
    ZeroSharingIdentity(teams, distributionType, k, 10 * whole);
  }

  /** Level 1 at 20% sharing: the pool is 186 and, split equally, every team receives 62. */
  lemma RookieLeaguePool()
    ensures SharedPool(Level1Teams, 20.0) == 186.0
  {
    var c := Contributions(Level1Teams, 20.0);
    assert c == [80.0, 44.0, 62.0];
    assert c[..2] == [80.0, 44.0];
    assert c[..2][..1] == [80.0];
    assert Sum(c[..2][..1]) == 80.0;
    assert Sum(c[..2]) == 124.0;
  }

  /** Level 1 at 20% sharing, equal split, no tax: the finals are 382, 238 and 310. */
  lemma RookieLeagueFinals()
    ensures FinalRevenues(SharingOutcome(Level1Teams, 20.0, Equal, 0.0)) == [382.0, 238.0, 310.0]
  {
    var r := SharingOutcome(Level1Teams, 20.0, Equal, 0.0);
    RookieLeaguePool();
    Round1OfTenths(3820);
    Round1OfTenths(2380);
    Round1OfTenths(3100);
    assert r[0].finalRevenue == 382.0;
    assert r[1].finalRevenue == 238.0;
    assert r[2].finalRevenue == 310.0;
  }

  /** The extremes of level 1's finals at 20% sharing. */
  lemma RookieLeagueExtremes()
    ensures MinOf([382.0, 238.0, 310.0]) == 238.0 && MaxOf([382.0, 238.0, 310.0]) == 382.0
  {
    var revenues := [382.0, 238.0, 310.0];
    assert revenues[..2] == [382.0, 238.0];
    assert revenues[..2][..1] == [382.0];
  }

  /** 238/382 as a percentage lies between 62.30 and 62.31. */
  lemma RookieLeagueRatio()
    ensures 62.3 < 100.0 * (238.0 / 382.0) < 62.31
  {
  }

  /** The only whole number of tenths within 0.05 of a value in (62.3, 62.31) is 62.3. */
  lemma RookieLeagueScoreIsPinned(score: real)
    requires 62.25 < score <= 62.36
    requires (10.0 * score).Floor as real == 10.0 * score
    ensures score == 62.3
  {
    var k := (10.0 * score).Floor;
    assert 622.5 < k as real <= 623.6;
    assert k == 623;
  }

  /** A result list whose lowest final is 238 and highest 382 scores 62.3. */
  lemma ScoreOfRookieExtremes(results: seq<TeamResult>)
    requires |results| > 0
    requires MinOf(FinalRevenues(results)) == 238.0 && MaxOf(FinalRevenues(results)) == 382.0
    ensures CalculateFairnessScore(results) == 62.3
  {
    var score := CalculateFairnessScore(results);
    assert 100.0 * (238.0 / 382.0) - 0.05 < score <= 100.0 * (238.0 / 382.0) + 0.05;
    RookieLeagueRatio();
    RookieLeagueScoreIsPinned(score);
  }

  /** ... and the fairness score of that outcome is 62.3. */
  lemma RookieLeagueAtTwentyPercent()
    ensures CalculateFairnessScore(SharingOutcome(Level1Teams, 20.0, Equal, 0.0)) == 62.3
  {
    var r := SharingOutcome(Level1Teams, 20.0, Equal, 0.0);
    RookieLeagueFinals();
    RookieLeagueExtremes();
    assert FinalRevenues(r) == [382.0, 238.0, 310.0];
    ScoreOfRookieExtremes(r);
  }
}
