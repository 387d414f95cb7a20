/**
 * The game session: which level is being played, the control values the
 * player has set, the "show victory once" latch, the tutorial position and
 * the record of completed levels. Page rendering is not modelled; the
 * victory conditions of the current results are an input (`allMet`), since
 * the function that computes them is not part of this model.
 */
module GameSession {
  import opened ParityEngine
  import opened Levels

  datatype Option<T> = None | Some(value: T)

  /** The number of tutorial messages; their text is not modelled. */
  const TutorialStepCount: nat := 6

  /** The luxury tax slider's starting value, in millions. */
  const DefaultLuxuryTaxThreshold: int := 150

  // ---------------------------------------------------------------------
  // The completed-levels record
  // ---------------------------------------------------------------------

  /** saveProgress's list logic: append the level unless it is already there. */
  function AddCompleted(completed: seq<int>, n: int): (r: seq<int>)
    ensures n in r
    ensures |completed| <= |r| <= |completed| + 1
    ensures r[..|completed|] == completed
    ensures forall k :: k in r ==> k in completed || k == n
    ensures n in completed ==> r == completed
  {
    if n in completed then completed else completed + [n]
  }

  /** Saving the same level a second time changes nothing. */
  lemma AddCompletedIdempotent(completed: seq<int>, n: int)
    ensures AddCompleted(AddCompleted(completed, n), n) == AddCompleted(completed, n)
  {
  }

  predicate NoDuplicates(s: seq<int>)
  {
    forall i, j :: 0 <= i < j < |s| ==> s[i] != s[j]
  }

  lemma AddCompletedKeepsDistinct(completed: seq<int>, n: int)
    requires NoDuplicates(completed)
    ensures NoDuplicates(AddCompleted(completed, n))
  {
  }

  /** Level i can be entered: it is the first level or the one before it is completed. */
  predicate IsUnlocked(completed: seq<int>, i: int)
  {
    i == 1 || i - 1 in completed
  }

  /** Every recorded level is a real level that was unlocked. */
  predicate ProgressClosed(completed: seq<int>)
  {
    forall k :: k in completed ==> 1 <= k <= LevelCount && IsUnlocked(completed, k)
  }

  lemma AddUnlockedKeepsClosed(completed: seq<int>, n: int)
    requires ProgressClosed(completed)
    requires 1 <= n <= LevelCount && IsUnlocked(completed, n)
    ensures ProgressClosed(AddCompleted(completed, n))
  {
  }

  /** A closed record that holds level k holds every level before it. */
  lemma {:induction false} ClosedHasEarlierLevels(completed: seq<int>, k: int, j: int)
    requires ProgressClosed(completed)
    requires k in completed
    requires 1 <= j <= k
    ensures j in completed
    decreases k - j
  {
    if j < k {
      assert k - 1 in completed;
      ClosedHasEarlierLevels(completed, k - 1, j);
    }
  }

  /**
   * On a closed record, a level is unlocked exactly when it is the first
   * level or every level before it is completed.
   */
  lemma IsUnlockedMeansEarlierCompleted(completed: seq<int>, i: int)
    requires ProgressClosed(completed)
    requires 1 <= i <= LevelCount
    ensures IsUnlocked(completed, i) <==> forall j :: 1 <= j < i ==> j in completed
  {
    if i > 1 && i - 1 in completed {
      forall j | 1 <= j < i
        ensures j in completed
      {
        ClosedHasEarlierLevels(completed, i - 1, j);
      }
    }
  }

  function Elements(s: seq<int>): set<int>
  {
    set x | x in s
  }

  lemma {:induction false} DistinctElementCount(s: seq<int>)
    requires NoDuplicates(s)
    ensures |Elements(s)| == |s|
  {
    if |s| > 0 {
      var init := s[..|s| - 1];
      assert NoDuplicates(init);
      DistinctElementCount(init);
      assert s == init + [s[|s| - 1]];
      assert s[|s| - 1] !in init;
      assert Elements(s) == Elements(init) + {s[|s| - 1]};
    }
  }

  /** The levels lo to hi, as a set. */
  function LevelRange(lo: int, hi: int): (r: set<int>)
    ensures forall x :: x in r <==> lo <= x <= hi
    ensures lo <= hi + 1 ==> |r| == hi - lo + 1
    decreases hi - lo
  {
    if lo > hi then {} else LevelRange(lo, hi - 1) + {hi}
  }

  lemma SubsetCount(a: set<int>, b: set<int>)
    requires a <= b
    ensures |a| <= |b|
  {
    assert b == a + (b - a);
  }

  /**
   * On a closed record without duplicates, holding at least m entries is the
   * same as having completed level m, and so every level up to m.
   */
  lemma CountMeansReached(completed: seq<int>, m: int)
    requires ProgressClosed(completed) && NoDuplicates(completed)
    requires 1 <= m <= LevelCount
    ensures |completed| >= m <==> m in completed
    ensures m in completed <==> forall j :: 1 <= j <= m ==> j in completed
  {
    DistinctElementCount(completed);
    if m in completed {
      forall j | 1 <= j <= m
        ensures j in completed
      {
        ClosedHasEarlierLevels(completed, m, j);
      }
      assert LevelRange(1, m) <= Elements(completed);
      SubsetCount(LevelRange(1, m), Elements(completed));
    } else {
      forall x | x in completed
        ensures x <= m - 1
      {
        if x >= m {
          ClosedHasEarlierLevels(completed, x, m);
        }
      }
      assert Elements(completed) <= LevelRange(1, m - 1);
      SubsetCount(Elements(completed), LevelRange(1, m - 1));
    }
  }

  // ---------------------------------------------------------------------
  // Overall status
  // ---------------------------------------------------------------------

  /** The flags of a victory-conditions record, as the status display reads them. */
  datatype Conditions = Conditions(parityMet: bool, bigSatisfactionMet: bool, smallViabilityMet: bool, allMet: bool)

  function MetCount(c: Conditions): (n: nat)
    ensures n <= 3
    ensures n == 3 <==> c.parityMet && c.bigSatisfactionMet && c.smallViabilityMet
    ensures n == 0 <==> !c.parityMet && !c.bigSatisfactionMet && !c.smallViabilityMet
  {
    (if c.parityMet then 1 else 0) + (if c.bigSatisfactionMet then 1 else 0) + (if c.smallViabilityMet then 1 else 0)
  }

  datatype OverallStatus = Victory | Almost | Partial | Searching

  /** updateOverallStatus: victory first, then by the number of met conditions. */
  function UpdateOverallStatus(c: Conditions): (s: OverallStatus)
    ensures s == Victory <==> c.allMet
    ensures s == Almost <==> !c.allMet && MetCount(c) == 2
    ensures s == Partial <==> !c.allMet && MetCount(c) == 1
    ensures s == Searching <==> !c.allMet && MetCount(c) != 1 && MetCount(c) != 2
  {
    var metCount := MetCount(c);
    if c.allMet then Victory
    else if metCount == 2 then Almost
    else if metCount == 1 then Partial
    else Searching
  }

  /** When allMet is the conjunction of the three flags, the status is a function of the met count alone. */
  lemma StatusFollowsMetCount(c: Conditions)
    requires c.allMet == (c.parityMet && c.bigSatisfactionMet && c.smallViabilityMet)
    ensures UpdateOverallStatus(c) == Victory <==> MetCount(c) == 3
    ensures UpdateOverallStatus(c) == Almost <==> MetCount(c) == 2
    ensures UpdateOverallStatus(c) == Partial <==> MetCount(c) == 1
    ensures UpdateOverallStatus(c) == Searching <==> MetCount(c) == 0
  {
  }

  // ---------------------------------------------------------------------
  // The threshold handed to the calculator
  // ---------------------------------------------------------------------

  /**
   * updateCalculations passes the slider value when the level has a luxury
   * tax and 0 otherwise; a threshold of 0 switches the tax off for every team.
   */
  function CalculatorThreshold(level: Level, slider: int): (t: real)
    ensures !level.luxuryTaxEnabled ==> forall revenue: real :: LuxuryTax(revenue, t) == 0.0
    ensures level.luxuryTaxEnabled ==> t == slider as real
  {
    if level.luxuryTaxEnabled then slider as real else 0.0
  }

  /**
   * On a level without a luxury tax the slider has no effect: the outcome is
   * the same for any two slider values, and no team is taxed.
   */
  lemma TaxFreeLevelIgnoresSlider(n: int, sharingPercent: real, distributionType: Distribution, slider1: int, slider2: int, k: nat)
    requires 1 <= n <= LevelCount && !LevelConfig(n).luxuryTaxEnabled
    requires k < |LevelConfig(n).teams|
    ensures WellWeighted(LevelConfig(n).teams, distributionType)
    ensures SharingOutcome(LevelConfig(n).teams, sharingPercent, distributionType, CalculatorThreshold(LevelConfig(n), slider1))
         == SharingOutcome(LevelConfig(n).teams, sharingPercent, distributionType, CalculatorThreshold(LevelConfig(n), slider2))
    ensures var r := SharingOutcome(LevelConfig(n).teams, sharingPercent, distributionType, CalculatorThreshold(LevelConfig(n), slider1))[k];
            r.luxuryTax == 0.0 && r.finalRevenue == Round1(r.afterSharing + r.redistribution)
  {
    CatalogWellWeighted(n, distributionType);
  }

  // ---------------------------------------------------------------------
  // The session
  // ---------------------------------------------------------------------

  class Game {
    var currentLevel: int
    var currentConfig: Option<Level>
    var currentResults: seq<TeamResult>
    var sharingPercent: int
    var distributionType: Distribution
    var luxuryTaxThreshold: int
    var tutorialStep: int
    var hasShownVictory: bool
    var tutorialVisible: bool
    var completedLevels: seq<int>

    ghost predicate Valid()
      reads this`currentLevel, this`currentConfig, this`completedLevels
    {
      && 1 <= currentLevel <= LevelCount
      && (currentConfig.Some? ==>
            currentConfig.value == LevelConfig(currentLevel) && IsUnlocked(completedLevels, currentLevel))
      && ProgressClosed(completedLevels)
      && NoDuplicates(completedLevels)
    }

    /** The state at page load, with nothing completed yet. */
    constructor ()
      ensures Valid()
      ensures currentLevel == 1 && currentConfig == None && currentResults == []
      ensures sharingPercent == 0 && distributionType == Equal && luxuryTaxThreshold == DefaultLuxuryTaxThreshold
      ensures tutorialStep == 0 && !hasShownVictory && !tutorialVisible && completedLevels == []
    {
      currentLevel := 1;
      currentConfig := None;
      currentResults := [];
      sharingPercent := 0;
      distributionType := Equal;
      luxuryTaxThreshold := DefaultLuxuryTaxThreshold;
      tutorialStep := 0;
      hasShownVictory := false;
      tutorialVisible := false;
      completedLevels := [];
    }

    /** saveProgress: record a completed level once. */
    method SaveProgress(levelNumber: int)
      modifies this`completedLevels
      ensures completedLevels == AddCompleted(old(completedLevels), levelNumber)
    {
      if levelNumber !in completedLevels {
        completedLevels := completedLevels + [levelNumber];
      }
    }

    /**
     * updateCalculations: recompute the results for the current controls and
     * latch the victory; `victoryScheduled` says whether the success screen is
     * scheduled by this call.
     */
    method UpdateCalculations(allMet: bool) returns (victoryScheduled: bool)
      requires Valid() && currentConfig.Some?
      modifies this`currentResults, this`hasShownVictory
      ensures Valid()
      ensures WellWeighted(currentConfig.value.teams, distributionType)
      ensures currentResults == SharingOutcome(currentConfig.value.teams, sharingPercent as real, distributionType, CalculatorThreshold(currentConfig.value, luxuryTaxThreshold))
      ensures !currentConfig.value.luxuryTaxEnabled ==>
        forall k :: 0 <= k < |currentResults| ==> currentResults[k].luxuryTax == 0.0
      ensures victoryScheduled == (allMet && !old(hasShownVictory))
      ensures hasShownVictory == (old(hasShownVictory) || allMet)
    {
      var luxuryTax := if currentConfig.value.luxuryTaxEnabled then luxuryTaxThreshold as real else 0.0;
      CatalogWellWeighted(currentLevel, distributionType);
      currentResults := CalculateRevenueSharing(currentConfig.value.teams, sharingPercent as real, distributionType, luxuryTax);
      victoryScheduled := false;
      if allMet && !hasShownVictory {
        hasShownVictory := true;
        victoryScheduled := true;
      }
    }

    /** handleSharingChange: the sharing slider moved. */
    method HandleSharingChange(value: int, allMet: bool) returns (victoryScheduled: bool)
      requires Valid() && currentConfig.Some?
      modifies this`sharingPercent, this`currentResults, this`hasShownVictory
      ensures Valid()
      ensures sharingPercent == value
      ensures WellWeighted(currentConfig.value.teams, distributionType)
      ensures currentResults == SharingOutcome(currentConfig.value.teams, value as real, distributionType, CalculatorThreshold(currentConfig.value, luxuryTaxThreshold))
      ensures !currentConfig.value.luxuryTaxEnabled ==>
        forall k :: 0 <= k < |currentResults| ==> currentResults[k].luxuryTax == 0.0
      ensures victoryScheduled == (allMet && !old(hasShownVictory))
      ensures hasShownVictory == (old(hasShownVictory) || allMet)
    {
      sharingPercent := value;
      victoryScheduled := UpdateCalculations(allMet);
    }

    /** handleLuxuryChange: the luxury tax slider moved. */
    method HandleLuxuryChange(value: int, allMet: bool) returns (victoryScheduled: bool)
      requires Valid() && currentConfig.Some?
      modifies this`luxuryTaxThreshold, this`currentResults, this`hasShownVictory
      ensures Valid()
      ensures luxuryTaxThreshold == value
      ensures WellWeighted(currentConfig.value.teams, distributionType)
      ensures currentResults == SharingOutcome(currentConfig.value.teams, sharingPercent as real, distributionType, CalculatorThreshold(currentConfig.value, luxuryTaxThreshold))
      ensures !currentConfig.value.luxuryTaxEnabled ==>
        forall k :: 0 <= k < |currentResults| ==> currentResults[k].luxuryTax == 0.0
      ensures victoryScheduled == (allMet && !old(hasShownVictory))
      ensures hasShownVictory == (old(hasShownVictory) || allMet)
    {
      luxuryTaxThreshold := value;
      victoryScheduled := UpdateCalculations(allMet);
    }

    /** setDistribution: the player picked a distribution type. */
    method SetDistribution(distribution: Distribution, allMet: bool) returns (victoryScheduled: bool)
      requires Valid() && currentConfig.Some?
      modifies this`distributionType, this`currentResults, this`hasShownVictory
      ensures Valid()
      ensures distributionType == distribution
      ensures WellWeighted(currentConfig.value.teams, distribution)
      ensures currentResults == SharingOutcome(currentConfig.value.teams, sharingPercent as real, distribution, CalculatorThreshold(currentConfig.value, luxuryTaxThreshold))
      ensures !currentConfig.value.luxuryTaxEnabled ==>
        forall k :: 0 <= k < |currentResults| ==> currentResults[k].luxuryTax == 0.0
      ensures victoryScheduled == (allMet && !old(hasShownVictory))
      ensures hasShownVictory == (old(hasShownVictory) || allMet)
    {
      distributionType := distribution;
      victoryScheduled := UpdateCalculations(allMet);
    }

    /**
     * initializeLevel: put the level's default distribution in place and
     * calculate; with a distribution choice the calculation runs twice, and
     * the latch lets at most one of the two schedule the success screen.
     */
    method InitializeLevel(allMet: bool) returns (victoriesScheduled: nat)
      requires Valid() && currentConfig.Some?
      modifies this`distributionType, this`currentResults, this`hasShownVictory
      ensures Valid()
      ensures distributionType == currentConfig.value.defaultDistribution
      ensures WellWeighted(currentConfig.value.teams, distributionType)
      ensures currentResults == SharingOutcome(currentConfig.value.teams, sharingPercent as real, distributionType, CalculatorThreshold(currentConfig.value, luxuryTaxThreshold))
      ensures hasShownVictory == (old(hasShownVictory) || allMet)
      ensures victoriesScheduled == if allMet && !old(hasShownVictory) then 1 else 0
    {
      var first := false;
      if currentConfig.value.allowDistributionChoice {
        first := SetDistribution(currentConfig.value.defaultDistribution, allMet);
      } else {
        distributionType := currentConfig.value.defaultDistribution;
      }
      var second := UpdateCalculations(allMet);
      victoriesScheduled := (if first then 1 else 0) + (if second then 1 else 0);
    }

    /** showTutorial: back to the first message, overlay shown. */
    method ShowTutorial()
      modifies this`tutorialStep, this`tutorialVisible
      ensures tutorialStep == 0 && tutorialVisible
    {
      tutorialStep := 0;
      tutorialVisible := true;
    }

    /** nextTutorialStep: advance; the overlay closes once the step passes the last message. */
    method NextTutorialStep()
      modifies this`tutorialStep, this`tutorialVisible
      ensures tutorialStep == old(tutorialStep) + 1
      ensures tutorialVisible == (old(tutorialVisible) && tutorialStep < TutorialStepCount)
    {
      tutorialStep := tutorialStep + 1;
      if tutorialStep >= TutorialStepCount {
        tutorialVisible := false;
      }
    }

    /**
     * startLevel: refused unless the level is unlocked; otherwise switch to
     * the level, clear the latch, reset the controls, calculate, and show the
     * tutorial whenever level 1 is started before it has been completed.
     */
    method StartLevel(levelNumber: int, allMet: bool) returns (started: bool, victoriesScheduled: nat)
      requires Valid()
      requires 1 <= levelNumber <= LevelCount
      modifies this
      ensures Valid()
      ensures started == IsUnlocked(old(completedLevels), levelNumber)
      ensures completedLevels == old(completedLevels)
      ensures !started ==>
        && currentLevel == old(currentLevel) && currentConfig == old(currentConfig)
        && currentResults == old(currentResults) && sharingPercent == old(sharingPercent)
        && distributionType == old(distributionType) && luxuryTaxThreshold == old(luxuryTaxThreshold)
        && hasShownVictory == old(hasShownVictory) && tutorialStep == old(tutorialStep)
        && tutorialVisible == old(tutorialVisible) && victoriesScheduled == 0
      ensures started ==>
        && currentLevel == levelNumber && currentConfig == Some(LevelConfig(levelNumber))
        && sharingPercent == 0 && distributionType == LevelConfig(levelNumber).defaultDistribution
        && luxuryTaxThreshold == DefaultLuxuryTaxThreshold
        && WellWeighted(LevelConfig(levelNumber).teams, distributionType)
        && currentResults == SharingOutcome(LevelConfig(levelNumber).teams, 0.0, distributionType, CalculatorThreshold(currentConfig.value, luxuryTaxThreshold))
        && hasShownVictory == allMet && victoriesScheduled == (if allMet then 1 else 0)
      ensures started && levelNumber == 1 && 1 !in old(completedLevels) ==> tutorialStep == 0 && tutorialVisible
      ensures !(started && levelNumber == 1 && 1 !in old(completedLevels)) ==>
        tutorialStep == old(tutorialStep) && tutorialVisible == old(tutorialVisible)
    {
      if levelNumber > 1 && levelNumber - 1 !in completedLevels {
        return false, 0;
      }
      started := true;
      currentLevel := levelNumber;
      currentConfig := Some(LevelConfig(levelNumber));
      ResetControls(currentConfig.value.defaultDistribution);
      victoriesScheduled := InitializeLevel(allMet);
      assert sharingPercent as real == 0.0;
      if levelNumber == 1 && 1 !in completedLevels {
        ShowTutorial();
      }
    }

    /** retryLevel: clear the latch, reset the controls and calculate again. */
    method RetryLevel(allMet: bool) returns (victoriesScheduled: nat)
      requires Valid() && currentConfig.Some?
      modifies this`hasShownVictory, this`sharingPercent, this`distributionType, this`luxuryTaxThreshold, this`currentResults
      ensures Valid()
      ensures currentLevel == old(currentLevel) && currentConfig == old(currentConfig)
      ensures completedLevels == old(completedLevels)
      ensures tutorialStep == old(tutorialStep) && tutorialVisible == old(tutorialVisible)
      ensures sharingPercent == 0 && distributionType == currentConfig.value.defaultDistribution
      ensures luxuryTaxThreshold == DefaultLuxuryTaxThreshold
      ensures WellWeighted(currentConfig.value.teams, distributionType)
      ensures currentResults == SharingOutcome(currentConfig.value.teams, 0.0, distributionType, CalculatorThreshold(currentConfig.value, luxuryTaxThreshold))
      ensures hasShownVictory == allMet && victoriesScheduled == (if allMet then 1 else 0)
    {
      ResetControls(currentConfig.value.defaultDistribution);
      victoriesScheduled := InitializeLevel(allMet);
      assert sharingPercent as real == 0.0;
    }

    /** The resets startLevel and retryLevel make before initializing the level. */
    method ResetControls(defaultDistribution: Distribution)
      modifies this`hasShownVictory, this`sharingPercent, this`distributionType, this`luxuryTaxThreshold
      ensures !hasShownVictory && sharingPercent == 0 && distributionType == defaultDistribution
      ensures luxuryTaxThreshold == DefaultLuxuryTaxThreshold
    {
      hasShownVictory := false;
      sharingPercent := 0;
      distributionType := defaultDistribution;
      luxuryTaxThreshold := DefaultLuxuryTaxThreshold;
    }

    /** showSuccess: record the current level as completed and hand out its claim code. */
    method ShowSuccess() returns (claimCode: string)
      requires Valid() && currentConfig.Some?
      modifies this`completedLevels
      ensures Valid()
      ensures completedLevels == AddCompleted(old(completedLevels), currentLevel)
      ensures claimCode == AchievementCode(currentLevel)
    {
      AddCompletedKeepsDistinct(completedLevels, currentLevel);
      AddUnlockedKeepsClosed(completedLevels, currentLevel);
      SaveProgress(currentLevel);
      claimCode := currentConfig.value.claimCode;
      ClaimCodesMatchAchievements(currentLevel);
    }

    /** updateLevelCards: for levels 1 to 5, whether each is unlocked and whether it is completed. */
    method LevelCards() returns (unlocked: seq<bool>, completed: seq<bool>)
      ensures |unlocked| == LevelCount && |completed| == LevelCount
      ensures forall i :: 1 <= i <= LevelCount ==> unlocked[i - 1] == IsUnlocked(completedLevels, i)
      ensures forall i :: 1 <= i <= LevelCount ==> completed[i - 1] == (i in completedLevels)
    {
      unlocked, completed := [], [];
      for i := 1 to LevelCount + 1
        invariant |unlocked| == i - 1 && |completed| == i - 1
        invariant forall k :: 1 <= k < i ==> unlocked[k - 1] == IsUnlocked(completedLevels, k)
        invariant forall k :: 1 <= k < i ==> completed[k - 1] == (k in completedLevels)
      {
        unlocked := unlocked + [i == 1 || i - 1 in completedLevels];
        completed := completed + [i in completedLevels];
      }
    }

    /**
     * updateClaimCodes: the code of every completed level, and the two bonus
     * codes; on a valid session the bonuses mean levels 1-3 and all five levels.
     */
    method ClaimCodes() returns (levelCodes: seq<Option<string>>, bonus3: Option<string>, bonus5: Option<string>)
      ensures |levelCodes| == LevelCount
      ensures forall i :: 1 <= i <= LevelCount ==>
        levelCodes[i - 1] == if i in completedLevels then Some(AchievementCode(i)) else None
      ensures bonus3 == if |completedLevels| >= 3 then Some(Bonus3LevelsCode) else None
      ensures bonus5 == if |completedLevels| >= 5 then Some(Bonus5LevelsCode) else None
      ensures ProgressClosed(completedLevels) && NoDuplicates(completedLevels) ==>
        (bonus3.Some? <==> forall j :: 1 <= j <= 3 ==> j in completedLevels) &&
        (bonus5.Some? <==> forall j :: 1 <= j <= LevelCount ==> j in completedLevels)
    {
      levelCodes := [];
      for i := 1 to LevelCount + 1
        invariant |levelCodes| == i - 1
        invariant forall k :: 1 <= k < i ==>
          levelCodes[k - 1] == if k in completedLevels then Some(AchievementCode(k)) else None
      {
        if i in completedLevels {
          levelCodes := levelCodes + [Some(AchievementCode(i))];
        } else {
          levelCodes := levelCodes + [None];
        }
      }
      bonus3, bonus5 := None, None;
      if |completedLevels| >= 3 {
        bonus3 := Some(Bonus3LevelsCode);
      }
      if |completedLevels| >= 5 {
        bonus5 := Some(Bonus5LevelsCode);
      }
      if ProgressClosed(completedLevels) && NoDuplicates(completedLevels) {
        CountMeansReached(completedLevels, 3);
        CountMeansReached(completedLevels, 5);
      }
    }
  }
}
