/**
 * The risk questionnaire: seven questions, each answered with a score of
 * 1 to 5, and the profile computed from the answers once the last one is
 * given. The percentage score is exact real arithmetic.
 */
module RiskAssessment {
  import opened Wrappers

  /** The number of questions. */
  const QuestionCount := 7

  /** The scores the options of every question carry. */
  const OptionScores: seq<int> := [1, 2, 3, 4, 5]

  /** `questions.length * 5`. */
  const MaxPossibleScore := QuestionCount * 5

  datatype RiskTier = LowRisk | MediumRisk | HighRisk {
    /** The level's display name. */
    function Label(): string {
      match this
      case LowRisk => "Low Risk"
      case MediumRisk => "Medium Risk"
      case HighRisk => "High Risk"
    }

    /** The tier's place in the order low < medium < high. */
    function Rank(): int {
      match this
      case LowRisk => 0
      case MediumRisk => 1
      case HighRisk => 2
    }
  }

  /** One slice of the recommended allocation (its chart colour is presentation only). */
  datatype Slice = Slice(name: string, percentage: int)

  /** One bar of the risk-factor chart. */
  datatype Factor = Factor(factor: string, score: int, maxScore: int)

  /** The computed profile (the tier's description and recommendation texts are not modelled). */
  datatype Profile = Profile(
    riskScore: int, riskLevel: RiskTier, portfolioAllocation: seq<Slice>, riskMetrics: seq<Factor>)

  /** Every answer is one of the option scores. */
  predicate ValidAnswers(scores: seq<int>) {
    forall i :: 0 <= i < |scores| ==> 1 <= scores[i] <= 5
  }

  /**
   * `scores.reduce((sum, score) => sum + score, 0)`; n answers of 1..5
   * add up to between n and 5n.
   */
  function Sum(scores: seq<int>): (r: int)
    ensures ValidAnswers(scores) ==> |scores| <= r <= 5 * |scores|
  {
    if scores == [] then 0
    else
      var init := scores[..|scores| - 1];
      assert ValidAnswers(scores) ==> ValidAnswers(init) by {
        assert forall i :: 0 <= i < |init| ==> init[i] == scores[i];
      }
      Sum(init) + scores[|scores| - 1]
  }

  /** `(totalScore / maxPossibleScore) * 100`: the total as a share of the maximum, in percent. */
  function ScorePercentage(total: int): (p: real)
    ensures p * MaxPossibleScore as real == total as real * 100.0
    ensures 0 <= total <= MaxPossibleScore ==> 0.0 <= p <= 100.0
  {
    (total as real / MaxPossibleScore as real) * 100.0
  }

  /** The thresholds: below 40 percent is low, below 70 medium, the rest high. */
  function Classify(pct: real): (t: RiskTier)
    ensures t == LowRisk <==> pct < 40.0
    ensures t == HighRisk <==> pct >= 70.0
    ensures t == MediumRisk <==> 40.0 <= pct < 70.0
  {
    if pct < 40.0 then LowRisk else if pct < 70.0 then MediumRisk else HighRisk
  }

  /** The tier of a total score: up to 13 low, 14 to 24 medium, 25 and more high. */
  lemma TierByTotal(total: int)
    ensures Classify(ScorePercentage(total)) ==
      if total <= 13 then LowRisk else if total <= 24 then MediumRisk else HighRisk
  {
    var pct := ScorePercentage(total);
    assert pct == total as real * 20.0 / 7.0;
    assert pct < 40.0 <==> (total as real) < 14.0;
    assert pct < 70.0 <==> (total as real) < 24.5;
  }

  /** A higher total never gives a lower tier. */
  lemma TierMonotone(t1: int, t2: int)
    requires t1 <= t2
    ensures Classify(ScorePercentage(t1)).Rank() <= Classify(ScorePercentage(t2)).Rank()
  {
    TierByTotal(t1);
    TierByTotal(t2);
  }

  /** `Math.round`: the nearest integer, halves rounded up. */
  function RoundHalfUp(x: real): (r: int)
    ensures r as real - 0.5 <= x < r as real + 0.5
  {
    (x + 0.5).Floor
  }

  /** Rounding never reverses the order of two numbers. */
  lemma RoundMonotone(x: real, y: real)
    requires x <= y
    ensures RoundHalfUp(x) <= RoundHalfUp(y)
  {
  }

  /**
   * The recommended allocation of each tier: stablecoins first, then one
   * more slice per step up in risk, every slice a positive share.
   */
  function TierAllocation(tier: RiskTier): (r: seq<Slice>)
    ensures |r| == tier.Rank() + 3
    ensures r[0].name == "Stablecoins (USDT, USDC)"
    ensures forall i :: 0 <= i < |r| ==> r[i].percentage > 0
  {
    match tier
    case LowRisk => [
      Slice("Stablecoins (USDT, USDC)", 70), Slice("Bitcoin (BTC)", 20), Slice("Ethereum (ETH)", 10)]
    case MediumRisk => [
      Slice("Stablecoins (USDT, USDC)", 40), Slice("Bitcoin (BTC)", 25), Slice("Ethereum (ETH)", 20),
      Slice("Large Cap Altcoins", 15)]
    case HighRisk => [
      Slice("Stablecoins (USDT, USDC)", 10), Slice("Bitcoin (BTC)", 20), Slice("Ethereum (ETH)", 25),
      Slice("Large Cap Altcoins", 30), Slice("Small Cap Altcoins", 15)]
  }

  function SliceTotal(slices: seq<Slice>): int {
    if slices == [] then 0 else slices[0].percentage + SliceTotal(slices[1..])
  }

  /** Every tier's allocation adds up to 100 percent, riskier tiers holding fewer stablecoins. */
  lemma AllocationSums(tier: RiskTier)
    ensures SliceTotal(TierAllocation(tier)) == 100
    ensures tier.Rank() < 2 ==> TierAllocation(tier)[0].percentage > TierAllocation(HighRisk)[0].percentage
  {
    var s := TierAllocation(tier);
    var n := |s|;
    assert SliceTotal(s[n - 1..]) == s[n - 1].percentage by {
      assert s[n - 1..][1..] == [];
    }
    SliceTotalSuffix(s, n - 2);
    SliceTotalSuffix(s, n - 3);
    if n >= 4 {
      SliceTotalSuffix(s, n - 4);
    }
    if n >= 5 {
      SliceTotalSuffix(s, n - 5);
    }
  }

  /** Peeling one slice off the front of a suffix. */
  lemma SliceTotalSuffix(s: seq<Slice>, k: int)
    requires 0 <= k < |s|
    ensures SliceTotal(s[k..]) == s[k].percentage + SliceTotal(s[k + 1..])
  {
    assert s[k..][1..] == s[k + 1..];
  }

  /** The factors of the chart, drawn from answers 2 to 7; the first answer has no bar. */
  function RiskMetrics(scores: seq<int>): (m: seq<Factor>)
    requires |scores| >= QuestionCount
    ensures |m| == 6
    ensures forall i :: 0 <= i < 6 ==> m[i].score == scores[i + 1] && m[i].maxScore == 5
  {
    [Factor("Investment Horizon", scores[1], 5),
     Factor("Market Volatility Tolerance", scores[2], 5),
     Factor("Crypto Allocation", scores[3], 5),
     Factor("Experience Level", scores[4], 5),
     Factor("Volatility Attitude", scores[5], 5),
     Factor("Liquidity Needs", scores[6], 5)]
  }

  /**
   * The profile `calculateRiskProfile` builds from the answers: the rounded
   * percentage, its tier and that tier's allocation, and the six factors.
   */
  function ProfileOf(scores: seq<int>): (p: Profile)
    requires |scores| >= QuestionCount
    ensures p.portfolioAllocation == TierAllocation(p.riskLevel)
    ensures SliceTotal(p.portfolioAllocation) == 100
    ensures var pct := ScorePercentage(Sum(scores));
      p.riskScore as real - 0.5 <= pct < p.riskScore as real + 0.5 && p.riskLevel == Classify(pct)
    ensures |p.riskMetrics| == 6
  {
    var pct := ScorePercentage(Sum(scores));
    var tier := Classify(pct);
    AllocationSums(tier);
    Profile(RoundHalfUp(pct), tier, TierAllocation(tier), RiskMetrics(scores))
  }

  /** Seven valid answers give a score of 20 to 100 and the tier of their total. */
  lemma ProfileBounds(scores: seq<int>)
    requires |scores| == QuestionCount && ValidAnswers(scores)
    ensures 7 <= Sum(scores) <= 35
    ensures 20 <= ProfileOf(scores).riskScore <= 100
    ensures ProfileOf(scores).riskLevel ==
      if Sum(scores) <= 13 then LowRisk else if Sum(scores) <= 24 then MediumRisk else HighRisk
  {
    var total := Sum(scores);
    TierByTotal(total);
    assert ScorePercentage(7) == 20.0;
    assert ScorePercentage(35) == 100.0;
    assert ScorePercentage(7) <= ScorePercentage(total) <= ScorePercentage(35);
    RoundMonotone(ScorePercentage(7), ScorePercentage(total));
    RoundMonotone(ScorePercentage(total), ScorePercentage(35));
  }

  /** `calculateRiskProfile`: the total, then the tier and its allocation through an if-chain, then the factors. */
  method CalculateRiskProfile(scores: seq<int>) returns (profile: Profile)
    requires |scores| >= QuestionCount
    ensures profile == ProfileOf(scores)
  {
    var totalScore := Sum(scores);
    var scorePercentage := (totalScore as real / MaxPossibleScore as real) * 100.0;
    var riskLevel := LowRisk;
    var portfolioAllocation: seq<Slice> := [];
    if scorePercentage < 40.0 {
      riskLevel := LowRisk;
      portfolioAllocation := TierAllocation(LowRisk);
    } else if scorePercentage < 70.0 {
      riskLevel := MediumRisk;
      portfolioAllocation := TierAllocation(MediumRisk);
    } else {
      riskLevel := HighRisk;
      portfolioAllocation := TierAllocation(HighRisk);
    }
    var riskMetrics := RiskMetrics(scores);
    profile := Profile(RoundHalfUp(scorePercentage), riskLevel, portfolioAllocation, riskMetrics);
  }

  /** The questionnaire's state: the question shown, the answers so far and the profile once computed. */
  class Questionnaire {
    var currentStep: int
    var answers: seq<int>
    var riskProfile: Option<Profile>

    /**
     * On question k there are exactly k answers and no profile; on the
     * results page there are seven answers and their profile.
     */
    predicate Valid()
      reads this
    {
      && 0 <= currentStep <= QuestionCount
      && ValidAnswers(answers)
      && (currentStep < QuestionCount ==> |answers| == currentStep && riskProfile == None)
      && (currentStep == QuestionCount ==> |answers| == QuestionCount && riskProfile == Some(ProfileOf(answers)))
    }

    constructor ()
      ensures Valid() && currentStep == 0 && answers == [] && riskProfile == None
    {
      currentStep := 0;
      answers := [];
      riskProfile := None;
    }

    /**
     * `handleAnswerSelect` (options are shown only while a question is):
     * the score is appended; before the last question the step advances,
     * after the last one the profile is computed and the results shown.
     */
    method AnswerSelect(optionScore: int)
      requires Valid() && currentStep < QuestionCount && optionScore in OptionScores
      modifies this
      ensures Valid()
      ensures answers == old(answers) + [optionScore]
      ensures old(currentStep) < QuestionCount - 1 ==> currentStep == old(currentStep) + 1 && riskProfile == None
      ensures old(currentStep) == QuestionCount - 1 ==>
        currentStep == QuestionCount && riskProfile == Some(ProfileOf(answers))
    {
      var newAnswers := answers + [optionScore];
      answers := newAnswers;
      if currentStep < QuestionCount - 1 {
        currentStep := currentStep + 1;
      } else {
        var profile := CalculateRiskProfile(newAnswers);
        riskProfile := Some(profile);
        currentStep := QuestionCount;
      }
    }

    /** `resetAssessment`. */
    method Reset()
      modifies this
      ensures Valid() && currentStep == 0 && answers == [] && riskProfile == None
    {
      currentStep := 0;
      answers := [];
      riskProfile := None;
    }

    /** On the results page the shown score lies in 20..100. */
    lemma ResultScoreBounds()
      requires Valid() && currentStep == QuestionCount
      ensures riskProfile.Some? && 20 <= riskProfile.value.riskScore <= 100
    {
      ProfileBounds(answers);
    }
  }

  /** Answering all seven questions from the start reaches the results with the profile of those answers. */
  method AnswerAll(q: Questionnaire, scores: seq<int>)
    requires q.Valid() && q.currentStep == 0
    requires |scores| == QuestionCount && forall i :: 0 <= i < |scores| ==> scores[i] in OptionScores
    modifies q
    ensures q.Valid() && q.currentStep == QuestionCount && q.answers == scores
    ensures q.riskProfile == Some(ProfileOf(scores))
  {
    var k := 0;
    while k < QuestionCount
      invariant 0 <= k <= QuestionCount
      invariant q.Valid() && q.currentStep == k && q.answers == scores[..k]
    {
      q.AnswerSelect(scores[k]);
      assert scores[..k + 1] == scores[..k] + [scores[k]];
      k := k + 1;
    }
    assert scores[..QuestionCount] == scores;
  }
}
