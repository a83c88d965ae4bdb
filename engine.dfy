/**
 * DecisionEngine: maps a risk score to a decision through two fixed
 * thresholds, tested in order, the first match winning.
 */
module DecisionEngine {

  datatype Decision = Accept | Reject | AdditionalInformationNeeded

  /**
   * Why a decision was taken. Check failures carry their message; score
   * decisions carry the score the reason text is formatted from.
   */
  datatype Reason =
    | Message(text: string)
    | LowRiskScore(score: real)
    | HighRiskScore(score: real)
    | ModerateRiskScore(score: real)

  const ACCEPT_THRESHOLD: real := 0.3
  const REJECT_THRESHOLD: real := 0.7

  /** The decision's literal tag as it appears in a result. */
  function Label(d: Decision): string {
    match d
    case Accept => "Accept"
    case Reject => "Reject"
    case AdditionalInformationNeeded => "Additional Information Needed"
  }

  /** The three tags are distinct, so a tag identifies its decision. */
  lemma LabelInjective(d1: Decision, d2: Decision)
    requires Label(d1) == Label(d2)
    ensures d1 == d2
  {
  }

  /** Strictness of a decision: Accept < Additional Information Needed < Reject. */
  function Severity(d: Decision): nat {
    match d
    case Accept => 0
    case AdditionalInformationNeeded => 1
    case Reject => 2
  }

  /**
   * decide: Accept exactly when score <= 0.3; Reject exactly when the score
   * exceeds 0.3 and is at least 0.7; Additional Information Needed exactly
   * strictly between the two. The reason names the band and carries the score.
   */
  function Decide(score: real): (r: (Decision, Reason))
    ensures r.0 == Accept <==> score <= 0.3
    ensures r.0 == Reject <==> 0.3 < score && 0.7 <= score
    ensures r.0 == AdditionalInformationNeeded <==> 0.3 < score < 0.7
    ensures !r.1.Message? && r.1.score == score
    ensures r.1.LowRiskScore? <==> r.0 == Accept
    ensures r.1.HighRiskScore? <==> r.0 == Reject
    ensures r.1.ModerateRiskScore? <==> r.0 == AdditionalInformationNeeded
  {
    if score <= ACCEPT_THRESHOLD then (Accept, LowRiskScore(score))
    else if score >= REJECT_THRESHOLD then (Reject, HighRiskScore(score))
    else (AdditionalInformationNeeded, ModerateRiskScore(score))
  }

  /** A higher score never yields a more lenient decision. */
  lemma DecideMonotone(s1: real, s2: real)
    requires s1 <= s2
    ensures Severity(Decide(s1).0) <= Severity(Decide(s2).0)
  {
  }

  /** The decisions on the three scores the scorer can produce. */
  lemma DecideOnReachableScores()
    ensures Decide(0.1) == (Accept, LowRiskScore(0.1))
    ensures Decide(0.5) == (AdditionalInformationNeeded, ModerateRiskScore(0.5))
    ensures Decide(0.9) == (Reject, HighRiskScore(0.9))
  {
  }

  /** Scores exactly on a threshold resolve toward Accept and Reject respectively. */
  lemma DecideAtThresholds()
    ensures Decide(ACCEPT_THRESHOLD).0 == Accept
    ensures Decide(REJECT_THRESHOLD).0 == Reject
  {
  }
}
