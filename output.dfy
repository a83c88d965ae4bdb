/**
 * OutputGenerator: packages a decision and a reason into the result
 * mapping with keys "decision" and "reason".
 */
module OutputGenerator {
  import opened DecisionEngine

  /** A value stored in the result mapping. */
  datatype Entry = DecisionEntry(decision: Decision) | ReasonEntry(reason: Reason)

  type Output = map<string, Entry>

  const DECISION_KEY: string := "decision"
  const REASON_KEY: string := "reason"

  /** Exactly the two keys, each holding a value of its kind. */
  predicate WellFormed(r: Output) {
    && r.Keys == {DECISION_KEY, REASON_KEY}
    && r[DECISION_KEY].DecisionEntry?
    && r[REASON_KEY].ReasonEntry?
  }

  function DecisionOf(r: Output): Decision
    requires WellFormed(r)
  {
    r[DECISION_KEY].decision
  }

  function ReasonOf(r: Output): Reason
    requires WellFormed(r)
  {
    r[REASON_KEY].reason
  }

  /** generate: a result with exactly the keys "decision" and "reason", from which both inputs read back. */
  function Generate(decision: Decision, reason: Reason): (r: Output)
    ensures r.Keys == {"decision", "reason"}
    ensures WellFormed(r) && DecisionOf(r) == decision && ReasonOf(r) == reason
  {
    map[DECISION_KEY := DecisionEntry(decision), REASON_KEY := ReasonEntry(reason)]
  }

  /** Every well-formed result is the packaging of its own decision and reason. */
  lemma GenerateFromParts(r: Output)
    requires WellFormed(r)
    ensures Generate(DecisionOf(r), ReasonOf(r)) == r
  {
    var g := Generate(DecisionOf(r), ReasonOf(r));
    forall k | k in r
      ensures k in g && g[k] == r[k]
    {
    }
  }
}
