/**
 * AutomatedUnderwritingSystem: the coordinator. It validates, then applies
 * the age rule, then scores, decides and packages, stopping at the first
 * failed check. It holds no state that changes between calls; the fitted
 * classifier is passed in.
 */
module AutomatedUnderwritingSystem {
  import opened Wrappers
  import opened Applications
  import opened ApplicationProcessor
  import opened RiskEvaluator
  import opened DecisionEngine
  import opened OutputGenerator

  /** The decision the pipeline reaches for a predicted risk class. */
  function ClassDecision(c: RiskClass): Decision {
    if c == 0 then Accept else if c == 1 then AdditionalInformationNeeded else Reject
  }

  /**
   * process_application: exactly one result per application, with exactly
   * the keys "decision" and "reason"; its decision is Additional Information
   * Needed when a field is missing, Reject when the age is out of range, and
   * otherwise the one the predicted class leads to.
   */
  function ProcessApplication(app: Application, predict: Classifier): (r: Output)
    ensures WellFormed(r)
    ensures r.Keys == {"decision", "reason"}
    ensures !Complete(app) ==> DecisionOf(r) == AdditionalInformationNeeded
    ensures Complete(app) && !(18 <= app.age.value <= 100) ==> DecisionOf(r) == Reject
    ensures Complete(app) && 18 <= app.age.value <= 100 ==>
      DecisionOf(r) == ClassDecision(predict(FeaturesOf(app)))
  {
    var validation := Validate(app);
    if !validation.valid then Generate(AdditionalInformationNeeded, Message(validation.message.value))
    else
      var conflicts := HandleConflicts(app);
      if !conflicts.valid then Generate(Reject, Message(conflicts.message.value))
      else
        var riskScore := Score(app, predict);
        var (decision, reason) := Decide(riskScore);
        Generate(decision, reason)
  }

  /**
   * A missing field gives Additional Information Needed with the
   * missing-fields message, whatever the age and whatever the classifier.
   */
  lemma MissingFieldsShortCircuit(app: Application, predict: Classifier, otherAge: int, other: Classifier)
    requires !Complete(app)
    ensures var r := ProcessApplication(app, predict);
      && DecisionOf(r) == AdditionalInformationNeeded
      && ReasonOf(r) == Message(MissingMessage(MissingFields(app)))
      && r == ProcessApplication(app.(age := if app.age.Some? then Some(otherAge) else None), other)
  {
    var app' := app.(age := if app.age.Some? then Some(otherAge) else None);
    assert forall f :: Has(app', f) == Has(app, f);
    MissingFieldsUnique(app', MissingFields(app));
  }

  /**
   * All fields present but the age outside 18..100 gives Reject with the
   * age message, whatever the classifier.
   */
  lemma AgeRuleShortCircuit(app: Application, predict: Classifier, other: Classifier)
    requires Complete(app) && !(18 <= app.age.value <= 100)
    ensures var r := ProcessApplication(app, predict);
      && DecisionOf(r) == Reject
      && ReasonOf(r) == Message("Age out of allowed range (18-100).")
      && r == ProcessApplication(app, other)
  {
  }

  /**
   * A complete application of allowed age is decided by its predicted class
   * alone: class 0 accepts for a low score 0.1, class 1 asks for more
   * information for a moderate score 0.5, class 2 rejects for a high score 0.9.
   */
  lemma ScoredDecision(app: Application, predict: Classifier)
    requires Complete(app) && 18 <= app.age.value <= 100
    ensures var r := ProcessApplication(app, predict);
      var c := predict(FeaturesOf(app));
      && DecisionOf(r) == ClassDecision(c)
      && (c == 0 ==> ReasonOf(r) == LowRiskScore(0.1))
      && (c == 1 ==> ReasonOf(r) == ModerateRiskScore(0.5))
      && (c == 2 ==> ReasonOf(r) == HighRiskScore(0.9))
  {
  }

  /**
   * The classifier is consulted at the application's own features and
   * nowhere else: two classifiers that agree there give the same result.
   */
  lemma ClassifierConsultedOnlyAtFeatures(app: Application, predict: Classifier, other: Classifier)
    requires Complete(app) ==> predict(FeaturesOf(app)) == other(FeaturesOf(app))
    ensures ProcessApplication(app, predict) == ProcessApplication(app, other)
  {
  }

  /** The demo application lacking chronic_illness asks for it by name. */
  lemma DemoMissingChronicIllness(predict: Classifier)
    ensures var r := ProcessApplication(Application(Some(45), Some(false), None), predict);
      && DecisionOf(r) == AdditionalInformationNeeded
      && ReasonOf(r) == Message("Missing required fields: ['chronic_illness']")
  {
    var app := Application(Some(45), Some(false), None);
    MissingFieldsUnique(app, [ChronicIllness]);
    assert JoinQuoted(["chronic_illness"]) == "'chronic_illness'";
    assert seq(1, i requires 0 <= i < 1 => Name([ChronicIllness][i])) == ["chronic_illness"];
    assert ListRepr([ChronicIllness]) == "['chronic_illness']";
    assert MissingMessage([ChronicIllness]) == "Missing required fields: ['chronic_illness']";
  }

  /** The demo application aged 17 is rejected by the age rule. */
  lemma DemoUnderage(predict: Classifier)
    ensures var r := ProcessApplication(Application(Some(17), Some(false), Some(false)), predict);
      && DecisionOf(r) == Reject
      && ReasonOf(r) == Message("Age out of allowed range (18-100).")
  {
  }

  /** The application whose features are exactly the given feature vector. */
  function ApplicationOf(x: Features): Application {
    Application(Some(x.age), Some(x.smoker == 1), Some(x.chronic == 1))
  }

  /**
   * For a classifier that reproduces its training labels, each training
   * example, submitted as an application, is decided as its label says.
   */
  lemma TrainingExampleDecided(predict: Classifier, i: nat)
    requires ReproducesTrainingSet(predict) && i < |TRAINING_SET|
    ensures DecisionOf(ProcessApplication(ApplicationOf(TRAINING_SET[i].0), predict)) == ClassDecision(TRAINING_SET[i].1)
  {
    var x := TRAINING_SET[i].0;
    assert 0 <= x.smoker <= 1 && 0 <= x.chronic <= 1 && 18 <= x.age <= 100;
    assert FeaturesOf(ApplicationOf(x)) == x;
    ScoredDecision(ApplicationOf(x), predict);
  }

  /**
   * For a classifier that reproduces its training labels, the four training
   * applications: low risk accepted, medium risk asked for more information,
   * both high-risk examples rejected.
   */
  lemma TrainingApplicationsDecided(predict: Classifier)
    requires ReproducesTrainingSet(predict)
    ensures DecisionOf(ProcessApplication(Application(Some(25), Some(false), Some(false)), predict)) == Accept
    ensures DecisionOf(ProcessApplication(Application(Some(45), Some(true), Some(false)), predict)) == AdditionalInformationNeeded
    ensures DecisionOf(ProcessApplication(Application(Some(60), Some(true), Some(true)), predict)) == Reject
    ensures DecisionOf(ProcessApplication(Application(Some(35), Some(false), Some(true)), predict)) == Reject
  {
    TrainingExampleDecided(predict, 0);
    TrainingExampleDecided(predict, 1);
    TrainingExampleDecided(predict, 2);
    TrainingExampleDecided(predict, 3);
  }
}
