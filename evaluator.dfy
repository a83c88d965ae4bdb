/**
 * RiskEvaluator: turns a complete application into a feature vector, asks the
 * fitted classifier for a risk class and maps that class to a risk score.
 * The classifier itself (a decision tree fitted once on four examples) is a
 * parameter of the model.
 */
module RiskEvaluator {
  import opened Applications

  /** The feature vector [age, smoker, chronic] handed to the classifier. */
  datatype Features = Features(age: int, smoker: int, chronic: int)

  /** The class labels of the training data: 0 low, 1 medium, 2 high. */
  type RiskClass = c: int | 0 <= c <= 2

  /** A fitted classifier: it only ever predicts one of its training labels. */
  type Classifier = Features -> RiskClass

  /** The four labelled training examples the classifier is fitted on. */
  const TRAINING_SET: seq<(Features, RiskClass)> := [
    (Features(25, 0, 0), 0),
    (Features(45, 1, 0), 1),
    (Features(60, 1, 1), 2),
    (Features(35, 0, 1), 2)
  ]

  /** The fixed map from predicted class to risk score. */
  const RISK_SCORE_MAP: map<int, real> := map[0 := 0.1, 1 := 0.5, 2 := 0.9]

  /**
   * A decision tree grown until its leaves are pure predicts every one of
   * its (pairwise distinct) training examples with that example's label.
   */
  predicate ReproducesTrainingSet(predict: Classifier) {
    forall i :: 0 <= i < |TRAINING_SET| ==> predict(TRAINING_SET[i].0) == TRAINING_SET[i].1
  }

  /** A boolean flag as a 0/1 feature. */
  function Flag(b: bool): (x: int)
    ensures x == 0 || x == 1
    ensures x == 1 <==> b
  {
    if b then 1 else 0
  }

  /** The feature vector of a complete application. */
  function FeaturesOf(app: Application): (x: Features)
    requires Complete(app)
    ensures x.age == app.age.value
    ensures x.smoker in {0, 1} && (x.smoker == 1 <==> app.smoker.value)
    ensures x.chronic in {0, 1} && (x.chronic == 1 <==> app.chronicIllness.value)
  {
    Features(app.age.value, Flag(app.smoker.value), Flag(app.chronicIllness.value))
  }

  /**
   * score: the risk score is one of 0.1, 0.5, 0.9, and it is 0.1, 0.5 or
   * 0.9 exactly when the classifier predicts class 0, 1 or 2 on the
   * application's features.
   */
  function Score(app: Application, predict: Classifier): (r: real)
    requires Complete(app)
    ensures r in {0.1, 0.5, 0.9}
    ensures var c := predict(FeaturesOf(app));
      && (r == 0.1 <==> c == 0)
      && (r == 0.5 <==> c == 1)
      && (r == 0.9 <==> c == 2)
  {
    var predClass := predict(FeaturesOf(app));
    RISK_SCORE_MAP[predClass]
  }

  /** A higher risk class never gets a lower score. */
  lemma ScoreMapMonotone(c1: RiskClass, c2: RiskClass)
    requires c1 <= c2
    ensures c1 in RISK_SCORE_MAP && c2 in RISK_SCORE_MAP
    ensures RISK_SCORE_MAP[c1] <= RISK_SCORE_MAP[c2]
  {
  }

  /**
   * The classifier is asked about this application's features and nothing
   * else: two classifiers that agree there give the same score.
   */
  lemma ScoreConsultsClassifierOnlyAtFeatures(app: Application, predict: Classifier, other: Classifier)
    requires Complete(app)
    requires predict(FeaturesOf(app)) == other(FeaturesOf(app))
    ensures Score(app, predict) == Score(app, other)
  {
  }
}
