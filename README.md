# Automated underwriting pipeline — a Dafny model

This project models the small insurance underwriting pipeline of
`riskAssessment.py`. For each application the pipeline decides whether to
Accept, Reject or ask for Additional Information Needed. It runs a fixed chain
and stops at the first failed check:

1. field-presence validation (`ApplicationProcessor.validate`): `age`, `smoker`
   and `chronic_illness` must all be present;
2. the age business rule (`ApplicationProcessor.handle_conflicts`): the age
   must lie in 18..100, both ends included;
3. risk scoring (`RiskEvaluator.score`): the flags become 0/1 features, a
   fitted decision tree predicts a class 0, 1 or 2, and the class maps to
   0.1, 0.5 or 0.9;
4. the two-threshold decision (`DecisionEngine.decide`): a score up to 0.3
   accepts, a score from 0.7 up rejects, anything between asks for more
   information;
5. result packaging (`OutputGenerator.generate`): a mapping with the keys
   `decision` and `reason`.

The source is pure: its classes only hold constants set once. The model is
therefore functions and lemmas, with one module per Python class:

- `wrappers.dfy`: `Option`.
- `applications.dfy` (`Applications`): the application record, with one
  `Option` per required field (`None` means the key is absent). It also holds
  the `Field` names and `REQUIRED_FIELDS` in declaration order.
- `processor.dfy` (`ApplicationProcessor`): `Validate`, `HandleConflicts` and
  the exact missing-fields message. The message is written as Python renders
  a list of strings, for example `['chronic_illness']`. A small reader,
  `ParseMissingMessage`, recovers the field list from a message. It is
  proved to invert the message, so the message names exactly the missing
  fields, in order.
- `evaluator.dfy` (`RiskEvaluator`): the feature vector, the training set,
  the class-to-score map and `Score`. The fitted classifier is a parameter
  `predict: Features -> RiskClass`, where `RiskClass` is 0..2.
- `engine.dfy` (`DecisionEngine`): `Decision`, `Reason`, the thresholds and
  `Decide`.
- `output.dfy` (`OutputGenerator`): the result mapping and `Generate`.
- `underwriting.dfy` (`AutomatedUnderwritingSystem`): `ProcessApplication`
  and the end-to-end properties.

Scores and thresholds are Dafny `real`s. The source only compares the
constants 0.1, 0.5, 0.9, 0.3 and 0.7, and their order is the same in binary
floating point and in exact arithmetic. A reason is either a message string or
a tag (low, moderate or high risk score) that carries the score.

One lemma family has a hypothesis, `RiskEvaluator.ReproducesTrainingSet`. It
says the classifier predicts each of the four training examples with that
example's own label. A decision tree grown with default settings until its
leaves are pure has this property, because the four training vectors are
pairwise distinct. Only `TrainingExampleDecided` and
`TrainingApplicationsDecided` assume it.

A present but wrongly typed field is not treated as missing: the code reads
the value as it is (see Left out).

## Model

| member | source | states |
|---|---|---|
| `Applications.CompleteIsEveryFieldPresent` | riskAssessment.py:5-8 | an application is complete exactly when no required field is absent |
| `ApplicationProcessor.MissingAmong` | riskAssessment.py:8 | the comprehension keeps exactly the listed fields whose key is absent, and never more than it was given |
| `ApplicationProcessor.MissingAmongKeepsOrder` | riskAssessment.py:8 | the comprehension keeps the fields in the order it scans them |
| `ApplicationProcessor.MissingFields` | riskAssessment.py:5-10 | the missing list holds exactly the absent required fields, in declaration order, with no duplicates; it is empty exactly when the application is complete |
| `ApplicationProcessor.MissingFieldsUnique` | riskAssessment.py:5-8 | any list in declaration order that holds exactly the absent fields equals the missing list |
| `ApplicationProcessor.Validate` | riskAssessment.py:7-11 | passes with no message exactly when all three fields are present; otherwise fails with "Missing required fields: " followed by the non-empty missing list |
| `ApplicationProcessor.ParseJoinedRoundTrip` | riskAssessment.py:10 | reading back the comma-separated, single-quoted body of a Python list repr gives back the quote-free names it was built from, in order |
| `ApplicationProcessor.MissingMessageRoundTrip` | riskAssessment.py:10 | the missing-fields message reads back to exactly the missing list, in order |
| `ApplicationProcessor.MissingMessageInjective` | riskAssessment.py:10 | different missing lists give different messages |
| `ApplicationProcessor.HandleConflicts` | riskAssessment.py:13-16 | passes with no message exactly when 18 <= age <= 100; otherwise fails with "Age out of allowed range (18-100)." |
| `RiskEvaluator.Flag` | riskAssessment.py:36-37 | a flag becomes 1 when true and 0 when false |
| `RiskEvaluator.FeaturesOf` | riskAssessment.py:35-37 | the feature vector is the age, then the smoker and chronic flags as 0/1 |
| `RiskEvaluator.Score` | riskAssessment.py:31-41 | the score is always 0.1, 0.5 or 0.9, and it is 0.1, 0.5 or 0.9 exactly when the predicted class is 0, 1 or 2 |
| `RiskEvaluator.ScoreMapMonotone` | riskAssessment.py:31 | a higher risk class never gets a lower score |
| `RiskEvaluator.ScoreConsultsClassifierOnlyAtFeatures` | riskAssessment.py:33-41 | two classifiers that agree on this application's feature vector give the same score |
| `DecisionEngine.Decide` | riskAssessment.py:44-54 | Accept exactly when score <= 0.3; Reject exactly when score > 0.3 and score >= 0.7; Additional Information Needed exactly when 0.3 < score < 0.7; the reason names the same band and carries the score |
| `DecisionEngine.LabelInjective` | riskAssessment.py:48-54 | the tags "Accept", "Reject" and "Additional Information Needed" are distinct, so a tag identifies its decision |
| `DecisionEngine.DecideMonotone` | riskAssessment.py:48-54 | a higher score never gives a more lenient decision |
| `DecisionEngine.DecideOnReachableScores` | riskAssessment.py:31-54 | 0.1 gives Accept, 0.5 gives Additional Information Needed and 0.9 gives Reject, each with its reason |
| `DecisionEngine.DecideAtThresholds` | riskAssessment.py:45-51 | a score exactly on 0.3 gives Accept and one exactly on 0.7 gives Reject |
| `OutputGenerator.Generate` | riskAssessment.py:58-62 | the result has exactly the keys "decision" and "reason", and both inputs read back from it |
| `OutputGenerator.GenerateFromParts` | riskAssessment.py:58-62 | every well-formed result is the packaging of its own decision and reason |
| `AutomatedUnderwritingSystem.ProcessApplication` | riskAssessment.py:72-90 | every application yields one result with exactly the keys "decision" and "reason"; its decision is Additional Information Needed when a field is missing, Reject when all fields are present but the age is outside 18..100, and otherwise the decision of the predicted class |
| `AutomatedUnderwritingSystem.MissingFieldsShortCircuit` | riskAssessment.py:74-76 | a missing field gives Additional Information Needed with the validation message; the age value and the classifier do not affect the result |
| `AutomatedUnderwritingSystem.AgeRuleShortCircuit` | riskAssessment.py:79-81 | a complete application with age outside 18..100 gives Reject with the age message; the classifier does not affect the result |
| `AutomatedUnderwritingSystem.ScoredDecision` | riskAssessment.py:84-90 | a complete application of allowed age gets Accept with a low-risk reason for score 0.1 when the class is 0, Additional Information Needed with a moderate-risk reason for 0.5 when it is 1, and Reject with a high-risk reason for 0.9 when it is 2 |
| `AutomatedUnderwritingSystem.ClassifierConsultedOnlyAtFeatures` | riskAssessment.py:39 | two classifiers that agree on this application's features give the same result |
| `AutomatedUnderwritingSystem.DemoUnderage` | riskAssessment.py:101 | the demo application aged 17 gives Reject with the age message |
| `AutomatedUnderwritingSystem.DemoMissingChronicIllness` | riskAssessment.py:102 | the demo application without chronic_illness gives Additional Information Needed with "Missing required fields: ['chronic_illness']" |
| `AutomatedUnderwritingSystem.TrainingExampleDecided` | riskAssessment.py:22-29 | if the classifier reproduces its training labels, each training example submitted as an application gets the decision of its label |
| `AutomatedUnderwritingSystem.TrainingApplicationsDecided` | riskAssessment.py:22-29 | if so, the training applications (25, no, no), (45, yes, no), (60, yes, yes) and (35, no, yes) give Accept, Additional Information Needed, Reject and Reject |

## Left out

- Fitting and querying the scikit-learn `DecisionTreeClassifier`, and numpy (riskAssessment.py:1-2, 21-29, 39). These are foreign library calls. The fitted tree is the parameter `predict`, and it may return any class in 0..2. Its learned boundaries and tie-breaking are not modelled.
- Demo applications 1 to 3 (riskAssessment.py:98-100). Their outcomes depend on the fitted tree's boundaries, which the model does not fix.
- Rendering a float inside a reason, such as "Low risk score (0.1)". A score reason is a tag that carries the score value, not formatted text.
- Dynamic typing of the application mapping. A key that is present with a wrongly typed value, such as a string age, `None`, or a boolean used as an age, is out of scope. The source does not handle these. The model has no extra keys, because the source ignores them.
- `RiskEvaluator.Score` and `RiskEvaluator.FeaturesOf` require all three fields to be present. The source reads `application['age']`, `['smoker']` and `['chronic_illness']` unconditionally, so an absent key would raise `KeyError`; the coordinator scores only after validation succeeds. The exception is not modelled.
- `ApplicationProcessor.HandleConflicts` requires the age to be present. The source reads `application['age']` unconditionally, and the coordinator calls it only after validation succeeds.
- The `__main__` demo driver and its printing (riskAssessment.py:93-107). This is I/O.
- Object construction (the `__init__` methods). They only set constants. These are module-level `const`s here, and the fitted classifier is the `predict` parameter.
