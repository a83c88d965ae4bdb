/**
 * An insurance application as the pipeline sees it: the three recognised
 * fields, each of which may be absent from the mapping. Extra keys of the
 * mapping play no part in any decision, so they are not represented.
 */
module Applications {
  import opened Wrappers

  datatype Application = Application(
    age: Option<int>,
    smoker: Option<bool>,
    chronicIllness: Option<bool>)

  /** The required fields, by name. */
  datatype Field = Age | Smoker | ChronicIllness

  /** The declaration order of the required fields. */
  const REQUIRED_FIELDS: seq<Field> := [Age, Smoker, ChronicIllness]

  /** The key under which a field appears in the application mapping. */
  function Name(f: Field): string {
    match f
    case Age => "age"
    case Smoker => "smoker"
    case ChronicIllness => "chronic_illness"
  }

  /** The field whose key is s, if any: the inverse of Name. */
  function FieldNamed(s: string): Option<Field> {
    if s == "age" then Some(Age)
    else if s == "smoker" then Some(Smoker)
    else if s == "chronic_illness" then Some(ChronicIllness)
    else None
  }

  /** Index of a field in REQUIRED_FIELDS. */
  function Position(f: Field): (i: nat)
    ensures i < |REQUIRED_FIELDS| && REQUIRED_FIELDS[i] == f
  {
    match f
    case Age => 0
    case Smoker => 1
    case ChronicIllness => 2
  }

  /** Whether the key of field f is present in the application. */
  predicate Has(app: Application, f: Field) {
    match f
    case Age => app.age.Some?
    case Smoker => app.smoker.Some?
    case ChronicIllness => app.chronicIllness.Some?
  }

  /** All required fields are present. */
  predicate Complete(app: Application) {
    app.age.Some? && app.smoker.Some? && app.chronicIllness.Some?
  }

  /** A sequence of fields listed in strictly increasing declaration order. */
  predicate InDeclarationOrder(s: seq<Field>) {
    forall i, j :: 0 <= i < j < |s| ==> Position(s[i]) < Position(s[j])
  }

  lemma CompleteIsEveryFieldPresent(app: Application)
    ensures Complete(app) <==> forall f: Field :: Has(app, f)
  {
    if !Complete(app) {
      if app.age.None? {
        assert !Has(app, Age);
      } else if app.smoker.None? {
        assert !Has(app, Smoker);
      } else {
        assert !Has(app, ChronicIllness);
      }
    }
  }

  /**
   * Two sequences in declaration order with the same members are equal:
   * the order fixes the list once its members are known.
   */
  lemma {:induction false} OrderedSequencesWithSameMembers(s: seq<Field>, t: seq<Field>)
    requires InDeclarationOrder(s) && InDeclarationOrder(t)
    requires forall f :: f in s <==> f in t
    ensures s == t
  {
    // A non-empty sequence has a first member, which the other one shares.
    assert |s| > 0 ==> s[0] in s;
    assert |t| > 0 ==> t[0] in t;
    if s != [] && t != [] {
      // That shared first member is the one of least position in both.
      assert s[0] == t[0];
      forall f
        ensures f in s[1..] <==> f in t[1..]
      {
        if f in s[1..] {
          var k :| 1 <= k < |s| && s[k] == f;
          assert f != s[0] && f in t;
          assert t == [t[0]] + t[1..];
        }
        if f in t[1..] {
          var k :| 1 <= k < |t| && t[k] == f;
          assert f != t[0] && f in s;
          assert s == [s[0]] + s[1..];
        }
      }
      OrderedSequencesWithSameMembers(s[1..], t[1..]);
      assert s == [s[0]] + s[1..] && t == [t[0]] + t[1..];
    }
  }
}
