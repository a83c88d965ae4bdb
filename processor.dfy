/**
 * ApplicationProcessor: the field-presence check and the age business rule.
 * Both answer with a pass/fail flag and, on failure, a message.
 */
module ApplicationProcessor {
  import opened Wrappers
  import opened Applications

  /** The (valid, message) pair returned by both checks. */
  datatype CheckResult = CheckResult(valid: bool, message: Option<string>)

  const MIN_AGE: int := 18
  const MAX_AGE: int := 100
  const AGE_MESSAGE: string := "Age out of allowed range (18-100)."
  const MISSING_PREFIX: string := "Missing required fields: "

  /** The fields of `fields` whose key is absent from the application, in the order of `fields`. */
  function MissingAmong(fields: seq<Field>, app: Application): (r: seq<Field>)
    ensures forall f :: f in r <==> f in fields && !Has(app, f)
    ensures |r| <= |fields|
  {
    if fields == [] then []
    else if Has(app, fields[0]) then MissingAmong(fields[1..], app)
    else [fields[0]] + MissingAmong(fields[1..], app)
  }

  /** Filtering keeps the relative order of the kept fields. */
  lemma {:induction false} MissingAmongKeepsOrder(fields: seq<Field>, app: Application)
    requires InDeclarationOrder(fields)
    ensures InDeclarationOrder(MissingAmong(fields, app))
  {
    if fields != [] {
      var rest := MissingAmong(fields[1..], app);
      MissingAmongKeepsOrder(fields[1..], app);
      if !Has(app, fields[0]) {
        var r := [fields[0]] + rest;
        forall i, j | 0 <= i < j < |r|
          ensures Position(r[i]) < Position(r[j])
        {
          if i == 0 {
            assert r[j] in fields[1..];
            var k :| 0 <= k < |fields[1..]| && fields[1..][k] == r[j];
            assert fields[k + 1] == r[j];
          } else {
            assert r[i] == rest[i - 1] && r[j] == rest[j - 1];
          }
        }
      }
    }
  }

  /** The missing required fields: the list comprehension over REQUIRED_FIELDS. */
  function MissingFields(app: Application): (r: seq<Field>)
    ensures forall f :: f in r <==> !Has(app, f)
    ensures InDeclarationOrder(r)
    ensures forall i, j :: 0 <= i < j < |r| ==> r[i] != r[j]
    ensures r == [] <==> Complete(app)
  {
    MissingAmongKeepsOrder(REQUIRED_FIELDS, app);
    CompleteIsEveryFieldPresent(app);
    var r := MissingAmong(REQUIRED_FIELDS, app);
    assert r != [] ==> r[0] in r;
    r
  }

  /**
   * The missing-field list is the only list in declaration order holding
   * exactly the absent fields.
   */
  lemma MissingFieldsUnique(app: Application, listed: seq<Field>)
    requires InDeclarationOrder(listed)
    requires forall f :: f in listed <==> !Has(app, f)
    ensures listed == MissingFields(app)
  {
    OrderedSequencesWithSameMembers(listed, MissingFields(app));
  }

  /** The text of one string element as Python's list repr shows it. */
  function Quoted(s: string): string {
    "'" + s + "'"
  }

  /** The comma-separated body of a Python list repr of strings. */
  function JoinQuoted(names: seq<string>): string {
    if |names| == 0 then ""
    else if |names| == 1 then Quoted(names[0])
    else Quoted(names[0]) + ", " + JoinQuoted(names[1..])
  }

  /** The keys of a list of fields. */
  function Names(fields: seq<Field>): seq<string> {
    seq(|fields|, i requires 0 <= i < |fields| => Name(fields[i]))
  }

  /** Python's `str` of a list of field names, as the f-string inserts it. */
  function ListRepr(fields: seq<Field>): string {
    "[" + JoinQuoted(Names(fields)) + "]"
  }

  function MissingMessage(missing: seq<Field>): string {
    MISSING_PREFIX + ListRepr(missing)
  }

  /** The characters of s before its first quote, and the rest from that quote on. */
  function ReadName(s: string): (r: (string, string))
    ensures r.0 + r.1 == s
    ensures '\'' !in r.0
    ensures r.1 == [] || r.1[0] == '\''
  {
    if s == [] || s[0] == '\'' then ([], s)
    else
      var (name, rest) := ReadName(s[1..]);
      ([s[0]] + name, rest)
  }

  /** Reads back the names of a comma-separated body of a list repr. */
  function ParseJoined(s: string): Option<seq<string>>
    decreases |s|
  {
    if s == [] then Some([])
    else if s[0] != '\'' then None
    else
      var (name, rest) := ReadName(s[1..]);
      if rest == [] then None
      else if rest[1..] == [] then Some([name])
      else if |rest| >= 3 && rest[1..3] == ", " then
        match ParseJoined(rest[3..])
        case Some(names) => if names == [] then None else Some([name] + names)
        case None => None
      else None
  }

  /** The fields named by a list of keys, if every key names one. */
  function FieldsNamed(names: seq<string>): Option<seq<Field>> {
    if names == [] then Some([])
    else match (FieldNamed(names[0]), FieldsNamed(names[1..]))
      case (Some(f), Some(fs)) => Some([f] + fs)
      case _ => None
  }

  /** Reads back the missing fields from a missing-fields message. */
  function ParseMissingMessage(m: string): Option<seq<Field>> {
    var k := |MISSING_PREFIX|;
    if |m| < k + 2 || m[..k] != MISSING_PREFIX || m[k] != '[' || m[|m| - 1] != ']' then None
    else match ParseJoined(m[k + 1..|m| - 1])
      case Some(names) => FieldsNamed(names)
      case None => None
  }

  lemma {:induction false} ReadNameOfQuoted(name: string, rest: string)
    requires '\'' !in name
    ensures ReadName(name + "'" + rest) == (name, "'" + rest)
  {
    if name != [] {
      var s := name + "'" + rest;
      assert name[0] in name;
      assert s[0] == name[0] != '\'';
      assert s[1..] == name[1..] + "'" + rest;
      ReadNameOfQuoted(name[1..], rest);
      assert name == [name[0]] + name[1..];
    } else {
      assert name + "'" + rest == "'" + rest;
    }
  }

  /** Reading back a joined list of quote-free names gives the names. */
  lemma {:induction false} ParseJoinedRoundTrip(names: seq<string>)
    requires forall i :: 0 <= i < |names| ==> '\'' !in names[i]
    ensures ParseJoined(JoinQuoted(names)) == Some(names)
  {
    if |names| == 1 {
      ReadNameOfQuoted(names[0], "");
      var s := JoinQuoted(names);
      assert s == "'" + names[0] + "'";
      assert s[0] == '\'' && s[1..] == names[0] + "'" + "";
      assert ReadName(s[1..]).1 == "'";
      assert names == [names[0]];
    } else if |names| > 1 {
      var tail := JoinQuoted(names[1..]);
      ReadNameOfQuoted(names[0], ", " + tail);
      assert JoinQuoted(names)[1..] == names[0] + "'" + (", " + tail);
      var rest := "'" + (", " + tail);
      assert rest[1..3] == ", " && rest[3..] == tail;
      ParseJoinedRoundTrip(names[1..]);
      assert names == [names[0]] + names[1..];
    }
  }

  lemma {:induction false} FieldsNamedOfNames(fields: seq<Field>)
    ensures FieldsNamed(Names(fields)) == Some(fields)
  {
    if fields != [] {
      assert Names(fields)[1..] == Names(fields[1..]);
      FieldsNamedOfNames(fields[1..]);
      assert fields == [fields[0]] + fields[1..];
    }
  }

  /**
   * The message names the missing fields recoverably: reading it back gives
   * exactly the list, in order.
   */
  lemma MissingMessageRoundTrip(missing: seq<Field>)
    ensures ParseMissingMessage(MissingMessage(missing)) == Some(missing)
  {
    var names := Names(missing);
    forall i | 0 <= i < |names|
      ensures '\'' !in names[i]
    {
      match missing[i]
      case Age =>
      case Smoker =>
      case ChronicIllness =>
    }
    ParseJoinedRoundTrip(names);
    FieldsNamedOfNames(missing);
    var m := MissingMessage(missing);
    var k := |MISSING_PREFIX|;
    assert m == MISSING_PREFIX + "[" + JoinQuoted(names) + "]";
    assert m[..k] == MISSING_PREFIX;
    assert m[k + 1..|m| - 1] == JoinQuoted(names);
  }

  /** Different missing lists give different messages. */
  lemma MissingMessageInjective(a: seq<Field>, b: seq<Field>)
    requires MissingMessage(a) == MissingMessage(b)
    ensures a == b
  {
    MissingMessageRoundTrip(a);
    MissingMessageRoundTrip(b);
  }

  /**
   * validate: passes with no message exactly when every required field is
   * present; otherwise fails and names the missing fields in declaration order.
   */
  function Validate(app: Application): (r: CheckResult)
    ensures r.valid <==> Complete(app)
    ensures r.valid ==> r.message == None
    ensures !r.valid ==> r.message == Some(MissingMessage(MissingFields(app))) && MissingFields(app) != []
  {
    var missing := MissingFields(app);
    if missing != [] then CheckResult(false, Some(MissingMessage(missing)))
    else CheckResult(true, None)
  }

  predicate InAgeRange(age: int) {
    MIN_AGE <= age <= MAX_AGE
  }

  /**
   * handle_conflicts: passes exactly when the age lies in 18..100, both ends
   * included; otherwise fails with the fixed age message. The age is read
   * unconditionally, so it must be present.
   */
  function HandleConflicts(app: Application): (r: CheckResult)
    requires app.age.Some?
    ensures r.valid <==> 18 <= app.age.value <= 100
    ensures r.valid ==> r.message == None
    ensures !r.valid ==> r.message == Some("Age out of allowed range (18-100).")
  {
    if !InAgeRange(app.age.value) then CheckResult(false, Some(AGE_MESSAGE))
    else CheckResult(true, None)
  }
}
