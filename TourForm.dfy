/**
 * The tour creation form (`components/ui/tour-creation-modal.tsx`): the zod
 * schema `tourFormSchema` as a validator that either accepts the values, with
 * the bike type defaulted, or lists the failed rules in schema order with their
 * messages; and the form's default values.
 */
module TourForm {
  import opened Wrappers
  import Store

  /** The form's values as react-hook-form hands them to the resolver. */
  datatype FormValues = FormValues(
    title: string,
    description: string,
    startLocation: string,
    endLocation: string,
    startDate: string,
    duration: string,
    distance: string,
    maxParticipants: int,
    difficulty: string,
    bikeType: Option<string>)

  /** A failed rule: the field it is attached to and the message shown under it. */
  datatype Issue = Issue(path: string, message: string)

  datatype Outcome = Accepted(tour: Store.TourInput) | Rejected(issues: seq<Issue>)

  /** The values of the difficulty enum. */
  const Difficulties: seq<string> := ["Easy", "Moderate", "Challenging"]
  /** The values offered by the duration select. */
  const DurationChoices: seq<string> := ["1 Day", "2 Days", "3 Days", "4 Days", "5+ Days"]

  /** `z.string().min(1, m)`: one issue with message `m` when the text is empty. */
  function Required(path: string, s: string, m: string): (r: seq<Issue>)
    ensures r == [] <==> |s| >= 1
    ensures r != [] ==> r == [Issue(path, m)]
    ensures forall i :: 0 <= i < |r| ==> r[i].path == path
  {
    if |s| < 1 then [Issue(path, m)] else []
  }

  function TitleIssues(title: string): (r: seq<Issue>)
    ensures r == [] <==> 1 <= |title| <= 100
    ensures |title| < 1 ==> r == [Issue("title", "Title is required")]
    ensures |title| > 100 ==> r == [Issue("title", "Title too long")]
    ensures forall i :: 0 <= i < |r| ==> r[i].path == "title"
  {
    (if |title| < 1 then [Issue("title", "Title is required")] else []) +
    (if |title| > 100 then [Issue("title", "Title too long")] else [])
  }

  function DescriptionIssues(d: string): (r: seq<Issue>)
    ensures r == [] <==> |d| >= 10
    ensures r != [] ==> r == [Issue("description", "Description must be at least 10 characters")]
    ensures forall i :: 0 <= i < |r| ==> r[i].path == "description"
  {
    if |d| < 10 then [Issue("description", "Description must be at least 10 characters")] else []
  }

  function ParticipantIssues(n: int): (r: seq<Issue>)
    ensures r == [] <==> 2 <= n <= 50
    ensures n < 2 ==> r == [Issue("maxParticipants", "At least 2 participants required")]
    ensures n > 50 ==> r == [Issue("maxParticipants", "Too many participants")]
    ensures forall i :: 0 <= i < |r| ==> r[i].path == "maxParticipants"
  {
    (if n < 2 then [Issue("maxParticipants", "At least 2 participants required")] else []) +
    (if n > 50 then [Issue("maxParticipants", "Too many participants")] else [])
  }

  /** The enum rule, with zod's stock message naming the three values and the one received. */
  function DifficultyIssues(d: string): (r: seq<Issue>)
    ensures r == [] <==> d in Difficulties
    ensures |r| <= 1
    ensures forall i :: 0 <= i < |r| ==> r[i].path == "difficulty"
  {
    if d in Difficulties then []
    else [Issue("difficulty",
      "Invalid enum value. Expected 'Easy' | 'Moderate' | 'Challenging', received '" + d + "'")]
  }

  /** Every rule of the schema holds. */
  predicate Acceptable(v: FormValues)
  {
    && 1 <= |v.title| <= 100
    && |v.description| >= 10
    && |v.startLocation| >= 1 && |v.endLocation| >= 1 && |v.startDate| >= 1
    && |v.duration| >= 1 && |v.distance| >= 1
    && 2 <= v.maxParticipants <= 50
    && v.difficulty in Difficulties
  }

  /** Every failed rule, in the order the schema declares its fields. */
  function Issues(v: FormValues): (r: seq<Issue>)
    ensures r == [] <==> Acceptable(v)
  {
    var text := TextIssues(v);
    var places := PlaceIssues(v);
    var plan := PlanIssues(v);
    var limits := ParticipantIssues(v.maxParticipants) + DifficultyIssues(v.difficulty);
    EmptyConcat(text, places, plan, limits);
    text + places + plan + limits
  }

  function TextIssues(v: FormValues): (r: seq<Issue>)
    ensures r == [] <==> 1 <= |v.title| <= 100 && |v.description| >= 10
  {
    TitleIssues(v.title) + DescriptionIssues(v.description)
  }

  function PlaceIssues(v: FormValues): (r: seq<Issue>)
    ensures r == [] <==> |v.startLocation| >= 1 && |v.endLocation| >= 1
  {
    Required("startLocation", v.startLocation, "Start location is required")
    + Required("endLocation", v.endLocation, "End location is required")
  }

  function PlanIssues(v: FormValues): (r: seq<Issue>)
    ensures r == [] <==> |v.startDate| >= 1 && |v.duration| >= 1 && |v.distance| >= 1
  {
    Required("startDate", v.startDate, "Start date is required")
    + Required("duration", v.duration, "Duration is required")
    + Required("distance", v.distance, "Distance is required")
  }

  lemma EmptyConcat(a: seq<Issue>, b: seq<Issue>, c: seq<Issue>, d: seq<Issue>)
    ensures a + b + c + d == [] <==> a == [] && b == [] && c == [] && d == []
  {
    assert |a + b + c + d| == |a| + |b| + |c| + |d|;
  }

  /** The schema's fields that carry rules. */
  datatype Field = Title | Description | StartLocation | EndLocation | StartDate
                 | Duration | Distance | MaxParticipants | Difficulty

  /** The fields in the order `tourFormSchema` declares them. */
  const SchemaFields: seq<Field> := [Title, Description, StartLocation, EndLocation,
    StartDate, Duration, Distance, MaxParticipants, Difficulty]

  /** The field's key, which zod puts in the issue's path. */
  function FieldName(f: Field): string
  {
    match f
    case Title => "title"
    case Description => "description"
    case StartLocation => "startLocation"
    case EndLocation => "endLocation"
    case StartDate => "startDate"
    case Duration => "duration"
    case Distance => "distance"
    case MaxParticipants => "maxParticipants"
    case Difficulty => "difficulty"
  }

  /** A field's position in the schema. */
  function FieldRank(f: Field): nat
  {
    match f
    case Title => 0
    case Description => 1
    case StartLocation => 2
    case EndLocation => 3
    case StartDate => 4
    case Duration => 5
    case Distance => 6
    case MaxParticipants => 7
    case Difficulty => 8
  }

  /** The issues one field's rule raises, each attached to that field. */
  function FieldIssues(v: FormValues, f: Field): (r: seq<Issue>)
    ensures forall i :: 0 <= i < |r| ==> r[i].path == FieldName(f)
  {
    match f
    case Title => TitleIssues(v.title)
    case Description => DescriptionIssues(v.description)
    case StartLocation => Required("startLocation", v.startLocation, "Start location is required")
    case EndLocation => Required("endLocation", v.endLocation, "End location is required")
    case StartDate => Required("startDate", v.startDate, "Start date is required")
    case Duration => Required("duration", v.duration, "Duration is required")
    case Distance => Required("distance", v.distance, "Distance is required")
    case MaxParticipants => ParticipantIssues(v.maxParticipants)
    case Difficulty => DifficultyIssues(v.difficulty)
  }

  /** The fields' issues, field after field, each paired with its field. */
  function IssuesOf(v: FormValues, fields: seq<Field>): (r: seq<(Field, Issue)>)
  {
    if fields == [] then []
    else Tagged(fields[0], FieldIssues(v, fields[0])) + IssuesOf(v, fields[1..])
  }

  function Tagged(f: Field, issues: seq<Issue>): (r: seq<(Field, Issue)>)
    ensures |r| == |issues|
  {
    if issues == [] then [] else [(f, issues[0])] + Tagged(f, issues[1..])
  }

  /** The issues alone. */
  function Untagged(tagged: seq<(Field, Issue)>): (r: seq<Issue>)
    ensures |r| == |tagged|
  {
    if tagged == [] then [] else [tagged[0].1] + Untagged(tagged[1..])
  }

  /** Each issue sits on its field's key, and no issue comes after one of a later field. */
  ghost predicate InSchemaOrder(tagged: seq<(Field, Issue)>)
  {
    && (forall i :: 0 <= i < |tagged| ==> tagged[i].1.path == FieldName(tagged[i].0))
    && (forall i, j :: 0 <= i < j < |tagged| ==> FieldRank(tagged[i].0) <= FieldRank(tagged[j].0))
  }

  /** Walking fields of increasing rank yields issues in schema order, each on one of those fields. */
  lemma {:induction false} IssuesOfOrdered(v: FormValues, fields: seq<Field>)
    requires forall i, j :: 0 <= i < j < |fields| ==> FieldRank(fields[i]) < FieldRank(fields[j])
    ensures InSchemaOrder(IssuesOf(v, fields))
    ensures forall i :: 0 <= i < |IssuesOf(v, fields)| ==> IssuesOf(v, fields)[i].0 in fields
  {
    if fields != [] {
      var head := Tagged(fields[0], FieldIssues(v, fields[0]));
      TaggedAt(fields[0], FieldIssues(v, fields[0]));
      IssuesOfOrdered(v, fields[1..]);
      var rest := IssuesOf(v, fields[1..]);
      assert IssuesOf(v, fields) == head + rest;
      forall j | 0 <= j < |rest|
        ensures FieldRank(fields[0]) < FieldRank(rest[j].0)
      {
        assert rest[j].0 in fields[1..];
      }
    }
  }

  lemma {:induction false} TaggedAt(f: Field, issues: seq<Issue>)
    ensures forall i :: 0 <= i < |issues| ==> Tagged(f, issues)[i] == (f, issues[i])
  {
    if issues != [] {
      TaggedAt(f, issues[1..]);
    }
  }

  lemma {:induction false} UntaggedAppend(a: seq<(Field, Issue)>, b: seq<(Field, Issue)>)
    ensures Untagged(a + b) == Untagged(a) + Untagged(b)
  {
    if a != [] {
      assert (a + b)[1..] == a[1..] + b;
      UntaggedAppend(a[1..], b);
    } else {
      assert a + b == b;
    }
  }

  lemma {:induction false} UntaggedTagged(f: Field, issues: seq<Issue>)
    ensures Untagged(Tagged(f, issues)) == issues
  {
    if issues != [] {
      UntaggedTagged(f, issues[1..]);
      assert Tagged(f, issues)[1..] == Tagged(f, issues[1..]);
    }
  }

  /**
   * The resolver's issues are the rules' issues taken field by field in schema
   * order: each sits on its own field's key, and none comes after an issue of
   * a later field.
   */
  lemma IssuesInSchemaOrder(v: FormValues)
    ensures Issues(v) == Untagged(IssuesOf(v, SchemaFields))
    ensures InSchemaOrder(IssuesOf(v, SchemaFields))
  {
    IssuesFollowSchema(v);
    SchemaRanksIncrease();
    IssuesOfOrdered(v, SchemaFields);
  }

  lemma IssuesFollowSchema(v: FormValues)
    ensures Issues(v) == Untagged(IssuesOf(v, SchemaFields))
  {
    var f := SchemaFields;
    var text, places, plan := TextIssues(v), PlaceIssues(v), PlanIssues(v);
    var limits := ParticipantIssues(v.maxParticipants) + DifficultyIssues(v.difficulty);
    TextFields(v);
    PlaceFields(v);
    PlanFields(v);
    LimitFields(v);
    calc {
      Untagged(IssuesOf(v, f));
      text + Untagged(IssuesOf(v, f[2..]));
      text + (places + Untagged(IssuesOf(v, f[4..])));
      text + (places + (plan + Untagged(IssuesOf(v, f[7..]))));
      text + (places + (plan + limits));
      { AppendAssoc(text, places, plan, limits); }
      text + places + plan + limits;
    }
  }

  lemma SchemaRanksIncrease()
    ensures forall i, j :: 0 <= i < j < |SchemaFields| ==> FieldRank(SchemaFields[i]) < FieldRank(SchemaFields[j])
  {
    forall i | 0 <= i < |SchemaFields|
      ensures FieldRank(SchemaFields[i]) == i
    {
    }
  }

  /** Untagging the fields' issues from `fields[k..]` on: one field at a time. */
  lemma {:induction false} UntagStep(v: FormValues, k: nat)
    requires k < |SchemaFields|
    ensures Untagged(IssuesOf(v, SchemaFields[k..]))
         == FieldIssues(v, SchemaFields[k]) + Untagged(IssuesOf(v, SchemaFields[k + 1..]))
  {
    var f := SchemaFields;
    assert f[k..][1..] == f[k + 1..];
    UntaggedAppend(Tagged(f[k], FieldIssues(v, f[k])), IssuesOf(v, f[k + 1..]));
    UntaggedTagged(f[k], FieldIssues(v, f[k]));
  }

  lemma AppendAssoc<T>(a: seq<T>, b: seq<T>, c: seq<T>, d: seq<T>)
    ensures a + (b + (c + d)) == a + b + c + d
  {
  }

  lemma AppendAssoc3<T>(a: seq<T>, b: seq<T>, c: seq<T>)
    ensures a + (b + c) == a + b + c
  {
  }

  lemma LimitFields(v: FormValues)
    ensures Untagged(IssuesOf(v, SchemaFields[7..])) == ParticipantIssues(v.maxParticipants) + DifficultyIssues(v.difficulty)
  {
    var f := SchemaFields;
    assert f[7] == MaxParticipants && f[8] == Difficulty && f[9..] == [];
    UntagStep(v, 7);
    UntagStep(v, 8);
    var p, d := ParticipantIssues(v.maxParticipants), DifficultyIssues(v.difficulty);
    calc {
      Untagged(IssuesOf(v, f[7..]));
      p + Untagged(IssuesOf(v, f[8..]));
      p + (d + Untagged(IssuesOf(v, f[9..])));
      p + (d + []);
      { assert d + [] == d; }
      p + d;
    }
  }

  /** Two fields at a time. */
  lemma TwoSteps(v: FormValues, k: nat)
    requires k + 1 < |SchemaFields|
    ensures Untagged(IssuesOf(v, SchemaFields[k..]))
         == FieldIssues(v, SchemaFields[k]) + FieldIssues(v, SchemaFields[k + 1])
            + Untagged(IssuesOf(v, SchemaFields[k + 2..]))
  {
    var f := SchemaFields;
    var a, b := FieldIssues(v, f[k]), FieldIssues(v, f[k + 1]);
    var rest := Untagged(IssuesOf(v, f[k + 2..]));
    UntagStep(v, k);
    UntagStep(v, k + 1);
    AppendAssoc3(a, b, rest);
  }

  lemma PlanFields(v: FormValues)
    ensures Untagged(IssuesOf(v, SchemaFields[4..])) == PlanIssues(v) + Untagged(IssuesOf(v, SchemaFields[7..]))
  {
    var f := SchemaFields;
    assert f[4] == StartDate && f[5] == Duration && f[6] == Distance;
    var a, b, c := FieldIssues(v, f[4]), FieldIssues(v, f[5]), FieldIssues(v, f[6]);
    var rest := Untagged(IssuesOf(v, f[7..]));
    TwoSteps(v, 4);
    UntagStep(v, 6);
    calc {
      Untagged(IssuesOf(v, f[4..]));
      a + b + (c + rest);
      { AppendAssoc3(a + b, c, rest); }
      a + b + c + rest;
    }
  }

  lemma PlaceFields(v: FormValues)
    ensures Untagged(IssuesOf(v, SchemaFields[2..])) == PlaceIssues(v) + Untagged(IssuesOf(v, SchemaFields[4..]))
  {
    assert SchemaFields[2] == StartLocation && SchemaFields[3] == EndLocation;
    TwoSteps(v, 2);
  }

  lemma TextFields(v: FormValues)
    ensures Untagged(IssuesOf(v, SchemaFields)) == TextIssues(v) + Untagged(IssuesOf(v, SchemaFields[2..]))
  {
    assert SchemaFields[0] == Title && SchemaFields[1] == Description && SchemaFields[0..] == SchemaFields;
    TwoSteps(v, 0);
  }

  /**
   * The resolver: the values pass unchanged, with an absent bike type replaced
   * by "Any", exactly when no rule fails.
   */
  function Validate(v: FormValues): (r: Outcome)
    ensures r.Accepted? <==> Acceptable(v)
    ensures r.Rejected? ==> r.issues == Issues(v) && r.issues != []
    ensures r.Accepted? ==>
      && r.tour.title == v.title && r.tour.description == v.description
      && r.tour.startLocation == v.startLocation && r.tour.endLocation == v.endLocation
      && r.tour.startDate == v.startDate && r.tour.duration == v.duration
      && r.tour.distance == v.distance && r.tour.maxParticipants == v.maxParticipants
      && r.tour.difficulty == v.difficulty
      && r.tour.bikeType == Store.Given(v.bikeType.GetOr(Store.DefaultBikeType))
  {
    var issues := Issues(v);
    if issues != [] then Rejected(issues)
    else Accepted(Store.TourInput(
      v.title, v.description, v.startLocation, v.endLocation, v.startDate, v.duration,
      v.distance, v.difficulty, Store.Given(v.bikeType.GetOr("Any")), v.maxParticipants))
  }

  /** The form's `defaultValues`. */
  const Defaults := FormValues("", "", "", "", "", "1 Day", "", 10, "Moderate", Some("Any"))

  /**
   * Submitting the untouched form fails on exactly the six empty text fields,
   * in schema order; its duration, participant count and difficulty pass.
   */
  lemma DefaultsRejected()
    ensures Validate(Defaults) == Rejected([
      Issue("title", "Title is required"),
      Issue("description", "Description must be at least 10 characters"),
      Issue("startLocation", "Start location is required"),
      Issue("endLocation", "End location is required"),
      Issue("startDate", "Start date is required"),
      Issue("distance", "Distance is required")])
  {
    assert Defaults.difficulty in Difficulties;
  }

  /** A tour the form accepts carries one of the three enum difficulties and a bike type. */
  lemma AcceptedTourShape(v: FormValues)
    requires Validate(v).Accepted?
    ensures Validate(v).tour.difficulty in Difficulties
    ensures Validate(v).tour.bikeType.Given?
    ensures v.bikeType.None? ==> Validate(v).tour.bikeType == Store.Given("Any")
    ensures Store.StoredBikeType(Validate(v).tour.bikeType).Some?
  {
  }
}
