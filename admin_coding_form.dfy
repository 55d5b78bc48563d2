/**
 * The admin form that adds a coding question (src/AdminCodingForm.jsx): named text fields,
 * a growing list of test cases edited field by field, and a submit that assembles the
 * question and, only after a successful post, resets the form.
 */
module AdminCodingForm {
  import opened Decimal
  import opened Forms

  /** `duration: 900`, in seconds. */
  const DefaultDuration := 900

  const InitialForm: map<string, FormValue> := map[
    "title" := Text(""), "description" := Text(""),
    "cpp" := Text(""), "java" := Text(""), "python" := Text(""),
    "duration" := Num(DefaultDuration), "date" := Text("")]

  /** A test-case object `{ input, expected }`; the edit handler writes into it in place. */
  class TestCase {
    var input: string
    var expected: string

    constructor ()
      ensures input == "" && expected == ""
    {
      input, expected := "", "";
    }
  }

  /** The contents of a test-case object. */
  datatype TestCaseValue = TestCaseValue(input: string, expected: string)

  const EmptyCase := TestCaseValue("", "")

  datatype TestCaseField = InputField | ExpectedField

  function WithField(tc: TestCaseValue, field: TestCaseField, value: string): TestCaseValue
  {
    match field
    case InputField => tc.(input := value)
    case ExpectedField => tc.(expected := value)
  }

  datatype StarterCodeFields = StarterCodeFields(cpp: FormValue, java: FormValue, python: FormValue)

  /** The question object posted by `handleSubmit`. */
  datatype CodingQuestionPayload = CodingQuestionPayload(
    title: FormValue,
    description: FormValue,
    starterCode: StarterCodeFields,
    testCases: seq<TestCaseValue>,
    duration: JsNumber,
    date: FormValue)

  datatype PostOutcome = Posted | PostFailed

  /** The question `handleSubmit` builds from the form and the test cases. */
  function Assemble(form: map<string, FormValue>, cases: seq<TestCaseValue>): CodingQuestionPayload
    requires InitialForm.Keys <= form.Keys
  {
    CodingQuestionPayload(
      form["title"], form["description"],
      StarterCodeFields(form["cpp"], form["java"], form["python"]),
      cases,
      ToNumber(form["duration"]),
      form["date"])
  }

  /**
   * The starter code travels nested under `starterCode`, one entry per language, and a
   * duration typed as digits is posted as that number; the untouched default posts 900.
   */
  lemma AssembleNestsAndConverts(form: map<string, FormValue>, cases: seq<TestCaseValue>, typed: nat)
    requires InitialForm.Keys <= form.Keys
    ensures var q := Assemble(form, cases);
      && q.starterCode.cpp == form["cpp"] && q.starterCode.java == form["java"] && q.starterCode.python == form["python"]
      && q.testCases == cases
      && (form["duration"] == Text(NatToString(typed)) ==> q.duration == Finite(typed))
      && (form["duration"] == Num(DefaultDuration) ==> q.duration == Finite(DefaultDuration))
  {
    ToNumberOfPrinted(typed);
  }

  class CodingQuestionForm {
    var formData: map<string, FormValue>
    var testCases: seq<TestCase>

    /** Every field the form renders is present, and no test-case object appears twice. */
    ghost predicate Valid()
      reads this
    {
      && InitialForm.Keys <= formData.Keys
      && forall i, j :: 0 <= i < j < |testCases| ==> testCases[i] != testCases[j]
    }

    /** The test cases as values. */
    function Cases(): (cs: seq<TestCaseValue>)
      reads this, testCases
      ensures |cs| == |testCases|
    {
      var objects := testCases;
      seq(|objects|, i reads objects requires 0 <= i < |objects| =>
        TestCaseValue(objects[i].input, objects[i].expected))
    }

    /** The initial form: empty fields, a duration of 900, one empty test case. */
    constructor ()
      ensures Valid()
      ensures formData == InitialForm && Cases() == [EmptyCase]
    {
      formData := InitialForm;
      var tc := new TestCase();
      testCases := [tc];
    }

    /** `handleChange`: stores the typed string under the input's name; nothing else changes. */
    method HandleChange(name: string, value: string)
      requires Valid()
      modifies this
      ensures Valid()
      ensures formData == old(formData)[name := Text(value)]
      ensures testCases == old(testCases) && Cases() == old(Cases())
    {
      formData := formData[name := Text(value)];
    }

    /**
     * `handleTestCaseChange`: copies the list (the copy holds the same objects) and writes
     * one field of entry `index` in place; the length, the other entries and the other
     * field keep their values.
     */
    method HandleTestCaseChange(index: int, field: TestCaseField, value: string)
      requires Valid() && 0 <= index < |testCases|
      modifies this, testCases[index]
      ensures Valid()
      ensures formData == old(formData) && testCases == old(testCases)
      ensures Cases() == old(Cases())[index := WithField(old(Cases())[index], field, value)]
    {
      var updated := testCases;
      var tc := updated[index];
      match field
      case InputField =>
        tc.input := value;
      case ExpectedField =>
        tc.expected := value;
      testCases := updated;
    }

    /** `addTestCase`: appends one new empty test case and keeps the earlier ones. */
    method AddTestCase()
      requires Valid()
      modifies this
      ensures Valid()
      ensures formData == old(formData)
      ensures Cases() == old(Cases()) + [EmptyCase]
      ensures testCases[..|testCases| - 1] == old(testCases) && fresh(testCases[|testCases| - 1])
    {
      var tc := new TestCase();
      testCases := testCases + [tc];
    }

    /**
     * `handleSubmit`: posts the assembled question; after a successful post the form and
     * the test cases return to their initial values, after a failure both are kept.
     */
    method HandleSubmit(outcome: PostOutcome) returns (question: CodingQuestionPayload)
      requires Valid()
      modifies this
      ensures Valid()
      ensures question == Assemble(old(formData), old(Cases()))
      ensures outcome == Posted ==> formData == InitialForm && Cases() == [EmptyCase]
      ensures outcome == PostFailed ==> formData == old(formData) && testCases == old(testCases) && Cases() == old(Cases())
    {
      question := Assemble(formData, Cases());
      if outcome == Posted {
        formData := InitialForm;
        var tc := new TestCase();
        testCases := [tc];
      }
    }
  }
}
