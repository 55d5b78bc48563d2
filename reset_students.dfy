/**
 * The admin page that resets a student's test for the day (src/ResetStudentsPage.jsx):
 * a case-insensitive search over the fetched student list, and a reset request guarded
 * by a confirmation.
 */
module ResetStudents {
  import opened Wrappers
  import opened Text

  const ResetSucceededMessage := "\U{2705} Test reset successfully."
  const ResetFailedMessage := "\U{274C} Failed to reset test."

  /** A student row; `name` and `rollNumber` may be missing. */
  datatype Student = Student(id: string, name: Option<string>, rollNumber: Option<string>, email: Option<string>)

  /** `field?.toLowerCase().includes(term.toLowerCase())`: a missing field never matches. */
  predicate FieldMatches(field: Option<string>, term: string)
  {
    field.Some? && Contains(Lower(field.value), Lower(term))
  }

  /** The filter's test: the name or the roll number contains the term, ignoring case. */
  predicate Matches(s: Student, term: string)
  {
    FieldMatches(s.name, term) || FieldMatches(s.rollNumber, term)
  }

  /** `sub` is obtained from `full` by dropping elements, keeping the order of the rest. */
  predicate IsSubsequence<T(==)>(sub: seq<T>, full: seq<T>)
    decreases |full|
  {
    sub == [] || (|full| > 0 &&
      ((sub[0] == full[0] && IsSubsequence(sub[1..], full[1..])) || IsSubsequence(sub, full[1..])))
  }

  /**
   * `students.filter(...)`: exactly the matching students, each as often as it occurs,
   * in their original order.
   */
  function Shown(students: seq<Student>, term: string): (r: seq<Student>)
    ensures forall s :: s in r <==> s in students && Matches(s, term)
    ensures forall s :: multiset(r)[s] == if Matches(s, term) then multiset(students)[s] else 0
    ensures IsSubsequence(r, students)
  {
    if students == [] then []
    else
      var rest := Shown(students[1..], term);
      assert students == [students[0]] + students[1..];
      if Matches(students[0], term) then [students[0]] + rest else rest
  }

  /** Changing the case of the search term changes nothing. */
  lemma {:induction false} ShownIgnoresTermCase(students: seq<Student>, t1: string, t2: string)
    requires SameUpToCase(t1, t2)
    ensures Shown(students, t1) == Shown(students, t2)
  {
    SameUpToCaseLowerEqual(t1, t2);
    if students != [] {
      ShownIgnoresTermCase(students[1..], t1, t2);
    }
  }

  /** Typing the term in capitals finds the same students. */
  lemma ShownIgnoresUpperCase(students: seq<Student>, term: string)
    ensures Shown(students, Upper(term)) == Shown(students, term)
  {
    UpperSameUpToCase(term);
    ShownIgnoresTermCase(students, Upper(term), term);
  }

  lemma ContainsEmpty(hay: string)
    ensures Contains(hay, "")
  {
  }

  /** An empty search keeps every student with a name or a roll number, and drops one with neither. */
  lemma EmptyTermShowsIdentified(students: seq<Student>)
    ensures forall s :: s in Shown(students, "") <==> s in students && (s.name.Some? || s.rollNumber.Some?)
  {
    forall s | s in students && (s.name.Some? || s.rollNumber.Some?)
      ensures Matches(s, "")
    {
      if s.name.Some? {
        ContainsEmpty(Lower(s.name.value));
      } else {
        ContainsEmpty(Lower(s.rollNumber.value));
      }
    }
  }

  /** The rows of the table body. */
  datatype Row = NoStudentsRow | StudentRow(student: Student)

  function StudentRows(students: seq<Student>): seq<Row>
  {
    seq(|students|, i requires 0 <= i < |students| => StudentRow(students[i]))
  }

  /**
   * The table body: the "No students found" row when the fetched list is empty, otherwise
   * one row per shown student (an empty body when the search matches nobody).
   */
  function TableRows(students: seq<Student>, term: string): (rows: seq<Row>)
    ensures NoStudentsRow in rows <==> |students| == 0
    ensures |students| > 0 ==> |rows| == |Shown(students, term)|
    ensures |students| > 0 ==> forall i :: 0 <= i < |rows| ==> rows[i] == StudentRow(Shown(students, term)[i])
  {
    if |students| == 0 then [NoStudentsRow] else StudentRows(Shown(students, term))
  }

  /** The reset endpoint's answer: its `message`, if any, on success or on failure. */
  datatype ResetResponse = ResetOk(okMessage: Option<string>) | ResetError(errorMessage: Option<string>)

  /** The student id posted to the reset endpoint, if any, and the alert shown, if any. */
  datatype ResetEffect = ResetEffect(request: Option<string>, alert: Option<string>)

  /**
   * `handleReset`: declining the confirmation sends no request and shows nothing;
   * confirming posts the student's id and shows the server's message or a default.
   */
  function HandleReset(confirmed: bool, studentId: string, response: ResetResponse): (r: ResetEffect)
    ensures r.request.Some? <==> confirmed
    ensures r.alert.Some? <==> confirmed
    ensures confirmed ==> r.request == Some(studentId)
    ensures confirmed && response.ResetOk? && response.okMessage.None? ==> r.alert == Some(ResetSucceededMessage)
    ensures confirmed && response.ResetError? && response.errorMessage.None? ==> r.alert == Some(ResetFailedMessage)
    ensures confirmed && response.ResetOk? && response.okMessage.Some? && response.okMessage.value != "" ==>
      r.alert == response.okMessage
    ensures confirmed && response.ResetError? && response.errorMessage.Some? && response.errorMessage.value != "" ==>
      r.alert == response.errorMessage
    ensures confirmed && response.ResetOk? && response.okMessage == Some("") ==> r.alert == Some(ResetSucceededMessage)
    ensures confirmed && response.ResetError? && response.errorMessage == Some("") ==> r.alert == Some(ResetFailedMessage)
  {
    if !confirmed then ResetEffect(None, None)
    else
      var alert := match response
        case ResetOk(m) => OrElse(m, ResetSucceededMessage)
        case ResetError(m) => OrElse(m, ResetFailedMessage);
      ResetEffect(Some(studentId), Some(alert))
  }
}
