/**
 * The student's dashboard (src/StudentDashboard.jsx): the once-per-day check against the
 * stored results, the two start-test buttons, the average score and the avatar initial.
 * The current time is a parameter: the ISO timestamp `new Date().toISOString()`.
 */
module StudentDashboard {
  import opened Wrappers
  import opened Text
  import Arith

  const McqExamRoute := "/exam"
  const CodingExamRoute := "/coding-exam"

  /** An entry of the results endpoint; only its date matters here. */
  datatype ResultEntry = ResultEntry(date: string)

  /** An entry of the result summary. */
  datatype ScoreEntry = ScoreEntry(date: string, score: real)

  /** `toISOString().slice(0, 10)`: the UTC calendar date `YYYY-MM-DD`. */
  function TodayOf(isoNow: string): (today: string)
    ensures |today| == if |isoNow| < 10 then |isoNow| else 10
    ensures StartsWith(isoNow, today)
  {
    isoNow[..if |isoNow| < 10 then |isoNow| else 10]
  }

  /** `entries.some(entry => entry.date.startsWith(today))`. */
  function SomeDateStartsWith(entries: seq<ResultEntry>, today: string): (r: bool)
    ensures r <==> exists i :: 0 <= i < |entries| && StartsWith(entries[i].date, today)
  {
    if entries == [] then false
    else
      var rest := SomeDateStartsWith(entries[1..], today);
      assert forall i :: 1 <= i < |entries| ==> entries[i] == entries[1..][i - 1];
      StartsWith(entries[0].date, today) || rest
  }

  /** The check of `checkTodaySubmission`: some stored result is dated today. */
  function SubmittedToday(entries: seq<ResultEntry>, isoNow: string): bool
  {
    SomeDateStartsWith(entries, TodayOf(isoNow))
  }

  /** A result stamped earlier the same UTC day counts; one from any other day does not. */
  lemma SubmittedTodayIff(entries: seq<ResultEntry>, isoNow: string)
    requires |isoNow| >= 10
    ensures SubmittedToday(entries, isoNow) <==>
      exists i :: 0 <= i < |entries| && |entries[i].date| >= 10 && entries[i].date[..10] == isoNow[..10]
  {
    var today := TodayOf(isoNow);
    if SubmittedToday(entries, isoNow) {
      var i :| 0 <= i < |entries| && StartsWith(entries[i].date, today);
      assert entries[i].date[..10] == today;
    }
    if exists i :: 0 <= i < |entries| && |entries[i].date| >= 10 && entries[i].date[..10] == isoNow[..10] {
      var i :| 0 <= i < |entries| && |entries[i].date| >= 10 && entries[i].date[..10] == isoNow[..10];
      assert StartsWith(entries[i].date, today);
    }
  }

  /**
   * Appending a result stamped on the same UTC day makes the check succeed; appending one
   * stamped on another day leaves its answer unchanged.
   */
  lemma {:induction false} NewResultDecidesToday(entries: seq<ResultEntry>, stamp: string, isoNow: string)
    requires |isoNow| >= 10 && |stamp| >= 10
    ensures stamp[..10] == isoNow[..10] ==> SubmittedToday(entries + [ResultEntry(stamp)], isoNow)
    ensures stamp[..10] != isoNow[..10] ==>
      SubmittedToday(entries + [ResultEntry(stamp)], isoNow) == SubmittedToday(entries, isoNow)
  {
    var more := entries + [ResultEntry(stamp)];
    SubmittedTodayIff(entries, isoNow);
    SubmittedTodayIff(more, isoNow);
    assert more[|entries|] == ResultEntry(stamp);
    assert forall i :: 0 <= i < |entries| ==> more[i] == entries[i];
  }

  // ---------------------------------------------------------------------------
  // Average score

  /** `summaryData.reduce((sum, r) => sum + r.score, 0)`. */
  function SumScores(entries: seq<ScoreEntry>): real
  {
    if entries == [] then 0.0 else SumScores(entries[..|entries| - 1]) + entries[|entries| - 1].score
  }

  /** The sum divided by the count, or by 1 when there is no entry. */
  function AverageScore(entries: seq<ScoreEntry>): real
  {
    SumScores(entries) / (if |entries| == 0 then 1 else |entries|) as real
  }

  /** With no results the average is 0; otherwise the average times the count is the sum. */
  lemma AverageScoreSpec(entries: seq<ScoreEntry>)
    ensures entries == [] ==> AverageScore(entries) == 0.0
    ensures entries != [] ==> AverageScore(entries) * |entries| as real == SumScores(entries)
  {
  }

  lemma {:induction false} SumScoresBounds(entries: seq<ScoreEntry>, lo: real, hi: real)
    requires forall i :: 0 <= i < |entries| ==> lo <= entries[i].score <= hi
    ensures lo * |entries| as real <= SumScores(entries) <= hi * |entries| as real
  {
    if entries != [] {
      var init := entries[..|entries| - 1];
      assert forall i :: 0 <= i < |init| ==> init[i] == entries[i];
      SumScoresBounds(init, lo, hi);
    }
  }

  /** The average lies between the lowest and the highest score. */
  lemma AverageScoreBounds(entries: seq<ScoreEntry>, lo: real, hi: real)
    requires entries != []
    requires forall i :: 0 <= i < |entries| ==> lo <= entries[i].score <= hi
    ensures lo <= AverageScore(entries) <= hi
  {
    SumScoresBounds(entries, lo, hi);
    Arith.DivisionBounds(SumScores(entries), |entries| as real, lo, hi);
  }

  // ---------------------------------------------------------------------------
  // Avatar initial

  /** `studentData?.name ? name[0].toUpperCase() : '?'`: one character, the name's first letter up to case. */
  function StudentInitial(name: Option<string>): (r: string)
    ensures |r| == 1
    ensures name.None? || name == Some("") ==> r == "?"
    ensures name.Some? && name.value != "" ==>
      LowerChar(r[0]) == LowerChar(name.value[0]) && !IsLowerAscii(r[0])
  {
    if name.Some? && name.value != "" then [UpperChar(name.value[0])] else "?"
  }

  // ---------------------------------------------------------------------------
  // The dashboard's flags

  datatype DashboardState = DashboardState(
    alreadySubmitted: bool,
    alreadySubmittedCode: bool,
    showInstructions: bool,
    showSubmissionModal: bool,
    showCodeModal: bool,
    route: Option<string>)

  class Dashboard {
    var alreadySubmitted: bool
    var alreadySubmittedCode: bool
    var showInstructions: bool
    var showSubmissionModal: bool
    var showCodeModal: bool
    /** The route last handed to `navigate`, if any. */
    var route: Option<string>

    ghost function State(): DashboardState
      reads this
    {
      DashboardState(alreadySubmitted, alreadySubmittedCode, showInstructions, showSubmissionModal, showCodeModal, route)
    }

    constructor ()
      ensures State() == DashboardState(false, false, false, false, false, None)
    {
      alreadySubmitted, alreadySubmittedCode := false, false;
      showInstructions, showSubmissionModal, showCodeModal := false, false, false;
      route := None;
    }

    /** `checkTodaySubmission`: a failed fetch leaves the flag as it was. */
    method CheckTodaySubmission(fetched: Option<seq<ResultEntry>>, isoNow: string)
      modifies this
      ensures fetched.None? ==> State() == old(State())
      ensures fetched.Some? ==> State() == old(State()).(alreadySubmitted := SubmittedToday(fetched.value, isoNow))
    {
      if fetched.Some? {
        alreadySubmitted := SomeDateStartsWith(fetched.value, TodayOf(isoNow));
      }
    }

    /** `checkCodeSubmission`: the endpoint's `submitted` flag; a failed fetch changes nothing. */
    method CheckCodeSubmission(fetched: Option<bool>)
      modifies this
      ensures State() == if fetched.Some? then old(State()).(alreadySubmittedCode := fetched.value) else old(State())
    {
      if fetched.Some? {
        alreadySubmittedCode := fetched.value;
      }
    }

    /** `handleStartMCQTest`: exactly one of the two modals is raised, by the today check. */
    method StartMcqTest()
      modifies this
      ensures alreadySubmitted ==> State() == old(State()).(showSubmissionModal := true)
      ensures !alreadySubmitted ==> State() == old(State()).(showInstructions := true)
    {
      if alreadySubmitted {
        showSubmissionModal := true;
      } else {
        showInstructions := true;
      }
    }

    /** `handleStartCodingTest`: the code modal when already submitted, otherwise the coding exam. */
    method StartCodingTest()
      modifies this
      ensures alreadySubmittedCode ==> State() == old(State()).(showCodeModal := true)
      ensures !alreadySubmittedCode ==> State() == old(State()).(route := Some(CodingExamRoute))
    {
      if alreadySubmittedCode {
        showCodeModal := true;
      } else {
        route := Some(CodingExamRoute);
      }
    }

    /** `handleConfirmStart`: the instructions' Start button opens the exam. */
    method ConfirmStart()
      modifies this
      ensures State() == old(State()).(route := Some(McqExamRoute))
    {
      route := Some(McqExamRoute);
    }

    /** The instructions' Cancel button. */
    method CancelInstructions()
      modifies this
      ensures State() == old(State()).(showInstructions := false)
    {
      showInstructions := false;
    }

    /** The OK button of the already-submitted modal. */
    method CloseSubmissionModal()
      modifies this
      ensures State() == old(State()).(showSubmissionModal := false)
    {
      showSubmissionModal := false;
    }

    /** The OK button of the coding already-submitted modal. */
    method CloseCodeModal()
      modifies this
      ensures State() == old(State()).(showCodeModal := false)
    {
      showCodeModal := false;
    }
  }
}
