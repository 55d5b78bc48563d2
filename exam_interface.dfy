/**
 * The timed multiple-choice exam (src/ExamInterface.jsx): the answer map, navigation,
 * the one-hour countdown, the clock-hour submission window and the score tally.
 *
 * The remote calls are parameters: the fetched question list, the outcome of the
 * submission post, the hour read from the clock and the student's confirm answer.
 */
module ExamInterface {
  import opened Wrappers
  import opened Text
  import opened Decimal
  import Countdown
  import Arith

  /** `useState(3600)`: one hour, in seconds. */
  const ExamSeconds := 3600
  /** Submissions are accepted from 10:00 up to, not including, 18:00. */
  const WindowOpensHour := 10
  const WindowClosesHour := 18

  const LoadFailedMessage := "Failed to load exam questions. Please try again."

  /** A question as served by the test endpoint. */
  datatype Question = Question(id: string, text: string, options: seq<string>, correctAnswerIndex: int)

  /** One entry of the answer map; `None` is the `null` of an unanswered question. */
  type Answer = Option<int>

  /** What the summary shows as the student's answer: 'Not answered', or the option text (undefined when out of range). */
  datatype UserAnswer = NotAnswered | Chosen(text: Option<string>)

  datatype Detail = Detail(question: string, userAnswer: UserAnswer, correctAnswer: Option<string>, isCorrect: bool)

  /** `resultsData` without its floating-point `score` string. */
  datatype Summary = Summary(
    totalQuestions: nat,
    attempted: int,
    unanswered: int,
    correctAnswers: nat,
    wrongAnswers: int,
    details: seq<Detail>)

  /** The body of the submission post. */
  datatype Payload = Payload(answers: seq<Answer>, questionIds: seq<string>)

  /** The three outcomes the handler tells apart: success, HTTP 403, anything else. */
  datatype PostOutcome = PostOk | PostForbidden | PostFailed

  /**
   * What follows the post: `Recorded` shows no alert; the other two are the alerts for an
   * HTTP 403 and for any other failure.
   */
  datatype Notice = Recorded | AlreadySubmittedToday | SubmissionFailed

  /**
   * The outside effect of one call of the submit handler: either the window alert (no
   * request), or the post that was sent, the notice shown, and the summary handed to
   * `onComplete` when that callback was provided and the post succeeded.
   */
  datatype SubmitEffect =
    | WindowClosed
    | Reported(payload: Payload, notice: Notice, completion: Option<Summary>)

  // ---------------------------------------------------------------------------
  // Scoring

  function OptionText(options: seq<string>, k: int): Option<string>
  {
    if 0 <= k < |options| then Some(options[k]) else None
  }

  /** `selectedAnswers[index] === question.correctAnswerIndex`: a null answer is never correct. */
  predicate IsCorrect(q: Question, a: Answer)
  {
    a == Some(q.correctAnswerIndex)
  }

  function DetailOf(q: Question, a: Answer): Detail
  {
    Detail(q.text,
           if a.None? then NotAnswered else Chosen(OptionText(q.options, a.value)),
           OptionText(q.options, q.correctAnswerIndex),
           IsCorrect(q, a))
  }

  function Details(qs: seq<Question>, answers: seq<Answer>): (ds: seq<Detail>)
    requires |qs| == |answers|
  {
    seq(|qs|, i requires 0 <= i < |qs| => DetailOf(qs[i], answers[i]))
  }

  /** `Object.values(selectedAnswers).filter(v => v === null).length`. */
  function NullCount(answers: seq<Answer>): (k: nat)
    ensures k <= |answers|
  {
    if answers == [] then 0
    else NullCount(answers[..|answers| - 1]) + (if answers[|answers| - 1].None? then 1 else 0)
  }

  /** The number of questions whose stored answer equals the key; never more than the answered ones. */
  function CorrectCount(qs: seq<Question>, answers: seq<Answer>): (k: nat)
    requires |qs| == |answers|
    ensures k <= |answers| - NullCount(answers)
  {
    if qs == [] then 0
    else
      var last := |qs| - 1;
      CorrectCount(qs[..last], answers[..last]) + (if IsCorrect(qs[last], answers[last]) then 1 else 0)
  }

  /** The tally of `handleSubmitExam` for a question list and the answer map at submission. */
  function Tally(qs: seq<Question>, answers: seq<Answer>): Summary
    requires |qs| == |answers|
  {
    var n := |qs|;
    var correct := CorrectCount(qs, answers);
    var attempted := n - NullCount(answers);
    Summary(n, attempted, n - attempted, correct, attempted - correct, Details(qs, answers))
  }

  /** `correctAnswers / questions.length * 100` as an exact ratio; NaN (None) for an empty list. */
  function ScorePercent(s: Summary): Option<real>
  {
    if s.totalQuestions == 0 then None
    else Some(100.0 * s.correctAnswers as real / s.totalQuestions as real)
  }

  /** The counts partition the questions: correct + wrong + unanswered = total, and none is negative. */
  lemma TallyPartitions(qs: seq<Question>, answers: seq<Answer>)
    requires |qs| == |answers|
    ensures var s := Tally(qs, answers);
      && s.correctAnswers + s.wrongAnswers + s.unanswered == s.totalQuestions == |qs|
      && s.attempted + s.unanswered == s.totalQuestions
      && 0 <= s.wrongAnswers && 0 <= s.attempted && 0 <= s.unanswered
      && s.unanswered == NullCount(answers)
      && |s.details| == |qs|
  {
  }

  /** The score lies between 0 and 100 whenever there is a question. */
  lemma ScoreBounds(qs: seq<Question>, answers: seq<Answer>)
    requires |qs| == |answers| && |qs| > 0
    ensures ScorePercent(Tally(qs, answers)).Some?
    ensures 0.0 <= ScorePercent(Tally(qs, answers)).value <= 100.0
  {
    var s := Tally(qs, answers);
    var c, n := s.correctAnswers as real, s.totalQuestions as real;
    assert c <= n;
    Arith.DivisionBounds(100.0 * c, n, 0.0, 100.0);
  }

  /** Every entry is null exactly when the null count is the number of entries. */
  lemma {:induction false} AllNullIff(answers: seq<Answer>)
    ensures NullCount(answers) == |answers| <==> forall i :: 0 <= i < |answers| ==> answers[i].None?
  {
    if answers != [] {
      var init := answers[..|answers| - 1];
      AllNullIff(init);
      if NullCount(answers) == |answers| {
        forall i | 0 <= i < |answers| ensures answers[i].None? {
          if i < |answers| - 1 {
            assert answers[i] == init[i];
          }
        }
      }
      if forall i :: 0 <= i < |answers| ==> answers[i].None? {
        assert forall i :: 0 <= i < |init| ==> init[i] == answers[i];
      }
    }
  }

  /** No entry is null exactly when the null count is zero. */
  lemma {:induction false} NoNullIff(answers: seq<Answer>)
    ensures NullCount(answers) == 0 <==> forall i :: 0 <= i < |answers| ==> answers[i].Some?
  {
    if answers != [] {
      var init := answers[..|answers| - 1];
      NoNullIff(init);
      if NullCount(answers) == 0 {
        forall i | 0 <= i < |answers| ensures answers[i].Some? {
          if i < |answers| - 1 {
            assert answers[i] == init[i];
          }
        }
      }
      if forall i :: 0 <= i < |answers| ==> answers[i].Some? {
        assert forall i :: 0 <= i < |init| ==> init[i] == answers[i];
      }
    }
  }

  /** Full marks exactly when every stored answer equals its key. */
  lemma {:induction false} FullMarksIff(qs: seq<Question>, answers: seq<Answer>)
    requires |qs| == |answers|
    ensures CorrectCount(qs, answers) == |qs| <==> forall i :: 0 <= i < |qs| ==> IsCorrect(qs[i], answers[i])
  {
    if qs != [] {
      var last := |qs| - 1;
      FullMarksIff(qs[..last], answers[..last]);
      assert CorrectCount(qs[..last], answers[..last]) <= last;
      if forall i :: 0 <= i < |qs| ==> IsCorrect(qs[i], answers[i]) {
        assert forall i :: 0 <= i < last ==> qs[..last][i] == qs[i] && answers[..last][i] == answers[i];
      }
      if CorrectCount(qs, answers) == |qs| {
        forall i | 0 <= i < |qs| ensures IsCorrect(qs[i], answers[i]) {
          if i < last {
            assert qs[..last][i] == qs[i] && answers[..last][i] == answers[i];
          }
        }
      }
    }
  }

  /** Answering question `i` lowers the null count by one if it was unanswered, and otherwise keeps it. */
  lemma {:induction false} NullCountAfterAnswer(answers: seq<Answer>, i: nat, option: int)
    requires i < |answers|
    ensures NullCount(answers[i := Some(option)]) == NullCount(answers) - (if answers[i].None? then 1 else 0)
  {
    var updated := answers[i := Some(option)];
    var last := |answers| - 1;
    assert updated[..last] == if i < last then answers[..last][i := Some(option)] else answers[..last];
    if i < last {
      NullCountAfterAnswer(answers[..last], i, option);
    }
  }

  /** The worked example: answers [1, null, 0] against keys [1, 2, 0]. */
  lemma WorkedExample(a: Question, b: Question, c: Question)
    requires a.correctAnswerIndex == 1 && b.correctAnswerIndex == 2 && c.correctAnswerIndex == 0
    ensures var s := Tally([a, b, c], [Some(1), None, Some(0)]);
      && s.correctAnswers == 2 && s.attempted == 2 && s.unanswered == 1 && s.wrongAnswers == 0
      && ScorePercent(s) == Some(200.0 / 3.0)
  {
    var qs, answers := [a, b, c], [Some(1), None, Some(0)];
    assert qs[..2] == [a, b] && answers[..2] == [Some(1), None];
    assert [a, b][..1] == [a] && [Some(1), None][..1] == [Some(1)];
    assert [a][..0] == [] && [Some(1)][..0] == [];
    assert CorrectCount([a], [Some(1)]) == 1;
    assert CorrectCount([a, b], [Some(1), None]) == 1;
    assert CorrectCount(qs, answers) == 2;
    assert NullCount([Some(1)]) == 0;
    assert NullCount([Some(1), None]) == 1;
    assert NullCount(answers) == 1;
  }

  /**
   * The scoring loop of `handleSubmitExam`: walks the questions once, bumping the
   * correct counter and building the per-question details.
   */
  method ScoreAnswers(qs: seq<Question>, answers: seq<Answer>) returns (correct: nat, details: seq<Detail>)
    requires |qs| == |answers|
    ensures correct == CorrectCount(qs, answers)
    ensures details == Details(qs, answers)
  {
    correct, details := 0, [];
    var i := 0;
    while i < |qs|
      invariant 0 <= i <= |qs|
      invariant correct == CorrectCount(qs[..i], answers[..i])
      invariant details == Details(qs[..i], answers[..i])
    {
      assert qs[..i + 1][..i] == qs[..i] && answers[..i + 1][..i] == answers[..i];
      var d := DetailOf(qs[i], answers[i]);
      if d.isCorrect {
        correct := correct + 1;
      }
      details := details + [d];
      i := i + 1;
    }
    assert qs[..i] == qs && answers[..i] == answers;
  }

  // ---------------------------------------------------------------------------
  // The submission window and the submit handler as a function of the state

  predicate InSubmissionWindow(hour: int)
  {
    !(hour < WindowOpensHour || hour >= WindowClosesHour)
  }

  function QuestionIds(qs: seq<Question>): seq<string>
  {
    seq(|qs|, i requires 0 <= i < |qs| => qs[i].id)
  }

  function NoticeFor(post: PostOutcome): Notice
  {
    match post
    case PostOk => Recorded
    case PostForbidden => AlreadySubmittedToday
    case PostFailed => SubmissionFailed
  }

  /** Every field of the exam screen's state. */
  datatype SessionState = SessionState(
    loading: bool,
    error: Option<string>,
    questions: seq<Question>,
    currentIndex: int,
    answers: seq<Answer>,
    timeLeft: int,
    submitted: bool,
    results: Option<Summary>,
    timerRunning: bool)

  /**
   * `handleSubmitExam` on the state it reads: outside the window nothing changes and no
   * request is sent; inside it, the results and the submitted flag are set first, and
   * the outcome of the post only decides the notice and the `onComplete` call.
   */
  function Submit(s: SessionState, hour: int, post: PostOutcome, onCompleteProvided: bool): (SessionState, SubmitEffect)
    requires |s.answers| == |s.questions|
  {
    if !InSubmissionWindow(hour) then (s, WindowClosed)
    else
      var summary := Tally(s.questions, s.answers);
      (s.(results := Some(summary), submitted := true),
       Reported(Payload(s.answers, QuestionIds(s.questions)),
                NoticeFor(post),
                if post == PostOk && onCompleteProvided then Some(summary) else None))
  }

  /** A failed or refused post rolls nothing back: the state after submitting does not depend on the post's outcome. */
  lemma SubmitFinalizesBeforePost(s: SessionState, hour: int, p1: PostOutcome, p2: PostOutcome, cb: bool)
    requires |s.answers| == |s.questions|
    ensures Submit(s, hour, p1, cb).0 == Submit(s, hour, p2, cb).0
    ensures InSubmissionWindow(hour) ==> Submit(s, hour, p1, cb).0.submitted
  {
  }

  /** Outside 10:00-18:00 the handler changes nothing and sends nothing. */
  lemma SubmitOutsideWindow(s: SessionState, hour: int, post: PostOutcome, cb: bool)
    requires |s.answers| == |s.questions|
    requires !InSubmissionWindow(hour)
    ensures Submit(s, hour, post, cb) == (s, WindowClosed)
  {
  }

  /** `onComplete` receives the summary only after a successful post. */
  lemma SubmitCompletesOnlyOnSuccess(s: SessionState, hour: int, post: PostOutcome, cb: bool)
    requires |s.answers| == |s.questions|
    ensures var e := Submit(s, hour, post, cb).1;
      e.Reported? && e.completion.Some? <==> InSubmissionWindow(hour) && post == PostOk && cb
  {
  }

  /**
   * Expiry as written: the interval callback calls the `handleSubmitExam` of the first
   * render, whose `questions` and `selectedAnswers` are still the initial `[]` and `{}`,
   * while its state setters act on the live screen.
   */
  function ExpirySubmitAsWritten(live: SessionState, hour: int, post: PostOutcome, cb: bool): (SessionState, SubmitEffect)
    requires |live.answers| == |live.questions|
  {
    var (mounted, effect) := Submit(live.(questions := [], answers := []), hour, post, cb);
    (live.(results := mounted.results, submitted := mounted.submitted), effect)
  }

  /**
   * As written, an expiry inside the window finalizes an empty exam: the summary counts
   * no question, the post carries no answer, whatever the student answered.
   */
  lemma ExpiryAsWrittenDropsAnswers(live: SessionState, hour: int, post: PostOutcome, cb: bool)
    requires |live.answers| == |live.questions| > 0
    requires InSubmissionWindow(hour)
    ensures var (after, effect) := ExpirySubmitAsWritten(live, hour, post, cb);
      && after.results == Some(Summary(0, 0, 0, 0, 0, []))
      && after.results != Some(Tally(live.questions, live.answers))
      && effect.Reported? && effect.payload == Payload([], [])
  {
    assert Details([], []) == [];
  }

  // ---------------------------------------------------------------------------
  // The countdown display

  /** `formatTime`: minutes, a colon, and the seconds padded to two digits. */
  function FormatTime(seconds: nat): string
  {
    var minutes := seconds / 60;
    var rest := seconds % 60;
    NatToString(minutes) + ":" + (if rest < 10 then "0" else "") + NatToString(rest)
  }

  /** Reads an `m:ss` display back as a number of seconds. */
  function ParseClock(t: string): Option<nat>
  {
    var parts := Split(t, ':');
    if |parts| == 2 && parts[0] != "" && |parts[1]| == 2 && AllDigits(parts[0]) && AllDigits(parts[1])
       && ParseDigits(parts[1]) < 60
    then Some(ParseDigits(parts[0]) * 60 + ParseDigits(parts[1]))
    else None
  }

  lemma DigitsHaveNoColon(s: string)
    requires AllDigits(s)
    ensures ':' !in s
  {
  }

  /** The display always reads back as the seconds it shows: minutes * 60 + seconds = the input. */
  lemma ParseFormatTime(seconds: nat)
    ensures ParseClock(FormatTime(seconds)) == Some(seconds)
  {
    var minutes, rest := seconds / 60, seconds % 60;
    var m := NatToString(minutes);
    var sec := (if rest < 10 then "0" else "") + NatToString(rest);
    assert FormatTime(seconds) == m + [':'] + sec;
    assert AllDigits(sec);
    DigitsHaveNoColon(m);
    DigitsHaveNoColon(sec);
    SplitAfterPiece(m, ':', sec);
    SplitWithoutSeparator(sec, ':');
    NatToStringLength(rest);
    ParseNatToString(minutes);
    ParseNatToString(rest);
    if rest < 10 {
      ParseLeadingZero(NatToString(rest));
    }
  }

  // ---------------------------------------------------------------------------
  // The exam screen

  /** What the screen renders, in the order the component checks. */
  datatype Screen =
    | LoadingScreen
    | ErrorScreen(message: string)
    | NoQuestionsScreen
    | SummaryScreen(results: Summary)
    | QuestionScreen(index: nat, previousDisabled: bool, showsNext: bool, submitDisabled: bool)

  class ExamSession {
    var loading: bool
    var error: Option<string>
    var questions: seq<Question>
    var currentIndex: int
    /** `selectedAnswers`: entry i is the answer to question i. */
    var answers: seq<Answer>
    var timeLeft: int
    var submitted: bool
    var results: Option<Summary>
    /** The one-second interval is still set. */
    var timerRunning: bool
    /** Whether the parent passed an `onComplete` callback. */
    const onCompleteProvided: bool

    ghost function State(): SessionState
      reads this
    {
      SessionState(loading, error, questions, currentIndex, answers, timeLeft, submitted, results, timerRunning)
    }

    ghost predicate Valid()
      reads this
    {
      && |answers| == |questions|
      && 0 <= currentIndex
      && (currentIndex == 0 || currentIndex < |questions|)
      && 0 <= timeLeft <= ExamSeconds
      && (timerRunning <==> timeLeft > 0)
      && (loading ==> questions == [] && currentIndex == 0 && error.None?)
      && (submitted ==> results.Some?)
    }

    /** The state at mount: loading, an empty answer map, one hour on the clock. */
    constructor (onComplete: bool)
      ensures Valid()
      ensures State() == SessionState(true, None, [], 0, [], ExamSeconds, false, None, true)
      ensures onCompleteProvided == onComplete
    {
      loading, error, questions, currentIndex, answers := true, None, [], 0, [];
      timeLeft, submitted, results, timerRunning := ExamSeconds, false, None, true;
      onCompleteProvided := onComplete;
    }

    /**
     * The question fetch resolves (`Some(list)`) or fails (`None`). On success there is
     * one answer entry per question index and every entry is null.
     */
    method FinishLoad(fetched: Option<seq<Question>>)
      requires Valid() && loading
      modifies this
      ensures Valid()
      ensures fetched.Some? ==>
        && State() == old(State()).(loading := false, questions := fetched.value,
                                    answers := seq(|fetched.value|, _ => None))
        && |answers| == |questions|
        && forall i :: 0 <= i < |answers| ==> answers[i] == None
      ensures fetched.None? ==>
        State() == old(State()).(loading := false, error := Some(LoadFailedMessage))
    {
      if fetched.Some? {
        questions := fetched.value;
        var initial: seq<Answer> := [];
        var i := 0;
        while i < |fetched.value|
          invariant 0 <= i <= |fetched.value|
          invariant initial == seq(i, _ => None)
        {
          initial := initial + [None];
          i := i + 1;
        }
        answers := initial;
        loading := false;
      } else {
        error := Some(LoadFailedMessage);
        loading := false;
      }
    }

    /** `handleAnswerSelect`: overwrite entry `questionIndex`, keep every other entry. */
    method SelectAnswer(questionIndex: int, optionIndex: int)
      requires Valid() && 0 <= questionIndex < |questions|
      modifies this
      ensures Valid()
      ensures State() == old(State()).(answers := old(answers)[questionIndex := Some(optionIndex)])
      ensures answers[questionIndex] == Some(optionIndex)
      ensures forall i :: 0 <= i < |answers| && i != questionIndex ==> answers[i] == old(answers)[i]
      ensures NullCount(answers) == old(NullCount(answers)) - (if old(answers)[questionIndex].None? then 1 else 0)
    {
      NullCountAfterAnswer(answers, questionIndex, optionIndex);
      answers := answers[questionIndex := Some(optionIndex)];
    }

    /** `goToNextQuestion`: one step forward unless already at the last question. */
    method NextQuestion()
      requires Valid()
      modifies this
      ensures Valid()
      ensures State() == old(State()).(currentIndex :=
        if old(currentIndex) < |questions| - 1 then old(currentIndex) + 1 else old(currentIndex))
    {
      if currentIndex < |questions| - 1 {
        currentIndex := currentIndex + 1;
      }
    }

    /** `goToPreviousQuestion`: one step back unless already at the first question. */
    method PreviousQuestion()
      requires Valid()
      modifies this
      ensures Valid()
      ensures State() == old(State()).(currentIndex :=
        if old(currentIndex) > 0 then old(currentIndex) - 1 else old(currentIndex))
    {
      if currentIndex > 0 {
        currentIndex := currentIndex - 1;
      }
    }

    /** A question-number button: jump straight to that question. */
    method JumpTo(index: int)
      requires Valid() && 0 <= index < |questions|
      modifies this
      ensures Valid()
      ensures State() == old(State()).(currentIndex := index)
    {
      currentIndex := index;
    }

    /** `handleSubmitExam`, scoring the live answer map. */
    method SubmitExam(hour: int, post: PostOutcome) returns (effect: SubmitEffect)
      requires Valid()
      modifies this
      ensures Valid()
      ensures (State(), effect) == Submit(old(State()), hour, post, onCompleteProvided)
    {
      if !InSubmissionWindow(hour) {
        return WindowClosed;
      }
      ghost var before := State();
      var correct, details := ScoreAnswers(questions, answers);
      var n := |questions|;
      var attempted := n - NullCount(answers);
      var summary := Summary(n, attempted, n - attempted, correct, attempted - correct, details);
      assert summary == Tally(questions, answers);
      results := Some(summary);
      submitted := true;
      assert State() == before.(results := Some(summary), submitted := true);
      var payload := Payload(answers, QuestionIds(questions));
      var completion := if post == PostOk && onCompleteProvided then Some(summary) else None;
      effect := Reported(payload, NoticeFor(post), completion);
    }

    /**
     * `confirmSubmit`: with unanswered questions, the prompt quotes their number and the
     * handler runs only if the student confirms; with none, it runs straight away.
     */
    method ConfirmSubmit(confirmed: bool, hour: int, post: PostOutcome)
      returns (prompt: Option<nat>, effect: Option<SubmitEffect>)
      requires Valid()
      modifies this
      ensures Valid()
      ensures prompt == if old(NullCount(answers)) > 0 then Some(old(NullCount(answers))) else None
      ensures effect.Some? <==> prompt.None? || confirmed
      ensures effect.None? ==> State() == old(State())
      ensures effect.Some? ==> (State(), effect.value) == Submit(old(State()), hour, post, onCompleteProvided)
    {
      var unansweredCount := NullCount(answers);
      if unansweredCount > 0 {
        prompt := Some(unansweredCount);
        if confirmed {
          var e := SubmitExam(hour, post);
          effect := Some(e);
        } else {
          effect := None;
        }
      } else {
        prompt := None;
        var e := SubmitExam(hour, post);
        effect := Some(e);
      }
    }

    /**
     * One interval callback: above 1 the clock loses a second; at 1 or below the
     * interval is cleared, the clock shows 0 and the submit handler runs. Nothing checks
     * `submitted`, so an expiry after a manual submission submits again.
     */
    method Tick(hour: int, post: PostOutcome) returns (effect: Option<SubmitEffect>)
      requires Valid() && timerRunning
      modifies this
      ensures Valid()
      ensures timeLeft == Countdown.Next(old(timeLeft)) && timeLeft < old(timeLeft)
      ensures effect.Some? <==> Countdown.Expires(old(timeLeft))
      ensures !Countdown.Expires(old(timeLeft)) ==> State() == old(State()).(timeLeft := old(timeLeft) - 1)
      ensures Countdown.Expires(old(timeLeft)) ==>
        (State(), effect.value) == Submit(old(State()).(timeLeft := 0, timerRunning := false), hour, post, onCompleteProvided)
    {
      if timeLeft <= 1 {
        timerRunning := false;
        timeLeft := 0;
        var e := SubmitExam(hour, post);
        effect := Some(e);
      } else {
        timeLeft := timeLeft - 1;
        effect := None;
      }
    }

    /** `isSubmitDisabled`: every entry of the answer map is null. */
    function SubmitDisabled(): (disabled: bool)
      reads this
      requires Valid()
      ensures disabled <==> NullCount(answers) == |answers|
    {
      AllNullIff(answers);
      forall i | 0 <= i < |answers| :: answers[i].None?
    }

    /** The render: the question view only ever shows an existing question. */
    function View(): (s: Screen)
      reads this
      requires Valid()
      ensures loading ==> s == LoadingScreen
      ensures !loading && error.Some? ==> s == ErrorScreen(error.value)
      ensures !loading && error.None? && |questions| == 0 ==> s == NoQuestionsScreen
      ensures s.SummaryScreen? <==> !loading && error.None? && |questions| > 0 && submitted
      ensures s.SummaryScreen? ==> Some(s.results) == results
      ensures s.QuestionScreen? <==> !loading && error.None? && |questions| > 0 && !submitted
      ensures s.QuestionScreen? ==>
        && s.index == currentIndex && s.index < |questions|
        && (s.previousDisabled <==> currentIndex == 0)
        && (s.showsNext <==> s.index < |questions| - 1)
        && (s.submitDisabled <==> NullCount(answers) == |answers|)
    {
      if loading then LoadingScreen
      else if error.Some? then ErrorScreen(error.value)
      else if |questions| == 0 then NoQuestionsScreen
      else if submitted then SummaryScreen(results.value)
      else QuestionScreen(currentIndex, currentIndex == 0, currentIndex < |questions| - 1, SubmitDisabled())
    }
  }
}
