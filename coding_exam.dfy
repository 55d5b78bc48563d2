/**
 * The timed coding exercise (src/CodingExam.jsx): the first question of the day is
 * selected on load, a 15-minute countdown runs, and the Run and Submit actions post the
 * code for compilation. Reaching zero submits nothing: it only locks the editor and the
 * two buttons.
 */
module CodingExam {
  import opened Wrappers
  import Countdown

  /** `useState(900)`: fifteen minutes, in seconds. */
  const CodingSeconds := 900

  datatype Language = Cpp | Java | Python

  /** `starterCode: { cpp, java, python }`; a missing entry is `undefined`. */
  datatype StarterCode = StarterCode(cpp: Option<string>, java: Option<string>, python: Option<string>)

  datatype CodingQuestion = CodingQuestion(id: string, title: string, description: string, starterCode: StarterCode)

  datatype TestResult = TestResult(pass: bool, input: string, expected: string, actual: string)

  /** The body the compile endpoint answers with. */
  datatype RunReport = RunReport(results: seq<TestResult>, passedCount: int, total: int)

  datatype CompileOutcome = Compiled(report: RunReport) | CompileFailed

  /** The body of a compile post. */
  datatype CompileRequest = CompileRequest(code: string, language: Language, questionId: string, studentId: Option<string>)

  function StarterEntry(q: CodingQuestion, lang: Language): Option<string>
  {
    match lang
    case Cpp => q.starterCode.cpp
    case Java => q.starterCode.java
    case Python => q.starterCode.python
  }

  /** `first.starterCode[language] || ''`: the starter code for the language, or empty when there is none. */
  function StarterFor(q: CodingQuestion, lang: Language): (code: string)
    ensures StarterEntry(q, lang).Some? ==> code == StarterEntry(q, lang).value
    ensures StarterEntry(q, lang).None? ==> code == ""
  {
    var entry := StarterEntry(q, lang);
    if entry.Some? && entry.value != "" then entry.value else ""
  }

  /** Every field of the coding screen's state. */
  datatype CodingState = CodingState(
    questions: seq<CodingQuestion>,
    selected: Option<CodingQuestion>,
    language: Language,
    code: string,
    timer: int,
    results: Option<RunReport>,
    finalSubmitted: bool,
    timerRunning: bool)

  class CodingSession {
    var questions: seq<CodingQuestion>
    var selected: Option<CodingQuestion>
    var language: Language
    var code: string
    var timer: int
    var results: Option<RunReport>
    var finalSubmitted: bool
    /** The one-second interval is still set. */
    var timerRunning: bool
    /** `localStorage.getItem('studentId')`, read once at render. */
    const studentId: Option<string>

    ghost function State(): CodingState
      reads this
    {
      CodingState(questions, selected, language, code, timer, results, finalSubmitted, timerRunning)
    }

    ghost predicate Valid()
      reads this
    {
      0 <= timer <= CodingSeconds && (timerRunning <==> timer > 0)
    }

    /** Editor read-only, Run and Submit disabled: `finalSubmitted || timer === 0`. */
    predicate Locked()
      reads this
    {
      finalSubmitted || timer == 0
    }

    constructor (storedStudentId: Option<string>)
      ensures Valid() && !Locked()
      ensures State() == CodingState([], None, Cpp, "", CodingSeconds, None, false, true)
      ensures studentId == storedStudentId
    {
      questions, selected, language, code := [], None, Cpp, "";
      timer, results, finalSubmitted, timerRunning := CodingSeconds, None, false, true;
      studentId := storedStudentId;
    }

    /**
     * The questions of the day arrive (the fetch runs on mount and again after every
     * language change). A non-empty list selects its first question and loads that
     * question's starter code for the current language; an empty list changes nothing else.
     */
    method QuestionsFetched(fetched: seq<CodingQuestion>)
      requires Valid()
      modifies this
      ensures Valid()
      ensures |fetched| > 0 ==>
        State() == old(State()).(questions := fetched, selected := Some(fetched[0]),
                                 code := StarterFor(fetched[0], old(language)))
      ensures |fetched| == 0 ==> State() == old(State()).(questions := fetched)
    {
      questions := fetched;
      if |fetched| > 0 {
        var first := fetched[0];
        selected := Some(first);
        code := StarterFor(first, language);
      }
    }

    /** The language selector; it stays usable after the lock. */
    method ChangeLanguage(lang: Language)
      requires Valid()
      modifies this
      ensures Valid()
      ensures State() == old(State()).(language := lang)
    {
      language := lang;
    }

    /** One interval callback. Expiry only stops the interval: nothing is submitted or stored. */
    method Tick()
      requires Valid() && timerRunning
      modifies this
      ensures Valid()
      ensures timer == Countdown.Next(old(timer)) && timer < old(timer)
      ensures timerRunning <==> !Countdown.Expires(old(timer))
      ensures State() == old(State()).(timer := timer, timerRunning := timerRunning)
      ensures Countdown.Expires(old(timer)) ==> Locked()
    {
      if timer <= 1 {
        timerRunning := false;
        timer := 0;
      } else {
        timer := timer - 1;
      }
    }

    /** Typing in the editor; a read-only editor takes no edit. */
    method EditCode(text: string)
      requires Valid()
      modifies this
      ensures Valid()
      ensures State() == if old(Locked()) then old(State()) else old(State()).(code := text)
    {
      if !Locked() {
        code := text;
      }
    }

    /**
     * The Run button: disabled while locked; `handleRun` returns at once without a
     * selected question, and otherwise posts the code and stores the report it gets back.
     * It never sets `finalSubmitted`.
     */
    method ClickRun(outcome: CompileOutcome) returns (request: Option<CompileRequest>)
      requires Valid()
      modifies this
      ensures Valid()
      ensures request.Some? <==> !old(Locked()) && old(selected).Some?
      ensures request.Some? ==>
        request.value == CompileRequest(old(code), old(language), old(selected).value.id, studentId)
      ensures State() ==
        if request.Some? && outcome.Compiled? then old(State()).(results := Some(outcome.report))
        else old(State())
      ensures finalSubmitted == old(finalSubmitted)
    {
      if Locked() || selected.None? {
        return None;
      }
      request := Some(CompileRequest(code, language, selected.value.id, studentId));
      if outcome.Compiled? {
        results := Some(outcome.report);
      }
    }

    /**
     * The Submit button: as Run, and a successful post also sets `finalSubmitted`,
     * which locks the screen for good.
     */
    method ClickSubmit(outcome: CompileOutcome) returns (request: Option<CompileRequest>)
      requires Valid()
      modifies this
      ensures Valid()
      ensures request.Some? <==> !old(Locked()) && old(selected).Some?
      ensures request.Some? ==>
        request.value == CompileRequest(old(code), old(language), old(selected).value.id, studentId)
      ensures State() ==
        if request.Some? && outcome.Compiled? then old(State()).(results := Some(outcome.report), finalSubmitted := true)
        else old(State())
      ensures old(finalSubmitted) ==> finalSubmitted
    {
      if Locked() || selected.None? {
        return None;
      }
      request := Some(CompileRequest(code, language, selected.value.id, studentId));
      if outcome.Compiled? {
        results := Some(outcome.report);
        finalSubmitted := true;
      }
    }
  }

  /** One thing that can happen to the coding screen. */
  datatype Event =
    | LanguageChosen(lang: Language)
    | Fetched(list: seq<CodingQuestion>)
    | Typed(text: string)
    | RunClicked(runOutcome: CompileOutcome)
    | SubmitClicked(submitOutcome: CompileOutcome)
    | IntervalFired

  /**
   * Once locked, the screen stays locked whatever happens next: replaying any sequence of
   * events never clears `finalSubmitted`, never raises the timer, and sends no compile
   * request. A cleared interval does not fire, so `IntervalFired` is a no-op after expiry.
   */
  method LockIsPermanent(s: CodingSession, events: seq<Event>) returns (sentAny: bool)
    requires s.Valid() && s.Locked()
    modifies s
    ensures s.Valid() && s.Locked()
    ensures old(s.finalSubmitted) ==> s.finalSubmitted
    ensures s.timer <= old(s.timer)
    ensures !sentAny
  {
    sentAny := false;
    var i := 0;
    while i < |events|
      invariant 0 <= i <= |events|
      invariant s.Valid() && s.Locked()
      invariant old(s.finalSubmitted) ==> s.finalSubmitted
      invariant s.timer <= old(s.timer)
      invariant !sentAny
    {
      match events[i] {
        case LanguageChosen(lang) =>
          s.ChangeLanguage(lang);
        case Fetched(list) =>
          s.QuestionsFetched(list);
        case Typed(text) =>
          s.EditCode(text);
        case RunClicked(outcome) =>
          var r := s.ClickRun(outcome);
          sentAny := sentAny || r.Some?;
        case SubmitClicked(outcome) =>
          var r := s.ClickSubmit(outcome);
          sentAny := sentAny || r.Some?;
        case IntervalFired =>
          if s.timerRunning {
            s.Tick();
          }
      }
      i := i + 1;
    }
  }
}
