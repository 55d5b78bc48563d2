/**
 * The admin's question-bank page (src/ManageQuestions.jsx): the add-question form whose
 * option inputs are addressed by name (`option0` ... `option3`), the admin check on load,
 * the two uploads, and the avatar initials.
 */
module ManageQuestions {
  import opened Wrappers
  import opened Text
  import opened Decimal
  import opened Forms

  const AccessDeniedMessage := "\U{274C} Access denied. You are not an admin."
  const UnauthorizedMessage := "\U{274C} Unauthorized access or failed to fetch admin data."
  const AddFailedMessage := "Failed to upload question"
  const ExcelFailedMessage := "Excel upload failed"

  const OptionPrefix := "option"

  /** The form fields other than the options, with their initial values. */
  const InitialFields: map<string, FormValue> :=
    map["companyId" := Text(""), "subject" := Text(""), "question" := Text(""), "correctAnswerIndex" := Num(0)]

  const InitialOptions: seq<string> := ["", "", "", ""]

  /** The `name` of the input for option `k`. */
  function OptionFieldName(k: nat): string
  {
    OptionPrefix + NatToString(k)
  }

  /** A name the rendered form sends: a named field, or `option{k}` for an existing option. */
  predicate IsFormInputName(name: string, optionCount: nat)
  {
    name in InitialFields || exists k :: 0 <= k < optionCount && name == OptionFieldName(k)
  }

  lemma NamedFieldsAreNotOptions(name: string)
    requires name in InitialFields
    ensures !StartsWith(name, OptionPrefix)
  {
    assert name == "companyId" || name == "subject" || name == "question" || name == "correctAnswerIndex";
    assert name[0] != 'o';
  }

  /** The endpoint's answer about the signed-in user. */
  datatype AdminFetch = Profile(role: Option<string>, name: Option<string>) | AdminFetchFailed

  /** The answer of an upload post: the server's message on success, its message if any on failure. */
  datatype UploadOutcome = Uploaded(message: string) | UploadFailed(reason: Option<string>)

  /** The body of the add-question post: `formData`, options included. */
  datatype QuestionPayload = QuestionPayload(fields: map<string, FormValue>, options: seq<string>)

  datatype PageState = PageState(
    fields: map<string, FormValue>,
    options: seq<string>,
    excelFile: Option<string>,
    message: string,
    error: string,
    adminName: string)

  class ManageQuestionsPage {
    /** `formData` without its `options` array. */
    var fields: map<string, FormValue>
    /** `formData.options`. */
    var options: seq<string>
    var excelFile: Option<string>
    var message: string
    var error: string
    var adminName: string

    ghost function State(): PageState
      reads this
    {
      PageState(fields, options, excelFile, message, error, adminName)
    }

    /** The initial form: empty text fields, four empty options, `correctAnswerIndex` 0. */
    constructor ()
      ensures State() == PageState(InitialFields, InitialOptions, None, "", "", "")
      ensures |options| == 4 && fields["correctAnswerIndex"] == Num(0)
    {
      fields, options := InitialFields, InitialOptions;
      excelFile, message, error, adminName := None, "", "", "";
    }

    /**
     * `handleInputChange`: a name starting with `option` rewrites the option its suffix
     * numbers and nothing else; any other name stores the typed string under that name.
     */
    method HandleInputChange(name: string, value: string)
      requires IsFormInputName(name, |options|)
      modifies this
      ensures |options| == |old(options)|
      ensures forall k :: 0 <= k < |options| && name == OptionFieldName(k) ==>
        State() == old(State()).(options := old(options)[k := value])
      ensures name in InitialFields ==>
        State() == old(State()).(fields := old(fields)[name := Text(value)])
    {
      if StartsWith(name, OptionPrefix) {
        if name in InitialFields {
          NamedFieldsAreNotOptions(name);
          assert false;
        }
        ghost var k :| 0 <= k < |options| && name == OptionFieldName(k);
        var suffix := name[|OptionPrefix|..];
        assert suffix == NatToString(k);
        ParseNatToString(k);
        var index := ParseDigits(suffix);
        forall j | 0 <= j < |options| && name == OptionFieldName(j) ensures j == index {
          assert suffix == NatToString(j);
          ParseNatToString(j);
        }
        var newOptions := options;
        newOptions := newOptions[index := value];
        options := newOptions;
      } else {
        forall k | 0 <= k < |options| ensures name != OptionFieldName(k) {
          assert StartsWith(OptionFieldName(k), OptionPrefix);
        }
        fields := fields[name := Text(value)];
      }
    }

    /**
     * `fetchAdminName`: any role other than `admin` (a missing one included) sets the
     * access-denied error and leaves the name unset; an admin's name is shown, or `Admin`.
     */
    method FetchAdminName(outcome: AdminFetch)
      modifies this
      ensures outcome.AdminFetchFailed? ==> State() == old(State()).(error := UnauthorizedMessage)
      ensures outcome.Profile? && outcome.role != Some("admin") ==>
        State() == old(State()).(error := AccessDeniedMessage)
      ensures outcome.Profile? && outcome.role == Some("admin") ==>
        State() == old(State()).(adminName := OrElse(outcome.name, "Admin"))
      ensures outcome.Profile? && outcome.role == Some("admin") ==> adminName != ""
    {
      match outcome
      case AdminFetchFailed =>
        error := UnauthorizedMessage;
      case Profile(role, name) =>
        if role != Some("admin") {
          error := AccessDeniedMessage;
        } else {
          adminName := OrElse(name, "Admin");
        }
    }

    /** `handleAddQuestion`: posts the whole form, then shows the server's message or the error. */
    method HandleAddQuestion(outcome: UploadOutcome) returns (posted: QuestionPayload)
      modifies this
      ensures posted == QuestionPayload(old(fields), old(options))
      ensures outcome.Uploaded? ==> State() == old(State()).(message := outcome.message, error := "")
      ensures outcome.UploadFailed? ==>
        State() == old(State()).(error := OrElse(outcome.reason, AddFailedMessage), message := "")
    {
      posted := QuestionPayload(fields, options);
      match outcome
      case Uploaded(m) =>
        message, error := m, "";
      case UploadFailed(reason) =>
        error, message := OrElse(reason, AddFailedMessage), "";
    }

    /** The file input of the Excel form. */
    method ChooseExcelFile(file: Option<string>)
      modifies this
      ensures State() == old(State()).(excelFile := file)
    {
      excelFile := file;
    }

    /** `handleExcelUpload`: without a chosen file nothing is sent and nothing changes. */
    method HandleExcelUpload(outcome: UploadOutcome) returns (sent: bool)
      modifies this
      ensures sent <==> old(excelFile).Some?
      ensures !sent ==> State() == old(State())
      ensures sent && outcome.Uploaded? ==> State() == old(State()).(message := outcome.message, error := "")
      ensures sent && outcome.UploadFailed? ==>
        State() == old(State()).(error := OrElse(outcome.reason, ExcelFailedMessage), message := "")
    {
      if excelFile.None? {
        return false;
      }
      sent := true;
      match outcome
      case Uploaded(m) =>
        message, error := m, "";
      case UploadFailed(reason) =>
        error, message := OrElse(reason, ExcelFailedMessage), "";
    }
  }

  // ---------------------------------------------------------------------------
  // Avatar initials

  /** `words.map(n => n[0]).join('')`: an empty word contributes nothing. */
  function FirstChars(words: seq<string>): (r: string)
    ensures |r| <= |words|
    ensures forall i :: 0 <= i < |r| ==> exists w :: w in words && w != "" && r[i] == w[0]
  {
    if words == [] then ""
    else
      var rest := FirstChars(words[1..]);
      assert forall w :: w in words[1..] ==> w in words;
      if words[0] == "" then rest else [words[0][0]] + rest
  }

  /**
   * `initials`: `AD` for an empty name; otherwise the upper-cased first characters of the
   * space-separated words, at most one per word, none of them a space.
   */
  function AdminInitials(adminName: string): (r: string)
    ensures adminName == "" ==> r == "AD"
    ensures adminName != "" ==> |r| <= |Split(adminName, ' ')|
    ensures adminName != "" ==> forall i :: 0 <= i < |r| ==> r[i] != ' ' && !IsLowerAscii(r[i])
  {
    if adminName == "" then "AD"
    else
      var words := Split(adminName, ' ');
      SplitPartsHaveNoSeparator(adminName, ' ');
      var firsts := FirstChars(words);
      assert forall i :: 0 <= i < |firsts| ==> firsts[i] != ' ';
      Upper(firsts)
  }

  lemma {:induction false} FirstCharsOfWords(words: seq<string>)
    requires forall i :: 0 <= i < |words| ==> words[i] != ""
    ensures FirstChars(words) == seq(|words|, i requires 0 <= i < |words| => words[i][0])
  {
    if words != [] {
      FirstCharsOfWords(words[1..]);
    }
  }

  /** A name made of non-empty words joined by single spaces has one initial per word: its first letter, upper-cased. */
  lemma InitialsOfWords(words: seq<string>)
    requires |words| >= 1
    requires forall i :: 0 <= i < |words| ==> words[i] != "" && ' ' !in words[i]
    ensures AdminInitials(Join(words, ' ')) == Upper(seq(|words|, i requires 0 <= i < |words| => words[i][0]))
  {
    var name := Join(words, ' ');
    SplitJoin(words, ' ');
    FirstCharsOfWords(words);
    if name == "" {
      JoinedWordsNotEmpty(words);
    }
  }

  lemma JoinedWordsNotEmpty(words: seq<string>)
    requires |words| >= 1 && words[0] != ""
    ensures Join(words, ' ') != ""
  {
    if |words| > 1 {
      assert |Join(words, ' ')| >= |words[0]|;
    }
  }
}
