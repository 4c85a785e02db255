/**
  The React front end (src/App.jsx): endpoint resolution, the validator that
  returns `{ msg, field }` or null, the file collector whose `data` falls back to
  "", the submission client, and the component state that `onSubmit` drives.
  The ambient inputs (`import.meta.env`, `window.APP_CONFIG`, `navigator.userAgent`),
  the FileReader and the network are parameters.
*/
module App {
  import opened Wrappers
  import opened JsStrings
  import opened FormRules
  import opened Errors
  import opened Attachments
  import opened Api

  /** `getApiUrl()`: VITE_API_URL trimmed if that leaves something, otherwise
      APP_CONFIG.API_URL trimmed. None stands for a setting that is not there.
      `x ? String(x).trim() : ""` is Sanitize(x) for a string setting. */
  function GetApiUrl(envUrl: Option<string>, runtimeUrl: Option<string>): (r: string)
    ensures IsTrimmed(r)
    ensures Sanitize(envUrl) != "" ==> r == Sanitize(envUrl)
    ensures r == "" <==> Sanitize(envUrl) == "" && Sanitize(runtimeUrl) == ""
    ensures r != "" ==> r == Sanitize(envUrl) || r == Sanitize(runtimeUrl)
  {
    var fromEnv := Sanitize(envUrl);
    var fromRuntime := Sanitize(runtimeUrl);
    if fromEnv != "" then fromEnv else fromRuntime
  }

  /** The `{ msg, field }` object `validate` returns. */
  datatype Issue = Issue(msg: string, field: Field)

  /** `validate(data)`: null when every rule holds, otherwise the first failing
      rule in the order subject, name, email, phone, complaint, with its message. */
  function Validate(d: FormData): (r: Option<Issue>)
    ensures r.None? <==> forall f :: RuleHolds(d, f)
    ensures r.Some? ==> FirstFailing(d, r.value.field) && r.value.msg == Message(r.value.field)
  {
    EmailTestIsPattern(d.email);
    if d.subject == "" then
      assert !RuleHolds(d, Subject);
      Some(Issue(Message(Subject), Subject))
    else if Utf16Length(d.name) < 2 then
      assert !RuleHolds(d, Name);
      Some(Issue(Message(Name), Name))
    else if d.email != "" && !EmailTest(d.email) then
      assert !RuleHolds(d, Email);
      Some(Issue(Message(Email), Email))
    else if !NineOrTenDigits(DigitsOf(d.phone)) then
      assert !RuleHolds(d, Phone);
      Some(Issue(Message(Phone), Phone))
    else if Utf16Length(d.complaint) < 5 then
      assert !RuleHolds(d, Complaint);
      Some(Issue(Message(Complaint), Complaint))
    else None
  }

  /** When two rules fail, the later one is never the one reported: a bad name is
      reported even if the phone number is bad too. */
  lemma EarlierFailureWins(d: FormData, f: Field, g: Field)
    requires !RuleHolds(d, f) && Rank(f) < Rank(g)
    ensures Validate(d).Some? && Validate(d).value.field != g
  {
  }

  /** An e-mail left empty never fails validation. */
  lemma EmptyEmailAccepted(d: FormData)
    requires d.email == ""
    ensures Validate(d).None? || Validate(d).value.field != Email
  {
  }

  /** The form's fields sanitised, as `onSubmit` builds `data`. */
  function SanitizedForm(form: FormData): (d: FormData)
    ensures IsTrimmed(d.subject) && IsTrimmed(d.name) && IsTrimmed(d.email)
    ensures IsTrimmed(d.phone) && IsTrimmed(d.complaint)
  {
    FormData(Sanitize(Some(form.subject)), Sanitize(Some(form.name)), Sanitize(Some(form.email)),
             Sanitize(Some(form.phone)), Sanitize(Some(form.complaint)))
  }

  /** `reader.result.split(",")[1] || ""`: the text between the first and the second
      comma of the data URL, or "" when it has no comma. */
  function DataOf(dataUrl: string): (data: string)
    ensures ',' !in data
    ensures ',' !in dataUrl ==> data == ""
  {
    var parts := Split(dataUrl, ',');
    if |parts| > 1 then parts[1] else ""
  }

  /** For a data URL `header,payload` with a single comma, data is the whole payload. */
  lemma DataOfDataUrl(header: string, payload: string)
    requires ',' !in header && ',' !in payload
    ensures DataOf(header + [','] + payload) == payload
  {
    SplitAtFirst(header, ',', payload);
    SplitWithoutSeparator(payload, ',');
  }

  /** With more commas, data is the text between the first and the second. */
  lemma DataOfSecondPiece(a: string, b: string, c: string)
    requires ',' !in a && ',' !in b
    ensures DataOf(a + [','] + b + [','] + c) == b
  {
    assert a + [','] + b + [','] + c == a + [','] + (b + [','] + c);
    SplitAtFirst(a, ',', b + [','] + c);
    SplitAtFirst(b, ',', c);
  }

  const MissingUrlMessage := "Missing API_URL in public/config.js or VITE_API_URL"

  /** `submitToApi(data)` against the endpoint resolved at load time. `network` is
      what `fetch` settles with for a given request. With no endpoint nothing is
      sent and the call fails; otherwise exactly the POST request is sent and its
      reply interpreted. */
  function SubmitToApi(apiUrl: string, data: ComplaintRecord<string>, network: Request<string> -> FetchOutcome)
    : (s: Submission<string>)
    ensures s.sent.None? <==> apiUrl == ""
    ensures apiUrl == "" ==> s.result == Err(JsError(MissingUrlMessage))
    ensures s.sent.Some? ==> s.sent.value == PostRequest(apiUrl, data) && s.result == Interpret(network(s.sent.value))
  {
    if apiUrl == "" then Submission(None, Err(JsError(MissingUrlMessage)))
    else
      var request := PostRequest(apiUrl, data);
      Submission(Some(request), Interpret(network(request)))
  }

  /** The whole of one submission, from the form's raw values to what is sent and
      what comes back: validation first, then the files, then the request. A request
      is sent only for a valid form whose files were all collected. */
  function Attempt(form: FormData, files: seq<SelectedFile>, ua: string, apiUrl: string,
                   reader: SelectedFile -> ReadOutcome, network: Request<string> -> FetchOutcome)
    : (s: Submission<string>)
    ensures s.sent.Some? ==>
              && (forall f :: RuleHolds(SanitizedForm(form), f))
              && ReadFilesSpec(files, reader, DataOf).Ok?
              && s.sent.value.body == ComplaintRecord(SanitizedForm(form), ua, ReadFilesSpec(files, reader, DataOf).value)
    ensures s.result.Ok? ==> s.sent.Some? && s.sent.value.url == apiUrl
    ensures Validate(SanitizedForm(form)).Some? ==>
              var issue := Validate(SanitizedForm(form)).value;
              s == Submission(None, Err(Problem(issue.msg, Some(issue.field))))
    ensures Validate(SanitizedForm(form)).None? && ReadFilesSpec(files, reader, DataOf).Err? ==>
              s == Submission(None, Err(ReadFilesSpec(files, reader, DataOf).error))
    ensures Validate(SanitizedForm(form)).None? && ReadFilesSpec(files, reader, DataOf).Ok? ==>
              s == SubmitToApi(apiUrl, ComplaintRecord(SanitizedForm(form), ua, ReadFilesSpec(files, reader, DataOf).value), network)
    ensures s.sent.Some? <==>
              Validate(SanitizedForm(form)).None? && ReadFilesSpec(files, reader, DataOf).Ok? && apiUrl != ""
  {
    var data := SanitizedForm(form);
    match Validate(data)
    case Some(issue) => Submission(None, Err(Problem(issue.msg, Some(issue.field))))
    case None =>
      match ReadFilesSpec(files, reader, DataOf)
      case Err(e) => Submission(None, Err(e))
      case Ok(attachments) => SubmitToApi(apiUrl, ComplaintRecord(data, ua, attachments), network)
  }

  /** The `try` block of `onSubmit` run in order: sanitise, `validate` (its issue is
      thrown), `await readFiles(files)`, `await submitToApi(data)`. */
  method Perform(form: FormData, files: seq<SelectedFile>, ua: string, apiUrl: string,
                 reader: SelectedFile -> ReadOutcome, network: Request<string> -> FetchOutcome)
    returns (s: Submission<string>)
    ensures s == Attempt(form, files, ua, apiUrl, reader, network)
  {
    var data := SanitizedForm(form);
    var issue := Validate(data);
    if issue.Some? {
      return Submission(None, Err(Problem(issue.value.msg, Some(issue.value.field))));
    }
    var attachments, _ := Collect(files, reader, DataOf);
    if attachments.Err? {
      return Submission(None, Err(attachments.error));
    }
    s := SubmitToApi(apiUrl, ComplaintRecord(data, ua, attachments.value), network);
  }

  /** The four states of the status line. */
  datatype StatusType = Idle | Loading | Error | Success

  datatype Status = Status(kind: StatusType, message: string)

  const SendingMessage := "กำลังส่งข้อมูล..."
  const SentMessage := "ส่งสำเร็จ"

  /** The status a settled submission leaves: success with the envelope's message
      (or "ส่งสำเร็จ"), or error with `msg || message || "ระบบขัดข้อง"`. */
  function FinalStatus(result: Result<Envelope, Thrown>): (st: Status)
    ensures st.message != ""
    ensures st.kind == Success <==> result.Ok?
    ensures st.kind == Error <==> result.Err?
    ensures result.Ok? && result.value.message != "" ==> st.message == result.value.message
    ensures result.Ok? && result.value.message == "" ==> st.message == SentMessage
    ensures result.Err? ==> st.message == Display(result.error)
  {
    match result
    case Ok(envelope) => Status(Success, if envelope.message != "" then envelope.message else SentMessage)
    case Err(e) => Status(Error, Display(e))
  }

  /** The component's state. React's batching of `useState` updates is not
      modelled: each update takes effect in the order the handler makes it. */
  class ComplaintForm {
    /** `API_URL`, resolved once when the module is loaded. */
    const apiUrl: string
    var formData: FormData
    var files: seq<SelectedFile>
    var loading: bool
    var status: Status
    /** The input last asked to take focus. */
    var focused: Option<Field>
    /** Every status the line has shown, oldest first. */
    ghost var shown: seq<Status>

    /** The component as first rendered, in a bundle whose `API_URL` was resolved
        by `getApiUrl()` from the two settings. */
    constructor(envUrl: Option<string>, runtimeUrl: Option<string>)
      ensures apiUrl == GetApiUrl(envUrl, runtimeUrl)
      ensures formData == DefaultForm && files == [] && !loading
      ensures status == Status(Idle, "") && focused == None && shown == [status]
    {
      apiUrl := GetApiUrl(envUrl, runtimeUrl);
      formData := DefaultForm;
      files := [];
      loading := false;
      status := Status(Idle, "");
      focused := None;
      shown := [Status(Idle, "")];
    }

    /** `handleChange`: one field takes the typed value, the others keep theirs. */
    method HandleChange(field: Field, value: string)
      modifies this
      ensures formData == match field
        case Subject => old(formData).(subject := value)
        case Name => old(formData).(name := value)
        case Email => old(formData).(email := value)
        case Phone => old(formData).(phone := value)
        case Complaint => old(formData).(complaint := value)
      ensures files == old(files) && loading == old(loading) && status == old(status)
      ensures focused == old(focused) && shown == old(shown)
    {
      match field
      case Subject => formData := formData.(subject := value);
      case Name => formData := formData.(name := value);
      case Email => formData := formData.(email := value);
      case Phone => formData := formData.(phone := value);
      case Complaint => formData := formData.(complaint := value);
    }

    /** `handleFiles`: the selection replaces the files. */
    method HandleFiles(selected: seq<SelectedFile>)
      modifies this
      ensures files == selected
      ensures formData == old(formData) && loading == old(loading) && status == old(status)
      ensures focused == old(focused) && shown == old(shown)
    {
      files := selected;
    }

    method SetStatus(st: Status)
      modifies this
      ensures status == st && shown == old(shown) + [st]
      ensures formData == old(formData) && files == old(files) && loading == old(loading)
      ensures focused == old(focused)
    {
      status := st;
      shown := shown + [st];
    }

    /** `setError(message, field)`: an error status, and focus on the field if one is named. */
    method SetError(message: string, field: Option<Field>)
      modifies this
      ensures status == Status(Error, message) && shown == old(shown) + [status]
      ensures focused == if field.Some? then field else old(focused)
      ensures formData == old(formData) && files == old(files) && loading == old(loading)
    {
      SetStatus(Status(Error, message));
      if field.Some? {
        focused := field;
      }
    }

    /** `resetForm()`: the default form and no files. */
    method ResetForm()
      modifies this
      ensures formData == DefaultForm && files == []
      ensures loading == old(loading) && status == old(status)
      ensures focused == old(focused) && shown == old(shown)
    {
      formData := DefaultForm;
      files := [];
    }

    /** `onSubmit`. While a submission is in flight it does nothing at all (and
        sends nothing). Otherwise the line shows "loading" and then the outcome of
        the attempt; a success also clears the form; `loading` is false at the end
        either way. `sent` is the request the call put on the network, if any. */
    method OnSubmit(ua: string, reader: SelectedFile -> ReadOutcome, network: Request<string> -> FetchOutcome)
      returns (sent: Option<Request<string>>)
      modifies this
      ensures old(loading) ==> sent.None? && unchanged(this)
      ensures !old(loading) ==>
        var attempt := Attempt(old(formData), old(files), ua, apiUrl, reader, network);
        && sent == attempt.sent
        && !loading
        && status == FinalStatus(attempt.result)
        && shown == old(shown) + [Status(Loading, SendingMessage)] + [status]
        && (attempt.result.Ok? ==> formData == DefaultForm && files == [] && focused == old(focused))
        && (attempt.result.Err? ==>
              && formData == old(formData) && files == old(files)
              && focused == if FocusOf(attempt.result.error).Some? then FocusOf(attempt.result.error) else old(focused))
    {
      sent := None;
      if loading {
        return;
      }
      loading := true;
      SetStatus(Status(Loading, SendingMessage));
      var attempt := Perform(formData, files, ua, apiUrl, reader, network);
      sent := attempt.sent;
      if attempt.result.Ok? {
        SetStatus(FinalStatus(attempt.result));
        ResetForm();
      } else {
        SetError(Display(attempt.result.error), FocusOf(attempt.result.error));
      }
      loading := false;
    }
  }
}
