/**
  The plain DOM front end (public/js/script.js): the endpoint read from
  `window.APP_CONFIG`, the element reader `v`, the validator that throws
  `{ msg, el }`, the file collector whose `data` is `split(',')[1]` (undefined
  when there is no comma), the submission client, and the submit listener with
  its disabled-button guard. Elements are identified by the field they hold.
*/
module Script {
  import opened Wrappers
  import opened JsStrings
  import opened FormRules
  import opened Errors
  import opened Attachments
  import opened Api

  /** `v(el)`: `(el.value || '').trim()` of an element's current value. */
  function V(value: string): (r: string)
    ensures IsTrimmed(r)
    ensures exists a, b :: CutsOnlyWhitespace(value, a, b) && r == value[a..b]
  {
    Trim(value)
  }

  /** `sanitize(v(el))` is `v(el)`: sanitising what `v` read changes nothing. */
  lemma SanitizeOfV(value: string)
    ensures Sanitize(Some(V(value))) == V(value)
  {
    TrimIdempotent(value);
  }

  /** `validate(d)`: returns normally when every rule holds; otherwise throws
      `{ msg, el }` for the first failing rule in the order subject, name, email,
      phone, complaint. */
  function Validate(d: FormData): (r: Outcome<Thrown>)
    ensures r.Pass? <==> forall f :: RuleHolds(d, f)
    ensures r.Fail? ==>
              && r.error.Problem? && r.error.field.Some?
              && FirstFailing(d, r.error.field.value)
              && r.error.msg == Message(r.error.field.value)
  {
    EmailTestIsPattern(d.email);
    if d.subject == "" then
      assert !RuleHolds(d, Subject);
      Fail(Problem(Message(Subject), Some(Subject)))
    else if Utf16Length(d.name) < 2 then
      assert !RuleHolds(d, Name);
      Fail(Problem(Message(Name), Some(Name)))
    else if d.email != "" && !EmailTest(d.email) then
      assert !RuleHolds(d, Email);
      Fail(Problem(Message(Email), Some(Email)))
    else if !NineOrTenDigits(DigitsOf(d.phone)) then
      assert !RuleHolds(d, Phone);
      Fail(Problem(Message(Phone), Some(Phone)))
    else if Utf16Length(d.complaint) < 5 then
      assert !RuleHolds(d, Complaint);
      Fail(Problem(Message(Complaint), Some(Complaint)))
    else Pass
  }

  /** The `data` object the listener builds from the elements: `sanitize(v(el))` of each. */
  function ReadForm(values: FormData): (d: FormData)
    ensures d.subject == V(values.subject) && d.name == V(values.name) && d.email == V(values.email)
    ensures d.phone == V(values.phone) && d.complaint == V(values.complaint)
  {
    SanitizeOfV(values.subject);
    SanitizeOfV(values.name);
    SanitizeOfV(values.email);
    SanitizeOfV(values.phone);
    SanitizeOfV(values.complaint);
    FormData(Sanitize(Some(V(values.subject))), Sanitize(Some(V(values.name))), Sanitize(Some(V(values.email))),
             Sanitize(Some(V(values.phone))), Sanitize(Some(V(values.complaint))))
  }

  /** `r.result.split(',')[1]`: the text between the first and the second comma of
      the data URL, or undefined (None) when it has no comma. */
  function DataOf(dataUrl: string): (data: Option<string>)
    ensures data.None? <==> ',' !in dataUrl
    ensures data.Some? ==> ',' !in data.value
  {
    var parts := Split(dataUrl, ',');
    assert ',' !in dataUrl ==> parts == [dataUrl] by {
      if ',' !in dataUrl { SplitWithoutSeparator(dataUrl, ','); }
    }
    if |parts| > 1 then Some(parts[1]) else None
  }

  /** For a data URL `header,payload` with a single comma, data is the whole payload. */
  lemma DataOfDataUrl(header: string, payload: string)
    requires ',' !in header && ',' !in payload
    ensures DataOf(header + [','] + payload) == Some(payload)
  {
    SplitAtFirst(header, ',', payload);
    SplitWithoutSeparator(payload, ',');
  }

  /** With more commas, data is the text between the first and the second. */
  lemma DataOfSecondPiece(a: string, b: string, c: string)
    requires ',' !in a && ',' !in b
    ensures DataOf(a + [','] + b + [','] + c) == Some(b)
  {
    assert a + [','] + b + [','] + c == a + [','] + (b + [','] + c);
    SplitAtFirst(a, ',', b + [','] + c);
    SplitAtFirst(b, ',', c);
  }

  const MissingUrlMessage := "Missing API_URL in config.js"

  /** `submitToApi(data)` against `API_URL`. With no endpoint nothing is sent and
      the call fails; otherwise exactly the POST request is sent and its reply
      interpreted. */
  function SubmitToApi(apiUrl: string, data: ComplaintRecord<Option<string>>, network: Request<Option<string>> -> FetchOutcome)
    : (s: Submission<Option<string>>)
    ensures s.sent.None? <==> apiUrl == ""
    ensures apiUrl == "" ==> s.result == Err(JsError(MissingUrlMessage))
    ensures s.sent.Some? ==> s.sent.value == PostRequest(apiUrl, data) && s.result == Interpret(network(s.sent.value))
  {
    if apiUrl == "" then Submission(None, Err(JsError(MissingUrlMessage)))
    else
      var request := PostRequest(apiUrl, data);
      Submission(Some(request), Interpret(network(request)))
  }

  /** One run of the listener's `try` block, from the elements' values to what is
      sent and what comes back. A request is sent only for a valid form whose files
      were all collected. */
  function Attempt(values: FormData, files: seq<SelectedFile>, ua: string, apiUrl: string,
                   reader: SelectedFile -> ReadOutcome, network: Request<Option<string>> -> FetchOutcome)
    : (s: Submission<Option<string>>)
    ensures s.sent.Some? ==>
              && (forall f :: RuleHolds(ReadForm(values), f))
              && ReadFilesSpec(files, reader, DataOf).Ok?
              && s.sent.value.body == ComplaintRecord(ReadForm(values), ua, ReadFilesSpec(files, reader, DataOf).value)
    ensures s.result.Ok? ==> s.sent.Some? && s.sent.value.url == apiUrl
    ensures Validate(ReadForm(values)).Fail? ==> s == Submission(None, Err(Validate(ReadForm(values)).error))
    ensures Validate(ReadForm(values)).Pass? && ReadFilesSpec(files, reader, DataOf).Err? ==>
              s == Submission(None, Err(ReadFilesSpec(files, reader, DataOf).error))
    ensures Validate(ReadForm(values)).Pass? && ReadFilesSpec(files, reader, DataOf).Ok? ==>
              s == SubmitToApi(apiUrl, ComplaintRecord(ReadForm(values), ua, ReadFilesSpec(files, reader, DataOf).value), network)
    ensures s.sent.Some? <==>
              Validate(ReadForm(values)).Pass? && ReadFilesSpec(files, reader, DataOf).Ok? && apiUrl != ""
  {
    var data := ReadForm(values);
    match Validate(data)
    case Fail(e) => Submission(None, Err(e))
    case Pass =>
      match ReadFilesSpec(files, reader, DataOf)
      case Err(e) => Submission(None, Err(e))
      case Ok(attachments) => SubmitToApi(apiUrl, ComplaintRecord(data, ua, attachments), network)
  }

  /** The listener's `try` block run in order: build `data`, `validate(data)`,
      `await readFiles(filesEl.files)`, `await submitToApi(data)`. */
  method Perform(values: FormData, files: seq<SelectedFile>, ua: string, apiUrl: string,
                 reader: SelectedFile -> ReadOutcome, network: Request<Option<string>> -> FetchOutcome)
    returns (s: Submission<Option<string>>)
    ensures s == Attempt(values, files, ua, apiUrl, reader, network)
  {
    var data := ReadForm(values);
    var check := Validate(data);
    if check.Fail? {
      return Submission(None, Err(check.error));
    }
    var attachments, _ := Collect(files, reader, DataOf);
    if attachments.Err? {
      return Submission(None, Err(attachments.error));
    }
    s := SubmitToApi(apiUrl, ComplaintRecord(data, ua, attachments.value), network);
  }

  /** The colour class the status line carries: slate while sending, rose for an
      error, emerald for a success. */
  datatype Tone = Neutral | Alert | Confirmed

  const SendingMessage := "กำลังส่งข้อมูล..."
  const SentMessage := "ส่งสำเร็จ"

  /** The text a successful submission shows: `result.message || 'ส่งสำเร็จ'`. */
  function SuccessText(envelope: Envelope): (text: string)
    ensures text != ""
    ensures envelope.message != "" ==> text == envelope.message
    ensures envelope.message == "" ==> text == SentMessage
  {
    if envelope.message != "" then envelope.message else SentMessage
  }

  /** The page as the listener sees it: the form's inputs, the submit button and
      the status line. */
  class ComplaintPage {
    /** `API_URL`, read once from `window.APP_CONFIG` when the script loads. */
    const apiUrl: string
    /** The inputs' current values and the selected files. */
    var values: FormData
    var files: seq<SelectedFile>
    /** `btn.disabled`, which doubles as the busy flag. */
    var buttonDisabled: bool
    /** `statusDiv.textContent` and its colour class. */
    var statusText: string
    var tone: Tone
    /** The input last asked to take focus. */
    var focused: Option<Field>
    /** Every text the status line has shown, oldest first. */
    ghost var shown: seq<string>

    /** The page after the script loads, with `APP_CONFIG.API_URL` as found
        (None when it is missing). */
    constructor(apiUrlSetting: Option<string>)
      ensures apiUrl == Sanitize(apiUrlSetting) && IsTrimmed(apiUrl)
      ensures values == DefaultForm && files == [] && !buttonDisabled
      ensures statusText == "" && tone == Neutral && focused == None && shown == []
    {
      apiUrl := Sanitize(apiUrlSetting);
      values := DefaultForm;
      files := [];
      buttonDisabled := false;
      statusText := "";
      tone := Neutral;
      focused := None;
      shown := [];
    }

    /** `setLoading(on)`: the button follows `on`; switching on shows the sending
        message in the neutral colour, switching off clears the text. */
    method SetLoading(on: bool)
      modifies this
      ensures buttonDisabled == on
      ensures on ==> statusText == SendingMessage && tone == Neutral
      ensures !on ==> statusText == "" && tone == old(tone)
      ensures shown == old(shown) + [statusText]
      ensures values == old(values) && files == old(files) && focused == old(focused)
    {
      buttonDisabled := on;
      if on {
        tone := Neutral;
        statusText := SendingMessage;
      } else {
        statusText := "";
      }
      shown := shown + [statusText];
    }

    /** `showError(msg, el)`: the message in the error colour, and focus on the
        element when one is given. */
    method ShowError(msg: string, el: Option<Field>)
      modifies this
      ensures statusText == msg && tone == Alert && shown == old(shown) + [msg]
      ensures focused == if el.Some? then el else old(focused)
      ensures values == old(values) && files == old(files) && buttonDisabled == old(buttonDisabled)
    {
      tone := Alert;
      statusText := msg;
      shown := shown + [msg];
      if el.Some? {
        focused := el;
      }
    }

    /** `showSuccess(msg)`: the message in the success colour. */
    method ShowSuccess(msg: string)
      modifies this
      ensures statusText == msg && tone == Confirmed && shown == old(shown) + [msg]
      ensures values == old(values) && files == old(files) && buttonDisabled == old(buttonDisabled)
      ensures focused == old(focused)
    {
      tone := Confirmed;
      statusText := msg;
      shown := shown + [msg];
    }

    /** `form.reset()`: every input back to its default, the file input emptied. */
    method ResetForm()
      modifies this
      ensures values == DefaultForm && files == []
      ensures buttonDisabled == old(buttonDisabled) && statusText == old(statusText) && tone == old(tone)
      ensures focused == old(focused) && shown == old(shown)
    {
      values := DefaultForm;
      files := [];
    }

    /** The submit listener. With the button disabled it does nothing at all (and
        sends nothing). Otherwise it shows the sending message, runs the attempt,
        re-enables the button and clears the line before showing the outcome, and
        on success resets the form. Errors are shown without an element, so no
        input is focused even for a validation failure. */
    method OnSubmit(ua: string, reader: SelectedFile -> ReadOutcome, network: Request<Option<string>> -> FetchOutcome)
      returns (sent: Option<Request<Option<string>>>)
      modifies this
      ensures old(buttonDisabled) ==> sent.None? && unchanged(this)
      ensures !old(buttonDisabled) ==>
        var attempt := Attempt(old(values), old(files), ua, apiUrl, reader, network);
        && sent == attempt.sent
        && !buttonDisabled
        && focused == old(focused)
        && (attempt.result.Ok? ==>
              && statusText == SuccessText(attempt.result.value) && tone == Confirmed
              && values == DefaultForm && files == [])
        && (attempt.result.Err? ==>
              && statusText == Display(attempt.result.error) && tone == Alert
              && values == old(values) && files == old(files))
        && shown == old(shown) + [SendingMessage] + [""] + [statusText]
    {
      sent := None;
      if buttonDisabled {
        return;
      }
      SetLoading(true);
      var attempt := Perform(values, files, ua, apiUrl, reader, network);
      sent := attempt.sent;
      if attempt.result.Ok? {
        SetLoading(false);
        ShowSuccess(SuccessText(attempt.result.value));
        ResetForm();
      } else {
        SetLoading(false);
        ShowError(Display(attempt.result.error), None);
      }
    }
  }
}
