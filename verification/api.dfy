/**
  The submission client's view of the network, shared by both front ends: the
  request it would send, and how it reads the reply. `fetch`, `response.text()`
  and `JSON.parse` are calls into the browser, so their results arrive here as
  values: a rejected request carries its error message, and a reply carries its
  raw text and what parsing that text gave.
*/
module Api {
  import opened Wrappers
  import opened JsStrings
  import opened FormRules
  import opened Errors
  import opened Attachments

  /** The JSON object posted to the endpoint (it travels as `JSON.stringify` of this). */
  datatype ComplaintRecord<D> = ComplaintRecord(form: FormData, ua: string, files: seq<Attachment<D>>)

  /** The `text/plain` content type the body is declared with, although it holds JSON. */
  const PlainTextUtf8 := "text/plain;charset=utf-8"

  datatype Request<D> = Request(url: string, httpMethod: string, contentType: string, body: ComplaintRecord<D>)

  /** The response envelope `{ ok, message }`. `ok` is the truthiness of the parsed
      `ok` property; `message` is "" when the property is absent or falsy. */
  datatype Envelope = Envelope(ok: bool, message: string)

  /** What `JSON.parse(text)` gave: it threw, or it produced an envelope. */
  datatype ParsedBody = NotJson | Json(envelope: Envelope)

  /** How the `fetch` call settled. */
  datatype FetchOutcome = NetworkFailure(message: string) | Received(text: string, body: ParsedBody)

  /** One call of `submitToApi`: the request it sent, if any, and what it returned or threw. */
  datatype Submission<D> = Submission(sent: Option<Request<D>>, result: Result<Envelope, Thrown>)

  const UnexpectedPrefix := "Unexpected API response: "

  /** How many UTF-16 code units of a non-JSON reply are quoted in the error. */
  const SnippetUnits := 120

  /** The request `submitToApi(data)` posts to url. */
  function PostRequest<D>(url: string, data: ComplaintRecord<D>): Request<D> {
    Request(url, "POST", PlainTextUtf8, data)
  }

  /** Everything `submitToApi` does once the request is on its way: a rejected
      request propagates its error; a reply that is not JSON becomes an error
      quoting its first 120 code units (all of it when shorter, otherwise the
      longest prefix that fits); an envelope whose `ok` is falsy becomes
      an error with its `message` or the generic fallback; any other envelope is
      returned as parsed. */
  function Interpret(outcome: FetchOutcome): (r: Result<Envelope, Thrown>)
    ensures r.Ok? <==> outcome.Received? && outcome.body.Json? && outcome.body.envelope.ok
    ensures r.Ok? ==> r.value == outcome.body.envelope
    ensures outcome.NetworkFailure? ==> r == Err(JsError(outcome.message))
    ensures outcome.Received? && outcome.body.NotJson? ==>
              && r.Err? && r.error.JsError?
              && UnexpectedPrefix <= r.error.message
              && r.error.message[|UnexpectedPrefix|..] <= outcome.text
              && Utf16Length(r.error.message[|UnexpectedPrefix|..]) <= SnippetUnits
    ensures outcome.Received? && outcome.body.NotJson? && r.Err? && r.error.JsError? && UnexpectedPrefix <= r.error.message ==>
              var snippet := r.error.message[|UnexpectedPrefix|..];
              snippet == outcome.text ||
              (|snippet| < |outcome.text| && Utf16Length(snippet) + Utf16Units(outcome.text[|snippet|]) > SnippetUnits)
    ensures outcome.Received? && outcome.body.Json? && !outcome.body.envelope.ok ==>
              && r.Err? && r.error.JsError?
              && r.error.message != ""
              && (outcome.body.envelope.message != "" ==> r.error.message == outcome.body.envelope.message)
              && (outcome.body.envelope.message == "" ==> r.error.message == Fallback)
  {
    match outcome
    case NetworkFailure(message) => Err(JsError(message))
    case Received(text, NotJson) =>
      var snippet := Utf16Slice(text, SnippetUnits);
      assert (UnexpectedPrefix + snippet)[|UnexpectedPrefix|..] == snippet;
      Err(JsError(UnexpectedPrefix + snippet))
    case Received(_, Json(envelope)) =>
      if !envelope.ok then Err(JsError(if envelope.message != "" then envelope.message else Fallback))
      else Ok(envelope)
  }

  /** A short reply that is not JSON is quoted whole, so the shown error contains it. */
  lemma ShortReplyQuotedWhole(text: string)
    requires Utf16Length(text) <= SnippetUnits
    ensures Interpret(Received(text, NotJson)) == Err(JsError(UnexpectedPrefix + text))
  {
  }
}
