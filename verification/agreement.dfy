/**
  The two front ends side by side: where src/App.jsx and public/js/script.js
  compute the same thing, and exactly where they differ.
*/
module Agreement {
  import opened Wrappers
  import opened JsStrings
  import opened FormRules
  import opened Errors
  import opened Attachments
  import App
  import Script

  /** The React validator's `{ msg, field }` is what the script throws, field for
      element; both pass the same forms. */
  lemma ValidatorsAgree(d: FormData)
    ensures App.Validate(d).None? <==> Script.Validate(d).Pass?
    ensures App.Validate(d).Some? ==>
              Script.Validate(d) == Fail(Problem(App.Validate(d).value.msg, Some(App.Validate(d).value.field)))
  {
    var a := App.Validate(d);
    var s := Script.Validate(d);
    if a.Some? && s.Fail? {
      FirstFailingUnique(d, a.value.field, s.error.field.value);
    }
  }

  /** Both build `data` from the same raw values in the same way. */
  lemma SanitisedFormsAgree(values: FormData)
    ensures App.SanitizedForm(values) == Script.ReadForm(values)
  {
    TrimIdempotent(values.subject);
    TrimIdempotent(values.name);
    TrimIdempotent(values.email);
    TrimIdempotent(values.phone);
    TrimIdempotent(values.complaint);
  }

  /** `split(",")[1] || ""`: the React copy turns the script's undefined into "". */
  function OrEmpty(data: Option<string>): string {
    if data.Some? then data.value else ""
  }

  lemma PayloadsAgree(dataUrl: string)
    ensures App.DataOf(dataUrl) == OrEmpty(Script.DataOf(dataUrl))
  {
  }

  /** The two `readFiles` fail alike and succeed alike; on success they differ only
      in `data`, where the React copy has "" for the script's undefined. */
  lemma ReadFilesAgree(list: seq<SelectedFile>, reader: SelectedFile -> ReadOutcome)
    ensures ReadFilesSpec(list, reader, App.DataOf) == RelabelResult(ReadFilesSpec(list, reader, Script.DataOf), OrEmpty)
  {
    forall s ensures App.DataOf(s) == OrEmpty(Script.DataOf(s)) {
      PayloadsAgree(s);
    }
    ReadFilesRelabels(list, reader, Script.DataOf, App.DataOf, OrEmpty);
  }

  /** Without VITE_API_URL the React copy resolves the endpoint as the script does. */
  lemma RuntimeUrlAgrees(runtimeUrl: Option<string>)
    ensures App.GetApiUrl(None, runtimeUrl) == Sanitize(runtimeUrl)
  {
  }

  /** The two copies report a missing endpoint with different texts. */
  lemma MissingUrlMessagesDiffer()
    ensures App.MissingUrlMessage != Script.MissingUrlMessage
  {
    assert App.MissingUrlMessage[19] != Script.MissingUrlMessage[19];
  }
}
