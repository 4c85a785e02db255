/**
  Concrete cases of the behaviour the model states in general.
*/
module Scenarios {
  import opened Wrappers
  import opened FormRules
  import opened Errors
  import opened Attachments
  import opened Api
  import App

  /** A complete form with an empty e-mail and a ten-digit phone passes. */
  lemma CompleteFormPasses()
    ensures App.Validate(FormData("x", "ab", "", "0812345678", "hello")).None?
  {
    var d := FormData("x", "ab", "", "0812345678", "hello");
    JsStrings.DigitsOfDigits(d.phone);
    assert PhoneRule(d.phone);
    assert JsStrings.Utf16Length(d.name) >= 2;
    assert JsStrings.Utf16Length(d.complaint) >= 5;
    EmailTestIsPattern(d.email);
    forall f ensures RuleHolds(d, f) {
    }
  }

  /** An empty subject is reported against the subject field, whatever else is wrong. */
  lemma EmptySubjectReported(d: FormData)
    requires d.subject == ""
    ensures App.Validate(d) == Some(App.Issue("กรุณาเลือกหัวข้อ", Subject))
  {
  }

  /** A phone number typed with dashes passes as its ten digits would. */
  lemma DashedPhonePasses()
    ensures PhoneRule("081-234-5678")
  {
    assert JsStrings.DigitsOf("081-234-5678") == "0812345678";
  }

  /** An address without a dot after the '@' is refused. */
  lemma AddressWithoutDotRefused()
    ensures !MatchesEmailPattern("user@mail")
  {
    EmailTestIsPattern("user@mail");
  }

  const MiB := 1048576

  /** 1 MiB then 4.2 MiB: the second file is refused by the per-file limit. */
  lemma SecondFileTooLarge(reader: SelectedFile -> ReadOutcome)
    requires reader(SelectedFile("a.pdf", MiB, "application/pdf")).Loaded?
    ensures ReadFilesSpec([SelectedFile("a.pdf", MiB, "application/pdf"), SelectedFile("b.pdf", 4404019, "application/pdf")],
                          reader, App.DataOf) == Err(FileTooLarge("b.pdf"))
  {
    var list := [SelectedFile("a.pdf", MiB, "application/pdf"), SelectedFile("b.pdf", 4404019, "application/pdf")];
    TotalSizeStep(list, 0);
    CollectFromStep(list, 0, reader, App.DataOf);
    CollectFromStep(list, 1, reader, App.DataOf);
  }

  /** 1 MiB, 1 MiB then 3.5 MiB: the third file is above 1.5 MiB on its own, so it is
      the per-file limit that refuses it, before the total is compared. */
  lemma ThirdFileTooLarge(reader: SelectedFile -> ReadOutcome)
    requires reader(SelectedFile("a.pdf", MiB, "application/pdf")).Loaded?
    requires reader(SelectedFile("b.pdf", MiB, "application/pdf")).Loaded?
    ensures ReadFilesSpec([SelectedFile("a.pdf", MiB, "application/pdf"), SelectedFile("b.pdf", MiB, "application/pdf"),
                           SelectedFile("c.pdf", 3670016, "application/pdf")], reader, App.DataOf) == Err(FileTooLarge("c.pdf"))
  {
    var list := [SelectedFile("a.pdf", MiB, "application/pdf"), SelectedFile("b.pdf", MiB, "application/pdf"),
                 SelectedFile("c.pdf", 3670016, "application/pdf")];
    TotalSizeStep(list, 0);
    TotalSizeStep(list, 1);
    CollectFromStep(list, 0, reader, App.DataOf);
    CollectFromStep(list, 1, reader, App.DataOf);
    CollectFromStep(list, 2, reader, App.DataOf);
  }

  /** `{"ok":true,"message":"done"}` succeeds and the line shows "done". */
  lemma OkReplyShowsItsMessage(text: string)
    ensures App.FinalStatus(Interpret(Received(text, Json(Envelope(true, "done"))))) == App.Status(App.Success, "done")
  {
  }

  /** `not json` fails with a message that quotes it. */
  lemma NonJsonReplyQuoted()
    ensures App.FinalStatus(Interpret(Received("not json", NotJson))) == App.Status(App.Error, UnexpectedPrefix + "not json")
  {
    ShortReplyQuotedWhole("not json");
  }
}
