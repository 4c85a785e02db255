/**
  The file collector both front ends run before submitting: at most three files,
  none above 1.5 MiB, together at most 5 MiB, each read as a data URL and stored
  as `{ fileName, data, mimeType }` in selection order. The two copies differ only
  in how they cut the base64 payload out of the data URL, so the reference
  definition here takes that cut as a parameter.
*/
module Attachments {
  import opened Wrappers
  import opened Errors

  const MaxFiles := 3
  /** `MAX_FILE_MB * 1024 * 1024` with MAX_FILE_MB = 1.5: an exact integer. */
  const MaxFileBytes := 1572864
  /** `MAX_TOTAL_MB * 1024 * 1024` with MAX_TOTAL_MB = 5. */
  const MaxTotalBytes := 5242880

  /** A file the user picked: its name, its size in bytes and its MIME type. */
  datatype SelectedFile = SelectedFile(name: string, size: nat, mimeType: string)

  /** What `FileReader.readAsDataURL` delivers: the data URL on `load`, or an `error`. */
  datatype ReadOutcome = Loaded(dataUrl: string) | ReadError

  /** One entry of the submitted `files` array. */
  datatype Attachment<D> = Attachment(fileName: string, data: D, mimeType: string)

  /** `{ msg: `แนบได้ไม่เกิน ${MAX_FILES} ไฟล์` }`. */
  const TooManyFiles := Problem("แนบได้ไม่เกิน 3 ไฟล์", None)

  /** `{ msg: `ไฟล์ ${name} ใหญ่เกินกำหนด` }`. */
  function FileTooLarge(name: string): Thrown {
    Problem("ไฟล์ " + name + " ใหญ่เกินกำหนด", None)
  }

  /** `{ msg: "ขนาดไฟล์รวมเกิน 5MB" }`. */
  const TotalTooLarge := Problem("ขนาดไฟล์รวมเกิน 5MB", None)

  /** The number of bytes in a list of files. */
  function TotalSize(files: seq<SelectedFile>): nat {
    if files == [] then 0 else TotalSize(files[..|files| - 1]) + files[|files| - 1].size
  }

  lemma TotalSizeStep(files: seq<SelectedFile>, i: nat)
    requires i < |files|
    ensures TotalSize(files[..i + 1]) == TotalSize(files[..i]) + files[i].size
  {
    assert files[..i + 1][..i] == files[..i];
  }

  /** A longer prefix never weighs less. */
  lemma {:induction false} TotalSizeMonotone(files: seq<SelectedFile>, i: nat, j: nat)
    requires i <= j <= |files|
    ensures TotalSize(files[..i]) <= TotalSize(files[..j])
    decreases j - i
  {
    if i < j {
      TotalSizeStep(files, j - 1);
      TotalSizeMonotone(files, i, j - 1);
    }
  }

  /** The attachment a loaded file becomes. */
  function AttachmentOf<D>(f: SelectedFile, dataUrl: string, payload: string -> D): Attachment<D> {
    Attachment(f.name, payload(dataUrl), f.mimeType)
  }

  /** Put one more attachment in front of a successful collection. */
  function Prepend<D>(a: Attachment<D>, r: Result<seq<Attachment<D>>, Thrown>): Result<seq<Attachment<D>>, Thrown> {
    match r
    case Ok(rest) => Ok([a] + rest)
    case Err(e) => Err(e)
  }

  /** Put the attachments already collected in front of the rest of a collection. */
  function Extend<D>(done: seq<Attachment<D>>, r: Result<seq<Attachment<D>>, Thrown>): Result<seq<Attachment<D>>, Thrown> {
    match r
    case Ok(rest) => Ok(done + rest)
    case Err(e) => Err(e)
  }

  lemma ExtendNothing<D>(r: Result<seq<Attachment<D>>, Thrown>)
    ensures Extend([], r) == r
  {
    if r.Ok? {
      assert [] + r.value == r.value;
    }
  }

  lemma ExtendPrepend<D>(done: seq<Attachment<D>>, a: Attachment<D>, r: Result<seq<Attachment<D>>, Thrown>)
    ensures Extend(done, Prepend(a, r)) == Extend(done + [a], r)
  {
    if r.Ok? {
      assert done + ([a] + r.value) == (done + [a]) + r.value;
    }
  }

  /** Reference definition of the collection from index i on: the file at i is first
      held to the per-file limit, then the bytes of list[..i + 1] to the aggregate
      limit, and only then read. */
  function CollectFrom<D>(list: seq<SelectedFile>, i: nat, reader: SelectedFile -> ReadOutcome, payload: string -> D)
    : Result<seq<Attachment<D>>, Thrown>
    requires i <= |list|
    decreases |list| - i
  {
    if i == |list| then Ok([])
    else if list[i].size > MaxFileBytes then Err(FileTooLarge(list[i].name))
    else if TotalSize(list[..i + 1]) > MaxTotalBytes then Err(TotalTooLarge)
    else match reader(list[i])
      case ReadError => Err(ReadFailureEvent)
      case Loaded(url) => Prepend(AttachmentOf(list[i], url, payload), CollectFrom(list, i + 1, reader, payload))
  }

  /** One step of the collection, case by case. */
  lemma CollectFromStep<D>(list: seq<SelectedFile>, i: nat, reader: SelectedFile -> ReadOutcome, payload: string -> D)
    requires i < |list|
    ensures list[i].size > MaxFileBytes ==> CollectFrom(list, i, reader, payload) == Err(FileTooLarge(list[i].name))
    ensures list[i].size <= MaxFileBytes && TotalSize(list[..i + 1]) > MaxTotalBytes ==>
              CollectFrom(list, i, reader, payload) == Err(TotalTooLarge)
    ensures list[i].size <= MaxFileBytes && TotalSize(list[..i + 1]) <= MaxTotalBytes && reader(list[i]).ReadError? ==>
              CollectFrom(list, i, reader, payload) == Err(ReadFailureEvent)
    ensures list[i].size <= MaxFileBytes && TotalSize(list[..i + 1]) <= MaxTotalBytes && reader(list[i]).Loaded? ==>
              CollectFrom(list, i, reader, payload) ==
              Prepend(AttachmentOf(list[i], reader(list[i]).dataUrl, payload), CollectFrom(list, i + 1, reader, payload))
  {
  }

  /** Reference definition of `readFiles(list)`: the count is checked before anything else. */
  function ReadFilesSpec<D>(list: seq<SelectedFile>, reader: SelectedFile -> ReadOutcome, payload: string -> D)
    : Result<seq<Attachment<D>>, Thrown>
  {
    if |list| > MaxFiles then Err(TooManyFiles) else CollectFrom(list, 0, reader, payload)
  }

  /** Every file is within the per-file limit and reads successfully. */
  ghost predicate EachAcceptable(list: seq<SelectedFile>, reader: SelectedFile -> ReadOutcome, lo: nat, hi: nat) {
    forall k :: lo <= k < hi && k < |list| ==> list[k].size <= MaxFileBytes && reader(list[k]).Loaded?
  }

  /** The attachments are exactly the files of list[i..], in order, names and MIME types copied. */
  ghost predicate Mirrors<D>(r: seq<Attachment<D>>, list: seq<SelectedFile>, i: nat, reader: SelectedFile -> ReadOutcome, payload: string -> D)
    requires i <= |list|
  {
    && |r| == |list| - i
    && forall k :: i <= k < |list| ==>
         reader(list[k]).Loaded? && r[k - i] == AttachmentOf(list[k], reader(list[k]).dataUrl, payload)
  }

  lemma {:induction false} CollectFromOk<D>(list: seq<SelectedFile>, i: nat, reader: SelectedFile -> ReadOutcome, payload: string -> D)
    requires i <= |list|
    ensures CollectFrom(list, i, reader, payload).Ok? <==>
              EachAcceptable(list, reader, i, |list|) && (i < |list| ==> TotalSize(list) <= MaxTotalBytes)
    ensures CollectFrom(list, i, reader, payload).Ok? ==> Mirrors(CollectFrom(list, i, reader, payload).value, list, i, reader, payload)
    decreases |list| - i
  {
    if i < |list| {
      CollectFromOk(list, i + 1, reader, payload);
      TotalSizeMonotone(list, i + 1, |list|);
      assert list[..|list|] == list;
      var r := CollectFrom(list, i, reader, payload);
      if r.Ok? {
        var rest := CollectFrom(list, i + 1, reader, payload).value;
        assert r.value == [AttachmentOf(list[i], reader(list[i]).dataUrl, payload)] + rest;
        forall k | i <= k < |list|
          ensures reader(list[k]).Loaded? && r.value[k - i] == AttachmentOf(list[k], reader(list[k]).dataUrl, payload)
        {
          if k > i { assert r.value[k - i] == rest[k - (i + 1)]; }
        }
      }
    }
  }

  /** `readFiles` succeeds exactly when there are at most three files, each within
      1.5 MiB, together within 5 MiB, and every read succeeds. */
  lemma ReadFilesSucceedsIff<D>(list: seq<SelectedFile>, reader: SelectedFile -> ReadOutcome, payload: string -> D)
    ensures ReadFilesSpec(list, reader, payload).Ok? <==>
              && |list| <= MaxFiles
              && (forall k :: 0 <= k < |list| ==> list[k].size <= MaxFileBytes)
              && TotalSize(list) <= MaxTotalBytes
              && (forall k :: 0 <= k < |list| ==> reader(list[k]).Loaded?)
  {
    CollectFromOk(list, 0, reader, payload);
  }

  /** On success the attachments mirror the selection: same length, same order,
      `fileName` and `mimeType` copied, `data` cut from each file's data URL. */
  lemma ReadFilesMirrorsSelection<D>(list: seq<SelectedFile>, reader: SelectedFile -> ReadOutcome, payload: string -> D)
    requires ReadFilesSpec(list, reader, payload).Ok?
    ensures Mirrors(ReadFilesSpec(list, reader, payload).value, list, 0, reader, payload)
  {
    CollectFromOk(list, 0, reader, payload);
  }

  /** A failure at index k is reported from every earlier starting point. */
  lemma {:induction false} CollectFromFailsAt<D>(list: seq<SelectedFile>, i: nat, k: nat, reader: SelectedFile -> ReadOutcome, payload: string -> D)
    requires i <= k < |list|
    requires EachAcceptable(list, reader, i, k) && TotalSize(list[..k]) <= MaxTotalBytes
    requires CollectFrom(list, k, reader, payload).Err?
    ensures CollectFrom(list, i, reader, payload) == CollectFrom(list, k, reader, payload)
    decreases k - i
  {
    if i < k {
      CollectFromFailsAt(list, i + 1, k, reader, payload);
      TotalSizeMonotone(list, i + 1, k);
    }
  }

  /** The first file that breaks a rule decides the error, and for that file the
      per-file limit is checked before the aggregate one, which is checked before
      the read: an oversized file is reported as such even when the running total
      is over too. */
  lemma ReadFilesFirstFailure<D>(list: seq<SelectedFile>, k: nat, reader: SelectedFile -> ReadOutcome, payload: string -> D)
    requires |list| <= MaxFiles && k < |list|
    requires EachAcceptable(list, reader, 0, k) && TotalSize(list[..k]) <= MaxTotalBytes
    ensures list[k].size > MaxFileBytes ==>
              ReadFilesSpec(list, reader, payload) == Err(FileTooLarge(list[k].name))
    ensures list[k].size <= MaxFileBytes && TotalSize(list[..k + 1]) > MaxTotalBytes ==>
              ReadFilesSpec(list, reader, payload) == Err(TotalTooLarge)
    ensures list[k].size <= MaxFileBytes && TotalSize(list[..k + 1]) <= MaxTotalBytes && reader(list[k]).ReadError? ==>
              ReadFilesSpec(list, reader, payload) == Err(ReadFailureEvent)
  {
    if CollectFrom(list, k, reader, payload).Err? {
      CollectFromFailsAt(list, 0, k, reader, payload);
    }
  }

  /** Files each within the per-file limit weigh at most that limit apiece. */
  lemma {:induction false} TotalSizeBound(files: seq<SelectedFile>, n: nat)
    requires n <= |files|
    requires forall k :: 0 <= k < n ==> files[k].size <= MaxFileBytes
    ensures TotalSize(files[..n]) <= n * MaxFileBytes
  {
    if n > 0 {
      TotalSizeStep(files, n - 1);
      TotalSizeBound(files, n - 1);
    }
  }

  lemma {:induction false} CollectFromNeverTotal<D>(list: seq<SelectedFile>, i: nat, reader: SelectedFile -> ReadOutcome, payload: string -> D)
    requires i <= |list| <= MaxFiles
    requires forall k :: 0 <= k < i ==> list[k].size <= MaxFileBytes
    ensures CollectFrom(list, i, reader, payload) != Err(TotalTooLarge)
    decreases |list| - i
  {
    if i < |list| {
      if list[i].size > MaxFileBytes {
        assert FileTooLarge(list[i].name).msg[0] != TotalTooLarge.msg[0];
      } else {
        TotalSizeBound(list, i + 1);
        CollectFromNeverTotal(list, i + 1, reader, payload);
      }
    }
  }

  /** The aggregate limit never decides anything: at most three files of at most
      1.5 MiB weigh at most 4.5 MiB, under the 5 MiB limit, so `readFiles` never
      fails with the aggregate-size error. */
  lemma AggregateLimitUnreachable<D>(list: seq<SelectedFile>, reader: SelectedFile -> ReadOutcome, payload: string -> D)
    ensures ReadFilesSpec(list, reader, payload) != Err(TotalTooLarge)
  {
    if |list| <= MaxFiles {
      CollectFromNeverTotal(list, 0, reader, payload);
    }
  }

  /** The attachments with each `data` passed through g, names and types kept. */
  function Relabel<D, E>(attachments: seq<Attachment<D>>, g: D -> E): (r: seq<Attachment<E>>)
    ensures |r| == |attachments|
    ensures forall k :: 0 <= k < |r| ==>
              r[k] == Attachment(attachments[k].fileName, g(attachments[k].data), attachments[k].mimeType)
  {
    if attachments == [] then []
    else [Attachment(attachments[0].fileName, g(attachments[0].data), attachments[0].mimeType)] + Relabel(attachments[1..], g)
  }

  /** A collection with each `data` passed through g; errors are kept. */
  function RelabelResult<D, E>(r: Result<seq<Attachment<D>>, Thrown>, g: D -> E): Result<seq<Attachment<E>>, Thrown> {
    match r
    case Ok(attachments) => Ok(Relabel(attachments, g))
    case Err(e) => Err(e)
  }

  /** Cutting the payload differently changes nothing but the `data` of each
      attachment: when q is p followed by g, the collection with q is the one with
      p relabelled by g, error for error. */
  lemma {:induction false} CollectFromRelabels<D, E>(list: seq<SelectedFile>, i: nat, reader: SelectedFile -> ReadOutcome,
                                                     p: string -> D, q: string -> E, g: D -> E)
    requires i <= |list|
    requires forall s :: q(s) == g(p(s))
    ensures CollectFrom(list, i, reader, q) == RelabelResult(CollectFrom(list, i, reader, p), g)
    decreases |list| - i
  {
    if i < |list| {
      CollectFromRelabels(list, i + 1, reader, p, q, g);
      var rest := CollectFrom(list, i + 1, reader, p);
      if rest.Ok? {
        var a := AttachmentOf(list[i], if reader(list[i]).Loaded? then reader(list[i]).dataUrl else "", p);
        assert ([a] + rest.value)[1..] == rest.value;
      }
    }
  }

  lemma ReadFilesRelabels<D, E>(list: seq<SelectedFile>, reader: SelectedFile -> ReadOutcome, p: string -> D, q: string -> E, g: D -> E)
    requires forall s :: q(s) == g(p(s))
    ensures ReadFilesSpec(list, reader, q) == RelabelResult(ReadFilesSpec(list, reader, p), g)
  {
    CollectFromRelabels(list, 0, reader, p, q, g);
  }

  /** The loop of `readFiles(list)`, with the cut of the data URL as `payload`. The
      FileReader is `reader`; `started` counts the reads begun. No read begins when
      there are too many files, and no file that is too large, or that would take
      the total over 5 MiB, is ever read. */
  method Collect<D>(list: seq<SelectedFile>, reader: SelectedFile -> ReadOutcome, payload: string -> D)
    returns (r: Result<seq<Attachment<D>>, Thrown>, started: nat)
    ensures r == ReadFilesSpec(list, reader, payload)
    ensures |list| > MaxFiles ==> r == Err(TooManyFiles) && started == 0
    ensures started <= |list| && (r.Ok? ==> started == |list|)
    ensures forall k :: 0 <= k < started ==> list[k].size <= MaxFileBytes
    ensures TotalSize(list[..started]) <= MaxTotalBytes
  {
    started := 0;
    if |list| > MaxFiles {
      r := Err(TooManyFiles);
      return;
    }
    var total := 0;
    var results := [];
    ExtendNothing(CollectFrom(list, 0, reader, payload));
    for i := 0 to |list|
      invariant started == i
      invariant total == TotalSize(list[..i]) && total <= MaxTotalBytes
      invariant forall k :: 0 <= k < i ==> list[k].size <= MaxFileBytes
      invariant ReadFilesSpec(list, reader, payload) == Extend(results, CollectFrom(list, i, reader, payload))
    {
      var file := list[i];
      TotalSizeStep(list, i);
      CollectFromStep(list, i, reader, payload);
      total := total + file.size;
      if file.size > MaxFileBytes {
        r := Err(FileTooLarge(file.name));
        return;
      }
      if total > MaxTotalBytes {
        r := Err(TotalTooLarge);
        return;
      }
      started := started + 1;
      var outcome := reader(file);
      if outcome.ReadError? {
        r := Err(ReadFailureEvent);
        return;
      }
      var attachment := Attachment(file.name, payload(outcome.dataUrl), file.mimeType);
      ExtendPrepend(results, attachment, CollectFrom(list, i + 1, reader, payload));
      results := results + [attachment];
    }
    assert results + [] == results;
    r := Ok(results);
  }
}
