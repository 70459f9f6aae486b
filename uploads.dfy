/** The document-upload screen: a queue of local PDF files filled from the file
    picker or by drag and drop, a sequential upload pass over the queue, the
    server's document registry with a two-step delete, and a search over it.
    Transfer results and server responses are parameters of the handlers; user
    alerts are recorded in `alerts`. */
module Uploads {
  import opened Wrappers
  import opened Text
  import opened Seqs

  /** A file the user picked or dropped, with its declared MIME type. */
  datatype LocalFile = LocalFile(name: string, mimeType: string)

  /** A document held by the server. */
  datatype Document = Document(name: string, size: int, chunks: int)

  /** A percentage as the progress bar shows it. */
  type Percent = p: int | 0 <= p <= 100

  /** The progress bar: which file, and how far. */
  datatype Progress = Progress(name: string, percent: Percent)

  /** How one file's transfer ends: the HTTP status it completed with, or a network error. */
  datatype TransferStatus = Completed(code: int) | NetworkError

  /** One file's transfer: the last progress value reported (if any) and how it ended. */
  datatype Transfer = Transfer(lastProgress: Option<Percent>, status: TransferStatus)

  /** How a document deletion ends: ok, a non-ok response, or a thrown request. */
  datatype DeleteResult = DeleteOk | DeleteNotOk | DeleteThrew

  const PdfType: string := "application/pdf"
  const PdfOnlyAlert: string := "Only PDF files are allowed"
  const DeleteFailedAlert: string := "Failed to delete document"

  predicate IsPdf(f: LocalFile) {
    f.mimeType == PdfType
  }

  /** A transfer succeeded when it completed with a 2xx status. */
  predicate Succeeded(t: Transfer) {
    t.status.Completed? && 200 <= t.status.code < 300
  }

  /** The picker keeps exactly the chosen files declared as PDF, and drops nothing
      exactly when every chosen file is one. */
  lemma PdfSelection(picked: seq<LocalFile>)
    ensures forall f :: f in Filter(picked, IsPdf) <==> f in picked && f.mimeType == PdfType
    ensures |Filter(picked, IsPdf)| == |picked| <==> forall i :: 0 <= i < |picked| ==> picked[i].mimeType == PdfType
  {
    FilterKeepsAll(picked, IsPdf);
    forall f | f in picked && IsPdf(f) ensures f in Filter(picked, IsPdf) {
      var i :| 0 <= i < |picked| && picked[i] == f;
    }
  }

  /** A single transfer raises no alert exactly when it completed with a 2xx status;
      a network error always raises one naming the file. */
  lemma SingleTransferAlert(f: LocalFile, t: Transfer)
    ensures FailureAlerts([f], [t]) == [] <==> t.status.Completed? && 200 <= t.status.code < 300
    ensures t.status.NetworkError? ==> FailureAlerts([f], [t]) == [UploadAlert(f.name)]
  {
    assert [f][..0] == [] && [t][..0] == [];
  }

  function UploadAlert(name: string): string {
    "Failed to upload " + name
  }

  /** The alerts an upload pass raises, in queue order: one for each file whose
      transfer failed. */
  function FailureAlerts(files: seq<LocalFile>, transfers: seq<Transfer>): (r: seq<string>)
    requires |files| == |transfers|
    ensures |r| <= |files|
  {
    if |files| == 0 then []
    else
      var n := |files| - 1;
      FailureAlerts(files[..n], transfers[..n])
      + (if Succeeded(transfers[n]) then [] else [UploadAlert(files[n].name)])
  }

  /** The upload alerts name exactly the failed files: none when every transfer
      succeeded, one naming each failed file, and each naming some failed file. */
  lemma {:induction false} FailureAlertsNameFailures(files: seq<LocalFile>, transfers: seq<Transfer>)
    requires |files| == |transfers|
    ensures var r := FailureAlerts(files, transfers);
      && (r == [] <==> forall i :: 0 <= i < |files| ==> Succeeded(transfers[i]))
      && (forall i :: 0 <= i < |files| && !Succeeded(transfers[i]) ==> UploadAlert(files[i].name) in r)
      && (forall k :: 0 <= k < |r| ==>
            exists i :: 0 <= i < |files| && !Succeeded(transfers[i]) && r[k] == UploadAlert(files[i].name))
  {
    if |files| > 0 {
      var n := |files| - 1;
      FailureAlertsNameFailures(files[..n], transfers[..n]);
      assert forall i :: 0 <= i < n ==> files[..n][i] == files[i] && transfers[..n][i] == transfers[i];
    }
  }

  /** Sending one more file of the queue appends at most its own alert. */
  lemma FailureAlertsStep(files: seq<LocalFile>, transfers: seq<Transfer>, i: nat)
    requires |files| == |transfers| && i < |files|
    ensures FailureAlerts(files[..i + 1], transfers[..i + 1])
      == FailureAlerts(files[..i], transfers[..i])
         + (if Succeeded(transfers[i]) then [] else [UploadAlert(files[i].name)])
  {
    assert files[..i + 1][..i] == files[..i] && transfers[..i + 1][..i] == transfers[..i];
  }

  /** The progress shown once a file has been sent: reset to 0 under its name, then
      at the last value its transfer reported. */
  function FinalProgress(f: LocalFile, t: Transfer): (r: Progress)
    ensures r.name == f.name
    ensures t.lastProgress.None? ==> r.percent == 0
    ensures t.lastProgress.Some? ==> r.percent == t.lastProgress.value
  {
    Progress(f.name, t.lastProgress.GetOr(0))
  }

  /** The documents whose lower-cased name contains the lower-cased search term, in
      registry order. */
  function FilteredDocuments(docs: seq<Document>, term: string): (r: seq<Document>)
    ensures forall i :: 0 <= i < |r| ==> r[i] in docs && Includes(ToLower(r[i].name), ToLower(term))
    ensures forall i :: 0 <= i < |docs| && Includes(ToLower(docs[i].name), ToLower(term)) ==> docs[i] in r
  {
    Filter(docs, (d: Document) => Includes(ToLower(d.name), ToLower(term)))
  }

  /** An empty search shows every document, in order. */
  lemma EmptySearchShowsAll(docs: seq<Document>)
    ensures FilteredDocuments(docs, "") == docs
  {
    var keep := (d: Document) => Includes(ToLower(d.name), ToLower(""));
    forall i | 0 <= i < |docs| ensures keep(docs[i]) {
      IncludesEmpty(ToLower(docs[i].name));
    }
    FilterKeepsAll(docs, keep);
  }

  /** The search is case-insensitive: terms that lower-case alike find the same documents. */
  lemma SearchIgnoresCase(docs: seq<Document>, term: string)
    ensures FilteredDocuments(docs, term) == FilteredDocuments(docs, ToLower(term))
  {
    ToLowerIdempotent(term);
  }

  /** All the state of the screen that the handlers read or write. */
  datatype Page = Page(
    files: seq<LocalFile>, uploading: bool, currentFileProgress: Progress,
    loadedDocuments: seq<Document>, showModal: bool, fileToDelete: Option<string>,
    searchTerm: string, alerts: seq<string>)

  class UploadPage {
    var files: seq<LocalFile>
    var uploading: bool
    var currentFileProgress: Progress
    var loadedDocuments: seq<Document>
    var showModal: bool
    var fileToDelete: Option<string>
    var searchTerm: string
    var alerts: seq<string>

    function State(): Page
      reads this
    {
      Page(files, uploading, currentFileProgress, loadedDocuments, showModal, fileToDelete,
        searchTerm, alerts)
    }

    /** Between two events no upload pass is running. */
    ghost predicate Valid()
      reads this
    {
      !uploading
    }

    constructor ()
      ensures Valid()
      ensures State() == Page([], false, Progress("", 0), [], false, None, "", [])
    {
      files, uploading, currentFileProgress := [], false, Progress("", 0);
      loadedDocuments, showModal, fileToDelete := [], false, None;
      searchTerm, alerts := "", [];
    }

    /** Applies a document-list fetch: replaced when the response was ok. */
    method FetchDocuments(fetched: Option<seq<Document>>)
      modifies this
      ensures State() == old(State()).(loadedDocuments := if fetched.Some? then fetched.value else old(loadedDocuments))
    {
      if fetched.Some? {
        loadedDocuments := fetched.value;
      }
    }

    /** Files are picked or dropped: the PDFs among them join the end of the queue in
        their order, and the alert "Only PDF files are allowed" is raised exactly when
        some file was not a PDF. */
    method AddFiles(picked: seq<LocalFile>)
      requires Valid()
      modifies this
      ensures Valid()
      ensures var rejected := exists i :: 0 <= i < |picked| && !IsPdf(picked[i]);
        State() == old(State()).(files := old(files) + Filter(picked, IsPdf),
          alerts := old(alerts) + (if rejected then [PdfOnlyAlert] else []))
    {
      var pdfFiles := Filter(picked, IsPdf);
      FilterKeepsAll(picked, IsPdf);
      if |picked| != |pdfFiles| {
        alerts := alerts + [PdfOnlyAlert];
      }
      files := files + pdfFiles;
    }

    /** The file at `index` leaves the queue; the others keep their order. */
    method RemoveFile(index: int)
      requires Valid()
      modifies this
      ensures Valid()
      ensures State() == old(State()).(files := RemoveAt(old(files), index))
    {
      files := RemoveAt(files, index);
    }

    /** Uploads the queue. An empty queue changes nothing. Otherwise the files are sent
        one after the other in queue order (`started` lists each one's progress reset
        to 0 under its own name); each failure (`transfers[i]` not 2xx) raises an alert
        and the pass goes on. Afterwards no upload is running, the queue is empty and
        the registry is refetched (`fetched`). */
    method UploadFiles(transfers: seq<Transfer>, fetched: Option<seq<Document>>)
      returns (started: seq<Progress>)
      requires Valid()
      requires |transfers| == |files|
      modifies this
      ensures Valid()
      ensures |old(files)| == 0 ==> started == [] && State() == old(State())
      ensures |started| == |old(files)|
      ensures forall i :: 0 <= i < |started| ==> started[i] == Progress(old(files)[i].name, 0)
      ensures |old(files)| > 0 ==>
        (var last := |old(files)| - 1;
         State() == old(State()).(files := [],
           currentFileProgress := FinalProgress(old(files)[last], transfers[last]),
           alerts := old(alerts) + FailureAlerts(old(files), transfers),
           loadedDocuments := if fetched.Some? then fetched.value else old(loadedDocuments)))
    {
      started := [];
      if |files| == 0 {
        return;
      }
      uploading := true;
      var queue := files;
      var i := 0;
      while i < |queue|
        invariant 0 <= i <= |queue|
        invariant queue == old(files)
        invariant |started| == i
        invariant forall k :: 0 <= k < i ==> started[k] == Progress(queue[k].name, 0)
        invariant i > 0 ==> currentFileProgress == FinalProgress(queue[i - 1], transfers[i - 1])
        invariant State() == old(State()).(uploading := true, currentFileProgress := currentFileProgress,
          alerts := old(alerts) + FailureAlerts(queue[..i], transfers[..i]))
      {
        var start := SendFile(queue[i], transfers[i]);
        started := started + [start];
        FailureAlertsStep(queue, transfers, i);
        i := i + 1;
      }
      assert queue[..i] == queue && transfers[..i] == transfers;
      uploading := false;
      files := [];
      FetchDocuments(fetched);
    }

    /** One file of an upload pass: its progress is reset to 0 under its name and then
        follows its transfer; a failed transfer raises an alert naming the file. */
    method SendFile(file: LocalFile, transfer: Transfer) returns (start: Progress)
      modifies this
      ensures start == Progress(file.name, 0)
      ensures currentFileProgress == FinalProgress(file, transfer)
      ensures State() == old(State()).(currentFileProgress := FinalProgress(file, transfer),
        alerts := old(alerts) + (if Succeeded(transfer) then [] else [UploadAlert(file.name)]))
    {
      currentFileProgress := Progress(file.name, 0);
      start := currentFileProgress;
      if transfer.lastProgress.Some? {
        currentFileProgress := Progress(file.name, transfer.lastProgress.value);
      }
      if !Succeeded(transfer) {
        alerts := alerts + [UploadAlert(file.name)];
      }
    }

    /** The search box changes. */
    method SetSearchTerm(term: string)
      requires Valid()
      modifies this
      ensures Valid()
      ensures State() == old(State()).(searchTerm := term)
    {
      searchTerm := term;
    }

    /** The delete button of a document is clicked: it is marked and the confirmation opens. */
    method ConfirmDelete(name: string)
      requires Valid()
      modifies this
      ensures Valid()
      ensures State() == old(State()).(fileToDelete := Some(name), showModal := true)
    {
      fileToDelete := Some(name);
      showModal := true;
    }

    /** The confirmation is cancelled: it closes, the mark stays. */
    method CancelDelete()
      requires Valid()
      modifies this
      ensures Valid()
      ensures State() == old(State()).(showModal := false)
    {
      showModal := false;
    }

    /** The deletion is confirmed. Without a marked name nothing happens. An ok response
        removes every document of that name, closes the confirmation and clears the
        mark; otherwise the alert "Failed to delete document" is raised and the registry
        and the confirmation stay as they were. */
    method DeleteDocument(result: DeleteResult)
      requires Valid()
      modifies this
      ensures Valid()
      ensures !Truthy(old(fileToDelete)) ==> State() == old(State())
      ensures Truthy(old(fileToDelete)) && result.DeleteOk? ==>
        (var name := old(fileToDelete).value;
         State() == old(State()).(
           loadedDocuments := Filter(old(loadedDocuments), (d: Document) => d.name != name),
           showModal := false, fileToDelete := None))
      ensures Truthy(old(fileToDelete)) && !result.DeleteOk? ==>
        State() == old(State()).(alerts := old(alerts) + [DeleteFailedAlert])
    {
      if !Truthy(fileToDelete) {
        return;
      }
      var name := fileToDelete.value;
      if result.DeleteOk? {
        loadedDocuments := Filter(loadedDocuments, (d: Document) => d.name != name);
        showModal := false;
        fileToDelete := None;
      } else {
        alerts := alerts + [DeleteFailedAlert];
      }
    }

    /** The documents the list shows for the current search. */
    function Shown(): (r: seq<Document>)
      reads this
      ensures forall i :: 0 <= i < |r| ==> r[i] in loadedDocuments
      ensures searchTerm == "" ==> r == loadedDocuments
      ensures r == FilteredDocuments(loadedDocuments, searchTerm)
    {
      if searchTerm == "" then
        EmptySearchShowsAll(loadedDocuments); FilteredDocuments(loadedDocuments, searchTerm)
      else FilteredDocuments(loadedDocuments, searchTerm)
    }
  }
}
