/** The upload component (src/app/components/upload-document/
    upload-document.component.ts): validates a picked or dropped file,
    starts the upload at once and follows the HTTP events of that upload.

    The HTTP layer is not modelled; its subscriptions are numbered and the
    events they deliver are inputs. `live` holds the subscriptions whose
    callbacks still run: a subscription leaves it when it is unsubscribed
    or when its stream ends (an error, or completion). */
module Upload {
  import opened JsStrings

  datatype Status = Idle | Ready | Uploading | Success | Error | Cancelled

  /** What the component reads of a browser `File`. */
  datatype FileInfo = FileInfo(name: string, mimeType: string, size: nat)

  const DocxMime: string := "application/vnd.openxmlformats-" + "officedocument.wordprocessingml.document"

  /** The MIME types the component accepts, compared exactly. */
  const Allowed: seq<string> := ["application/pdf", DocxMime, "image/png", "image/jpeg", "text/plain"]

  /** 25 MiB. */
  const MaxSizeBytes: nat := 25 * 1024 * 1024

  const NoFileMessage: string := "Nenhum arquivo selecionado."
  const InvalidTypeMessage: string := "Tipo de arquivo inválido. " + "(Permitidos: PDF, DOCX, PNG, JPG, TXT)"
  const TooLargeMessage: string := "O arquivo ultrapassa o limite de 25MB."
  const ReadyMessage: string := "Arquivo pronto para envio."
  const UploadingMessage: string := "Enviando arquivo..."
  const SuccessMessage: string := "Upload concluído com sucesso!"
  const UploadFailedMessage: string := "Ocorreu um erro ao enviar o arquivo."
  const CancelledMessage: string := "Upload cancelado."

  // ---------------------------------------------------------------------------
  // Validation and progress

  datatype Validation = Accepted | Rejected(message: string)

  /** The two checks of `handleSelectedFile`, type first. */
  function Validate(f: FileInfo): (v: Validation)
    ensures v == Accepted <==> f.mimeType in Allowed && f.size <= MaxSizeBytes
    ensures f.mimeType !in Allowed ==> v == Rejected(InvalidTypeMessage)
    ensures f.mimeType in Allowed && f.size > MaxSizeBytes ==> v == Rejected(TooLargeMessage)
  {
    if f.mimeType !in Allowed then Rejected(InvalidTypeMessage)
    else if f.size > MaxSizeBytes then Rejected(TooLargeMessage)
    else Accepted
  }

  /** `Math.round(loaded / total * 100)` in integers: the nearest whole
      percentage, halves rounded up. */
  function Percent(loaded: nat, total: nat): (p: int)
    requires total > 0
    ensures 2 * total * p - total <= 200 * loaded < 2 * total * p + total
  {
    var n := 200 * loaded + total;
    var d := 2 * total;
    var q := n / d;
    assert d * q <= n < d * q + d;
    q
  }

  lemma PercentBounds(loaded: nat, total: nat)
    requires 0 < total && loaded <= total
    ensures 0 <= Percent(loaded, total) <= 100
    ensures loaded == 0 ==> Percent(loaded, total) == 0
    ensures loaded == total ==> Percent(loaded, total) == 100
  {
    var p := Percent(loaded, total);
    var m := 2 * total;
    // m * p - total <= 200 * loaded <= 200 * total, so m * p < m * 101
    ScaledLess(m, p, 101);
    // 0 <= 200 * loaded < m * p + total, so m * -1 < m * p
    ScaledLess(m, -1, p);
    if loaded == 0 {
      ScaledLess(m, p, 1);
    }
    if loaded == total {
      ScaledLess(m, 99, p);
    }
  }

  lemma ScaledLess(m: nat, a: int, b: int)
    requires m > 0 && m * a < m * b
    ensures a < b
  {
  }

  /** A later progress event of the same upload never shows less. */
  lemma PercentMonotone(a: nat, b: nat, total: nat)
    requires 0 < total && a <= b
    ensures Percent(a, total) <= Percent(b, total)
  {
    var p, q := Percent(a, total), Percent(b, total);
    ScaledLess(2 * total, p, q + 1);
  }

  // ---------------------------------------------------------------------------
  // The component's state and what each operation makes of it

  datatype UploadState = UploadState(
    selectedFile: Option<FileInfo>,
    progress: int,
    status: Status,
    statusMessage: string,
    uploadSub: Option<nat>,   // the subscription `uploadSub` holds
    isDragging: bool,
    live: set<nat>,           // subscriptions whose callbacks still run
    nextSub: nat)             // number of the next subscription

  /** Subscriptions are numbered in order and never reused. */
  ghost predicate ValidState(s: UploadState) {
    (forall t :: t in s.live ==> t < s.nextSub)
    && (s.uploadSub.Some? ==> s.uploadSub.value < s.nextSub)
  }

  function InitialState(): (s: UploadState)
    ensures ValidState(s)
  {
    UploadState(None, 0, Idle, NoFileMessage, None, false, {}, 0)
  }

  /** `setError(msg)`. */
  function WithError(s: UploadState, msg: string): UploadState {
    s.(status := Error, statusMessage := msg, progress := 0, selectedFile := None)
  }

  /** `setCancelled(msg)`. */
  function WithCancelled(s: UploadState, msg: string): UploadState {
    s.(status := Cancelled, statusMessage := msg, progress := 0, selectedFile := None)
  }

  /** `uploadFile()`: without a selected file nothing happens; otherwise a
      new subscription is opened and held in `uploadSub`. The subscription
      it replaces is not unsubscribed. */
  function AfterUploadStart(s: UploadState): UploadState {
    if s.selectedFile.None? then s
    else s.(status := Uploading, statusMessage := UploadingMessage, progress := 0,
            uploadSub := Some(s.nextSub), live := s.live + {s.nextSub}, nextSub := s.nextSub + 1)
  }

  /** `handleSelectedFile(f)`. */
  function AfterSelect(s: UploadState, f: FileInfo): UploadState {
    match Validate(f)
    case Rejected(msg) => WithError(s, msg)
    case Accepted =>
      AfterUploadStart(s.(selectedFile := Some(f), status := Ready,
                          statusMessage := ReadyMessage, progress := 0))
  }

  /** `onFileSelected`: only the first picked file counts. */
  function AfterFileSelected(s: UploadState, files: seq<FileInfo>): UploadState {
    if |files| > 0 then AfterSelect(s, files[0]) else s
  }

  /** `onFileDrop`; None stands for an event without `dataTransfer`. */
  function AfterDrop(s: UploadState, dropped: Option<seq<FileInfo>>): UploadState {
    var s1 := s.(isDragging := false);
    if dropped.Some? && |dropped.value| > 0 then AfterSelect(s1, dropped.value[0]) else s1
  }

  /** `cancelUpload()`: unsubscribes the held subscription only. */
  function AfterCancel(s: UploadState): UploadState {
    var live := if s.uploadSub.Some? then s.live - {s.uploadSub.value} else s.live;
    WithCancelled(s.(uploadSub := None, live := live), CancelledMessage)
  }

  /** What an upload subscription can deliver. `Other` is any event type
      the `next` handler does not test for (sent, headers, download
      progress); `Failed` reaches the `error` handler; `Completed` ends the
      stream without a handler. */
  datatype UploadEvent =
    | UploadProgress(sub: nat, loaded: nat, total: Option<nat>)
    | Response(sub: nat)
    | Other(sub: nat)
    | Failed(sub: nat)
    | Completed(sub: nat)

  /** The subscription callbacks of `uploadFile`. An event of a subscription
      that no longer runs changes nothing. A progress event without `total`
      while no file is selected throws inside the handler and changes
      nothing; one whose denominator is 0 is left unmodelled (no change). */
  function AfterEvent(s: UploadState, e: UploadEvent): UploadState {
    if e.sub !in s.live then s
    else match e
      case UploadProgress(_, loaded, total) =>
        if total.None? && s.selectedFile.None? then s
        else
          var denominator := if total.Some? then total.value else s.selectedFile.value.size;
          if denominator == 0 then s else s.(progress := Percent(loaded, denominator))
      case Response(_) =>
        s.(status := Success, statusMessage := SuccessMessage, progress := 100, selectedFile := None)
      case Other(_) => s
      case Failed(sub) => WithError(s.(live := s.live - {sub}), UploadFailedMessage)
      case Completed(sub) => s.(live := s.live - {sub})
  }

  /** User actions and HTTP events, in the order they happen. */
  datatype Action =
    | PickFiles(files: seq<FileInfo>)
    | DropFiles(dropped: Option<seq<FileInfo>>)
    | DragOver
    | DragLeave
    | Cancel
    | StartUpload
    | Http(event: UploadEvent)

  function Apply(s: UploadState, a: Action): UploadState {
    match a
    case PickFiles(files) => AfterFileSelected(s, files)
    case DropFiles(dropped) => AfterDrop(s, dropped)
    case DragOver => s.(isDragging := true)
    case DragLeave => s.(isDragging := false)
    case Cancel => AfterCancel(s)
    case StartUpload => AfterUploadStart(s)
    case Http(e) => AfterEvent(s, e)
  }

  function Replay(s: UploadState, actions: seq<Action>): UploadState
    decreases |actions|
  {
    if |actions| == 0 then s else Replay(Apply(s, actions[0]), actions[1..])
  }

  // ---------------------------------------------------------------------------
  // Properties

  /** A file of a type outside the allow-list ends in ERROR with progress 0
      and no file, whatever its size, and no subscription is opened. */
  lemma InvalidTypeRejected(s: UploadState, f: FileInfo)
    requires f.mimeType !in Allowed
    ensures var r := AfterSelect(s, f);
      r.status == Error && r.statusMessage == InvalidTypeMessage && r.progress == 0
      && r.selectedFile == None && r.live == s.live && r.uploadSub == s.uploadSub
      && r.nextSub == s.nextSub
  {
  }

  /** ZIP archives are not on the allow-list. */
  lemma ZipRejected(s: UploadState, size: nat)
    ensures AfterSelect(s, FileInfo("docs.zip", "application/zip", size)).status == Error
  {
    assert "application/zip" != "application/pdf";
    assert "application/zip" != DocxMime by {
      assert |"application/zip"| < |DocxMime|;
    }
  }

  /** The size limit is inclusive: 26,214,400 bytes pass, one more fails
      with the "25MB" message, and no subscription is opened. */
  lemma SizeBoundary(s: UploadState, name: string, mime: string)
    requires mime in Allowed
    ensures AfterSelect(s, FileInfo(name, mime, 26214400)).status == Uploading
    ensures var r := AfterSelect(s, FileInfo(name, mime, 26214401));
      r.status == Error && r.statusMessage == TooLargeMessage && r.nextSub == s.nextSub
    ensures Contains(TooLargeMessage, "25MB")
  {
    ContainsAt(TooLargeMessage, "25MB", 33);
  }

  /** A valid file is kept and its upload starts at once, from 0%, on a new
      subscription. */
  lemma ValidFileStartsUpload(s: UploadState, f: FileInfo)
    requires ValidState(s)
    requires f.mimeType in Allowed && f.size <= MaxSizeBytes
    ensures var r := AfterSelect(s, f);
      r.status == Uploading && r.progress == 0 && r.selectedFile == Some(f)
      && r.uploadSub == Some(s.nextSub) && r.live == s.live + {s.nextSub}
      && s.nextSub !in s.live && ValidState(r)
  {
  }

  /** A live progress event sets the rounded percentage, with the file size
      standing in for a missing total; inside the upload it stays in 0..100. */
  lemma ProgressEventSetsPercent(s: UploadState, sub: nat, loaded: nat, total: Option<nat>)
    requires sub in s.live
    requires total.Some? ==> total.value > 0
    requires total.None? ==> s.selectedFile.Some? && s.selectedFile.value.size > 0
    ensures var d := if total.Some? then total.value else s.selectedFile.value.size;
      var r := AfterEvent(s, UploadProgress(sub, loaded, total));
      r == s.(progress := Percent(loaded, d))
      && (loaded <= d ==> 0 <= r.progress <= 100)
  {
    var d := if total.Some? then total.value else s.selectedFile.value.size;
    if loaded <= d {
      PercentBounds(loaded, d);
    }
  }

  /** The live response ends in SUCCESS at 100% with the file cleared; a live
      error ends in ERROR at 0% with the file cleared and its stream closed. */
  lemma ResponseAndErrorEvents(s: UploadState, sub: nat)
    requires sub in s.live
    ensures var r := AfterEvent(s, Response(sub));
      r.status == Success && r.progress == 100 && r.selectedFile == None
      && r.statusMessage == SuccessMessage
    ensures var r := AfterEvent(s, Failed(sub));
      r.status == Error && r.progress == 0 && r.selectedFile == None
      && r.statusMessage == UploadFailedMessage && sub !in r.live
  {
  }

  /** Events never open a subscription. */
  lemma EventsOnlyClose(s: UploadState, e: UploadEvent)
    ensures AfterEvent(s, e).live <= s.live
    ensures AfterEvent(s, e).nextSub == s.nextSub
  {
  }

  /** Every action keeps subscriptions numbered below `nextSub`. */
  lemma ApplyKeepsValid(s: UploadState, a: Action)
    requires ValidState(s)
    ensures ValidState(Apply(s, a))
    ensures s.nextSub <= Apply(s, a).nextSub
    ensures forall t :: t in Apply(s, a).live && t !in s.live ==> s.nextSub <= t < Apply(s, a).nextSub
  {
  }

  /** Cancellation is final for the cancelled subscription: once released it
      never runs again, so none of its later events, in any interleaving
      with other actions, changes anything. */
  lemma {:induction false} ReleasedStaysReleased(s: UploadState, t: nat, actions: seq<Action>)
    requires ValidState(s) && t < s.nextSub && t !in s.live
    ensures var r := Replay(s, actions);
      ValidState(r) && t < r.nextSub && t !in r.live
      && forall e: UploadEvent :: e.sub == t ==> AfterEvent(r, e) == r
    decreases |actions|
  {
    if |actions| > 0 {
      ApplyKeepsValid(s, actions[0]);
      ReleasedStaysReleased(Apply(s, actions[0]), t, actions[1..]);
    }
  }

  lemma CancelIsFinal(s: UploadState, actions: seq<Action>)
    requires ValidState(s) && s.uploadSub.Some?
    ensures var c := AfterCancel(s);
      c.status == Cancelled && c.progress == 0 && c.selectedFile == None && c.uploadSub == None
    ensures var r := Replay(AfterCancel(s), actions);
      forall e: UploadEvent :: e.sub == s.uploadSub.value ==> AfterEvent(r, e) == r
  {
    ReleasedStaysReleased(AfterCancel(s), s.uploadSub.value, actions);
  }

  /** `onFileDrop` always clears the drag flag; a drop without files changes
      nothing else, and only the first dropped file is handled. */
  lemma DropUsesFirstFile(s: UploadState, dropped: Option<seq<FileInfo>>)
    ensures !AfterDrop(s, dropped).isDragging
    ensures dropped.None? || |dropped.value| == 0 ==> AfterDrop(s, dropped) == s.(isDragging := false)
    ensures dropped.Some? && |dropped.value| > 0 ==>
              AfterDrop(s, dropped) == AfterSelect(s.(isDragging := false), dropped.value[0])
  {
  }

  /** Selecting a second file while the first uploads, then cancelling,
      leaves the first upload running: its response still reports SUCCESS. */
  lemma CancelMissesReplacedUpload(a: FileInfo, b: FileInfo)
    requires Validate(a) == Accepted && Validate(b) == Accepted
    ensures var r := Replay(InitialState(), [PickFiles([a]), PickFiles([b]), Cancel]);
      r.status == Cancelled && 0 in r.live
    ensures Replay(InitialState(), [PickFiles([a]), PickFiles([b]), Cancel, Http(Response(0))]).status
            == Success
  {
    var s1 := Apply(InitialState(), PickFiles([a]));
    assert s1.live == {0} && s1.uploadSub == Some(0) && s1.nextSub == 1;
    var s2 := Apply(s1, PickFiles([b]));
    assert s2.live == {0, 1} && s2.uploadSub == Some(1);
    var s3 := Apply(s2, Cancel);
    assert s3.live == {0} && s3.status == Cancelled;
    var s4 := Apply(s3, Http(Response(0)));
    assert s4.status == Success;
    assert Replay(s3, [Http(Response(0))]) == s4;
    assert Replay(s2, [Cancel, Http(Response(0))]) == s4;
    assert Replay(s1, [PickFiles([b]), Cancel, Http(Response(0))]) == s4;
    assert Replay(s2, [Cancel]) == s3;
    assert Replay(s1, [PickFiles([b]), Cancel]) == s3;
  }

  // ---------------------------------------------------------------------------
  // The component

  class UploadDocumentComponent {
    var selectedFile: Option<FileInfo>
    var progress: int
    var status: Status
    var statusMessage: string
    var uploadSub: Option<nat>
    var isDragging: bool
    var live: set<nat>
    var nextSub: nat

    function State(): UploadState
      reads this
    {
      UploadState(selectedFile, progress, status, statusMessage, uploadSub, isDragging, live, nextSub)
    }

    ghost predicate Valid()
      reads this
    {
      ValidState(State())
    }

    constructor ()
      ensures Valid() && State() == InitialState()
    {
      selectedFile := None;
      progress := 0;
      status := Idle;
      statusMessage := NoFileMessage;
      uploadSub := None;
      isDragging := false;
      live := {};
      nextSub := 0;
    }

    method OnDragOver()
      modifies this`isDragging
      ensures isDragging
    {
      isDragging := true;
    }

    method OnDragLeave()
      modifies this`isDragging
      ensures !isDragging
    {
      isDragging := false;
    }

    method OnFileDrop(dropped: Option<seq<FileInfo>>)
      requires Valid()
      modifies this
      ensures Valid() && State() == AfterDrop(old(State()), dropped)
    {
      isDragging := false;
      if dropped.Some? && |dropped.value| > 0 {
        HandleSelectedFile(dropped.value[0]);
      }
    }

    /** Returns the input element's new `value`: cleared only when a file was
        picked. */
    method OnFileSelected(files: seq<FileInfo>, inputValue: string) returns (newInputValue: string)
      requires Valid()
      modifies this
      ensures Valid() && State() == AfterFileSelected(old(State()), files)
      ensures newInputValue == if |files| > 0 then "" else inputValue
    {
      newInputValue := inputValue;
      if |files| > 0 {
        HandleSelectedFile(files[0]);
        newInputValue := "";
      }
    }

    method HandleSelectedFile(f: FileInfo)
      requires Valid()
      modifies this
      ensures Valid() && State() == AfterSelect(old(State()), f)
    {
      if f.mimeType !in Allowed {
        SetError(InvalidTypeMessage);
        return;
      }
      if f.size > MaxSizeBytes {
        SetError(TooLargeMessage);
        return;
      }
      selectedFile := Some(f);
      status := Ready;
      statusMessage := ReadyMessage;
      progress := 0;
      UploadFile();
    }

    method UploadFile()
      requires Valid()
      modifies this
      ensures Valid() && State() == AfterUploadStart(old(State()))
    {
      if selectedFile.None? {
        return;
      }
      status := Uploading;
      statusMessage := UploadingMessage;
      progress := 0;
      live := live + {nextSub};
      uploadSub := Some(nextSub);
      nextSub := nextSub + 1;
    }

    /** The `next` and `error` callbacks of the upload subscriptions, and the
        end of a stream. */
    method OnUploadEvent(e: UploadEvent)
      requires Valid()
      modifies this
      ensures Valid() && State() == AfterEvent(old(State()), e)
    {
      if e.sub !in live {
        return;
      }
      match e
      case UploadProgress(_, loaded, total) =>
        if total.None? && selectedFile.None? {
          return;
        }
        var denominator := if total.Some? then total.value else selectedFile.value.size;
        if denominator > 0 {
          progress := Percent(loaded, denominator);
        }
      case Response(_) =>
        status := Success;
        statusMessage := SuccessMessage;
        progress := 100;
        selectedFile := None;
      case Other(_) =>
      case Failed(sub) =>
        live := live - {sub};
        SetError(UploadFailedMessage);
      case Completed(sub) =>
        live := live - {sub};
    }

    method CancelUpload()
      requires Valid()
      modifies this
      ensures Valid() && State() == AfterCancel(old(State()))
    {
      if uploadSub.Some? {
        live := live - {uploadSub.value};
      }
      uploadSub := None;
      SetCancelled(CancelledMessage);
    }

    method SetError(msg: string)
      modifies this`status, this`statusMessage, this`progress, this`selectedFile
      ensures State() == WithError(old(State()), msg)
    {
      status := Error;
      statusMessage := msg;
      progress := 0;
      selectedFile := None;
    }

    method SetCancelled(msg: string)
      modifies this`status, this`statusMessage, this`progress, this`selectedFile
      ensures State() == WithCancelled(old(State()), msg)
    {
      status := Cancelled;
      statusMessage := msg;
      progress := 0;
      selectedFile := None;
    }
  }

  /** The upload scenario of a 1 KiB PDF: half the bytes sent shows 50%, the
      response shows SUCCESS at 100% with the file cleared. */
  method PdfUploadScenario() returns (afterSelect: Status, halfway: int, final: UploadState)
    ensures afterSelect == Uploading && halfway == 50
    ensures final.status == Success && final.progress == 100 && final.selectedFile == None
  {
    var c := new UploadDocumentComponent();
    c.HandleSelectedFile(FileInfo("doc.pdf", "application/pdf", 1024));
    afterSelect := c.status;
    c.OnUploadEvent(UploadProgress(0, 512, Some(1024)));
    halfway := c.progress;
    c.OnUploadEvent(Response(0));
    final := c.State();
  }
}
