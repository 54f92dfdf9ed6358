/** The administrator dashboard: a menu, the capture view and the search
    view. The capture view owns one capture session, held in six fields:
    the image file, its object URL, the extracted text, a loading flag, an
    error text and the save status.

    `handleImageReady` is asynchronous; it is modelled as the events between
    its `await` points: `Acquire` runs up to the extraction call,
    `ExtractOk`/`ExtractErr` resume it when extraction returns or throws,
    and `SaveOk`/`SaveErr` resume it when the save call returns or throws.
    The field `pending` records at which `await` the handler is suspended.
    Object URLs are abstract handles: `createObjectURL` allocates the next
    number, `revokeObjectURL` releases it. */
module AdminDashboard {
  import opened Common
  import CsvExport

  datatype SaveStatus = Idle | Saving | Success | Error
  datatype View = Menu | Capture | Search

  /** A handle returned by `URL.createObjectURL`. */
  datatype ObjectUrl = ObjectUrl(id: nat)

  /** The body of a `saveDocument` call. */
  datatype SaveRequest = SaveRequest(content: string, sourceFile: string)

  /** Where the running `handleImageReady` is suspended, if anywhere. */
  datatype Pending = NoCall | AwaitingExtraction(file: ImageFile) | AwaitingSave(file: ImageFile)

  const UnknownError: string := "An unknown error occurred."
  const SaveErrorPrefix: string := "Could not save document: "
  const ErrorMarker: string := "Error: "

  /** `e.message || 'An unknown error occurred.'`; an absent message is "". */
  function ExtractionErrorMessage(msg: string): (r: string)
    ensures r != ""
    ensures msg != "" ==> r == msg
    ensures msg == "" ==> r == UnknownError
  {
    if msg != "" then msg else UnknownError
  }

  /** The error text after a failed save: the save message is appended to
      an earlier error on a new line, or becomes the error if there is none. */
  function AppendSaveError(prev: Option<string>, msg: string): (r: string)
    ensures Truthy(prev) ==> |r| > |prev.value| && r[..|prev.value|] == prev.value && r[|prev.value|] == '\n'
    ensures Truthy(prev) ==> r[|prev.value| + 1..] == SaveErrorPrefix + msg
    ensures !Truthy(prev) ==> r == SaveErrorPrefix + msg
  {
    if Truthy(prev) then prev.value + "\n" + SaveErrorPrefix + msg else SaveErrorPrefix + msg
  }

  /** Errors accumulate: a second failure keeps the first one's full text. */
  lemma SaveErrorsAccumulate(prev: string, m1: string, m2: string)
    ensures var e1 := AppendSaveError(Some(prev), m1);
            var e2 := AppendSaveError(Some(e1), m2);
            e2[..|e1|] == e1 && (prev != "" ==> e2[..|prev|] == prev)
  {
    var e1 := AppendSaveError(Some(prev), m1);
    var e2 := AppendSaveError(Some(e1), m2);
    assert e1 != "";
    assert e2[..|e1|] == e1;
    if prev != "" {
      assert e2[..|prev|] == e2[..|e1|][..|prev|];
    }
  }

  /** The text `renderSaveStatus` shows. */
  function BannerText(s: SaveStatus): (t: Option<string>)
    ensures t.None? <==> s == Idle
  {
    match s
    case Idle => None
    case Saving => Some("Saving to database...")
    case Success => Some("Saved successfully!")
    case Error => Some("Save failed.")
  }

  class Dashboard {
    var activeView: View
    var imageFile: Option<ImageFile>
    var imageDataUrl: Option<ObjectUrl>
    var extractedText: Option<string>
    var isLoading: bool
    var error: Option<string>
    var saveStatus: SaveStatus

    /** Object URLs created and not yet revoked, and the next one to create. */
    var liveUrls: set<nat>
    var nextUrl: nat
    /** The suspended `handleImageReady`, and the calls it has issued. */
    var pending: Pending
    var extractions: seq<ImageFile>
    var saves: seq<SaveRequest>

    /** The invariant every event keeps. A reset does not cancel an
        in-flight call, so the clauses hold also when a call completes after
        a reset. */
    ghost predicate Valid()
      reads this
    {
      && (forall id :: id in liveUrls ==> id < nextUrl)
      && (imageDataUrl.Some? ==> imageDataUrl.value.id in liveUrls)
      && (isLoading ==> pending != NoCall)
      && (saveStatus == Saving ==> pending.AwaitingSave?)
      && (pending != NoCall ==> error.None?)
      && (pending.AwaitingExtraction? ==> saveStatus == Idle)
      && (error.Some? ==> error.value != "")
      // a save is only ever under way, or finished, for non-empty text
      && (pending.AwaitingSave? && imageFile.Some? ==> Truthy(extractedText))
      && (saveStatus != Idle && imageFile.Some? ==> Truthy(extractedText))
    }

    /** The six capture fields hold their initial values. */
    predicate CaptureCleared()
      reads this
    {
      imageFile.None? && imageDataUrl.None? && extractedText.None?
      && !isLoading && error.None? && saveStatus == Idle
    }

    constructor ()
      ensures Valid() && CaptureCleared()
      ensures activeView == Menu && pending == NoCall
      ensures liveUrls == {} && extractions == [] && saves == []
    {
      activeView := Menu;
      imageFile, imageDataUrl, extractedText := None, None, None;
      isLoading, error, saveStatus := false, None, Idle;
      liveUrls, nextUrl := {}, 0;
      pending, extractions, saves := NoCall, [], [];
    }

    /** A menu button: `setActiveView('capture')` or `setActiveView('search')`.
        The buttons exist only in the menu view. */
    method Open(v: View)
      requires Valid() && activeView == Menu && v != Menu
      modifies this`activeView
      ensures Valid() && activeView == v
    {
      activeView := v;
    }

    /** `handleImageReady` up to its first `await`. Sessions are sequential:
        a new one starts only when no call of the previous one is pending. */
    method Acquire(file: ImageFile)
      requires Valid() && pending == NoCall
      modifies this
      ensures Valid()
      ensures isLoading && error.None? && saveStatus == Idle && imageFile == Some(file)
      ensures imageDataUrl == Some(ObjectUrl(old(nextUrl))) && old(nextUrl) !in old(liveUrls)
      ensures liveUrls == old(liveUrls) + {old(nextUrl)} && nextUrl == old(nextUrl) + 1
      ensures pending == AwaitingExtraction(file) && extractions == old(extractions) + [file]
      ensures extractedText == old(extractedText) && saves == old(saves) && activeView == old(activeView)
    {
      var urls := liveUrls + {nextUrl};
      assert forall id :: id in urls ==> id < nextUrl + 1;
      isLoading, error, saveStatus := true, None, Idle;
      imageFile, imageDataUrl := Some(file), Some(ObjectUrl(nextUrl));
      liveUrls, nextUrl := urls, nextUrl + 1;
      pending, extractions := AwaitingExtraction(file), extractions + [file];
    }

    /** Extraction returned `text` (`response.text` may be absent). The text
        is stored; a save is issued exactly when it is non-empty. */
    method ExtractOk(text: Option<string>)
      requires Valid() && pending.AwaitingExtraction?
      modifies this
      ensures Valid()
      ensures extractedText == text
      ensures Truthy(text) ==> saveStatus == Saving && isLoading == old(isLoading) && pending == AwaitingSave(old(pending).file)
      ensures Truthy(text) ==> saves == old(saves) + [SaveRequest(text.value, old(pending).file.name)]
      ensures !Truthy(text) ==> saveStatus == Idle && !isLoading && pending == NoCall && saves == old(saves)
      ensures imageFile == old(imageFile) && imageDataUrl == old(imageDataUrl) && error == old(error)
      ensures liveUrls == old(liveUrls) && nextUrl == old(nextUrl) && extractions == old(extractions)
      ensures activeView == old(activeView)
    {
      var file := pending.file;
      extractedText := text;
      if Truthy(text) {
        saveStatus := Saving;
        saves := saves + [SaveRequest(text.value, file.name)];
        pending := AwaitingSave(file);
      } else {
        isLoading := false;
        pending := NoCall;
      }
    }

    /** Extraction (or reading the file) threw with message `msg`. */
    method ExtractErr(msg: string)
      requires Valid() && pending.AwaitingExtraction?
      modifies this
      ensures Valid()
      ensures error == Some(ExtractionErrorMessage(msg))
      ensures extractedText == Some(ErrorMarker + ExtractionErrorMessage(msg))
      ensures saveStatus == Idle && !isLoading && pending == NoCall && saves == old(saves)
      ensures imageFile == old(imageFile) && imageDataUrl == old(imageDataUrl)
      ensures liveUrls == old(liveUrls) && nextUrl == old(nextUrl) && extractions == old(extractions)
      ensures activeView == old(activeView)
    {
      var m := ExtractionErrorMessage(msg);
      error := Some(m);
      extractedText := Some(ErrorMarker + m);
      saveStatus := Idle;
      isLoading := false;
      pending := NoCall;
    }

    /** The save call returned. */
    method SaveOk()
      requires Valid() && pending.AwaitingSave?
      modifies this
      ensures Valid()
      ensures saveStatus == Success && !isLoading && pending == NoCall
      ensures extractedText == old(extractedText) && error == old(error)
      ensures imageFile == old(imageFile) && imageDataUrl == old(imageDataUrl)
      ensures liveUrls == old(liveUrls) && nextUrl == old(nextUrl)
      ensures extractions == old(extractions) && saves == old(saves) && activeView == old(activeView)
    {
      saveStatus := Success;
      isLoading := false;
      pending := NoCall;
    }

    /** The save call threw with message `msg`: the extracted text is kept
        and the save message is added to the error. */
    method SaveErr(msg: string)
      requires Valid() && pending.AwaitingSave?
      modifies this
      ensures Valid()
      ensures saveStatus == Error && !isLoading && pending == NoCall
      ensures error == Some(AppendSaveError(old(error), msg))
      ensures extractedText == old(extractedText)
      ensures imageFile == old(imageFile) && imageDataUrl == old(imageDataUrl)
      ensures liveUrls == old(liveUrls) && nextUrl == old(nextUrl)
      ensures extractions == old(extractions) && saves == old(saves) && activeView == old(activeView)
    {
      saveStatus := Error;
      error := Some(AppendSaveError(error, msg));
      isLoading := false;
      pending := NoCall;
    }

    /** `handleReset`: the capture fields return to their initial values and
        the object URL, if there is one, is revoked. A pending call is not
        cancelled. */
    method Reset()
      requires Valid()
      modifies this
      ensures Valid() && CaptureCleared()
      ensures old(imageDataUrl).Some? ==> liveUrls == old(liveUrls) - {old(imageDataUrl).value.id}
      ensures old(imageDataUrl).None? ==> liveUrls == old(liveUrls)
      ensures nextUrl == old(nextUrl) && pending == old(pending)
      ensures extractions == old(extractions) && saves == old(saves) && activeView == old(activeView)
    {
      var urls := if imageDataUrl.Some? then liveUrls - {imageDataUrl.value.id} else liveUrls;
      imageFile, imageDataUrl, extractedText := None, None, None;
      isLoading, error, saveStatus, liveUrls := false, None, Idle, urls;
    }

    /** The Menu button, shown outside the menu view: leaving the capture
        view always resets it. */
    method BackToMenu()
      requires Valid() && activeView != Menu
      modifies this
      ensures Valid() && activeView == Menu
      ensures old(activeView) == Capture ==> CaptureCleared()
      ensures liveUrls == if old(activeView) == Capture && old(imageDataUrl).Some?
                          then old(liveUrls) - {old(imageDataUrl).value.id}
                          else old(liveUrls)
      ensures old(activeView) != Capture ==>
                imageFile == old(imageFile) && imageDataUrl == old(imageDataUrl) &&
                extractedText == old(extractedText) && isLoading == old(isLoading) &&
                error == old(error) && saveStatus == old(saveStatus)
      ensures nextUrl == old(nextUrl) && pending == old(pending)
      ensures extractions == old(extractions) && saves == old(saves)
    {
      if activeView == Capture {
        Reset();
      }
      activeView := Menu;
    }

    /** `renderSaveStatus`: a banner is shown only for a non-idle status in
        the capture view with a file, and then only for non-empty text. */
    function SaveBanner(): (t: Option<string>)
      reads this
      requires Valid()
      ensures t.Some? <==> saveStatus != Idle && activeView == Capture && imageFile.Some?
      ensures t.Some? ==> Truthy(extractedText) && t == BannerText(saveStatus)
    {
      if saveStatus == Idle || activeView != Capture || imageFile.None? then None
      else BannerText(saveStatus)
    }

    /** `handleDownloadCsv`. */
    function DownloadCsv(): (d: Option<CsvExport.Download>)
      reads this
      ensures d.None? <==> !Truthy(extractedText)
      ensures d.Some? ==> CsvExport.ParseCsv(d.value.content) == extractedText
      ensures d.Some? && imageFile.Some? ==> d.value.fileName == CsvExport.DownloadName(Some(imageFile.value.name))
      ensures d.Some? && imageFile.None? ==> d.value.fileName == CsvExport.FallbackName + ".csv"
    {
      CsvExport.Export(extractedText, if imageFile.Some? then Some(imageFile.value.name) else None)
    }
  }

  /** How the extraction call ends. */
  datatype ExtractionOutcome = Extracted(text: Option<string>) | ExtractionFailed(message: string)
  /** How the save call ends. */
  datatype SaveOutcome = Saved | SaveFailed(message: string)

  /** One capture session on a fresh dashboard: open the capture view,
      acquire `file`, let the calls end as given. Returns the save status
      after each step, the final loading flag and error, and the number of
      save calls issued. */
  method CaptureSession(file: ImageFile, extraction: ExtractionOutcome, save: SaveOutcome)
    returns (statuses: seq<SaveStatus>, loading: bool, error: Option<string>, saveCalls: nat)
    ensures !loading
    ensures saveCalls == 1 <==> extraction.Extracted? && Truthy(extraction.text)
    ensures saveCalls <= 1
    ensures !(extraction.Extracted? && Truthy(extraction.text)) ==> statuses == [Idle, Idle]
    ensures extraction.ExtractionFailed? ==> error == Some(ExtractionErrorMessage(extraction.message))
    ensures extraction.Extracted? && Truthy(extraction.text) && save.Saved? ==>
              statuses == [Idle, Saving, Success] && error.None?
    ensures extraction.Extracted? && Truthy(extraction.text) && save.SaveFailed? ==>
              statuses == [Idle, Saving, Error] && error == Some(SaveErrorPrefix + save.message)
  {
    var d := new Dashboard();
    d.Open(Capture);
    d.Acquire(file);
    statuses := [d.saveStatus];
    match extraction {
      case Extracted(t) => d.ExtractOk(t);
      case ExtractionFailed(m) => d.ExtractErr(m);
    }
    statuses := statuses + [d.saveStatus];
    if d.pending.AwaitingSave? {
      match save {
        case Saved => d.SaveOk();
        case SaveFailed(m) => d.SaveErr(m);
      }
      statuses := statuses + [d.saveStatus];
    }
    loading, error, saveCalls := d.isLoading, d.error, |d.saves|;
  }
}
