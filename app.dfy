/** The wizard of App.tsx: one object holding every state slot of the
    component, with one method per handler. Each handler runs as a single
    step; the value the awaited remote operation produced is a parameter,
    and the request the handler dispatches is returned. */
module App {
  import opened Wrappers
  import opened Text
  import opened Types
  import GeminiService
  import Panel = ColorHarmonizationPanel

  datatype ProcessingStep = Upload | DodgeBurn | Harmonization | Done
  {
    function Id(): string
    {
      match this
      case Upload => "upload"
      case DodgeBurn => "dodge_burn"
      case Harmonization => "harmonization"
      case Done => "done"
    }
  }

  /** The single busy slot; `Name` is the string the panels compare against. */
  datatype LoadingAction = DodgeBurnAction | ExtractAction | ApplyAction | SuggestAction
  {
    function Name(): string
    {
      match this
      case DodgeBurnAction => "dodge_burn"
      case ExtractAction => "extract"
      case ApplyAction => "apply"
      case SuggestAction => "suggest"
    }
  }

  /** The colour panel counts as busy for exactly the extract and apply actions. */
  lemma PanelBusyActions(a: LoadingAction)
    ensures Panel.IsBusy(Some(a.Name())) <==> a == ExtractAction || a == ApplyAction
  {
  }

  // ---------------------------------------------------------------------
  // Stepper

  /** The ids of the three stepper entries, in display order. */
  const StepsConfig := ["upload", "dodge_burn", "harmonization"]

  /** `ids.findIndex(id => id === target)`: -1 when absent. */
  function FindIndex(ids: seq<string>, target: string): (k: int)
    ensures -1 <= k < |ids|
    ensures k == -1 <==> target !in ids
    ensures k >= 0 ==> ids[k] == target && forall j :: 0 <= j < k ==> ids[j] != target
  {
    if ids == [] then -1
    else if ids[0] == target then 0
    else
      var k := FindIndex(ids[1..], target);
      if k == -1 then -1 else k + 1
  }

  /** The stepper entry highlighted for a step; `done` highlights the
      harmonisation entry. */
  function StepperIndex(step: ProcessingStep): (k: int)
    ensures step == Upload ==> k == 0
    ensures step == DodgeBurn ==> k == 1
    ensures step == Harmonization || step == Done ==> k == 2
  {
    FindIndex(StepsConfig, if step == Done then "harmonization" else step.Id())
  }

  /** `done` shares the harmonisation entry; the other steps have distinct entries. */
  lemma StepperIndexDistinct(s: ProcessingStep, t: ProcessingStep)
    requires s != Done && t != Done && s != t
    ensures StepperIndex(s) != StepperIndex(t)
    ensures StepperIndex(Done) == StepperIndex(Harmonization)
  {
  }

  // ---------------------------------------------------------------------
  // Data-URI split

  /** Why the enhanced image's URI could not be split: no `:` before the first
      `,` (the engine raises a TypeError), or an empty MIME type or payload. */
  datatype UriError = NoMimeSection | Unparseable

  /** The split of handleApplyColorTransfer:
      `url.split(',')` gives the header and the payload,
      `header.split(':')[1].split(';')[0]` the MIME type. */
  function SplitDataUri(url: string): (r: Result<(string, string), UriError>)
    ensures r.Success? ==> r.value.0 != "" && r.value.1 != ""
    ensures r.Success? ==> ',' !in r.value.0 && ':' !in r.value.0 && ';' !in r.value.0 && ',' !in r.value.1
  {
    var urlParts := Split(url, ',');
    var headerParts := Split(urlParts[0], ':');
    if |headerParts| < 2 then Failure(NoMimeSection)
    else
      var mimeType := Split(headerParts[1], ';')[0];
      assert ',' !in mimeType by {
        assert ',' !in urlParts[0];
        assert Join(headerParts, ':') == urlParts[0];
        JoinedPieceIn(headerParts, ':', 1, ',');
        assert Join(Split(headerParts[1], ';'), ';') == headerParts[1];
        JoinedPieceIn(Split(headerParts[1], ';'), ';', 0, ',');
      }
      var base64data := if |urlParts| > 1 then Some(urlParts[1]) else None;
      if !Truthy(base64data) || mimeType == "" then Failure(Unparseable)
      else Success((mimeType, base64data.value))
  }

  /** A character absent from a joined string is absent from each piece. */
  lemma {:induction false} JoinedPieceIn(parts: seq<string>, sep: char, i: nat, c: char)
    requires i < |parts|
    requires c !in Join(parts, sep)
    ensures c !in parts[i]
  {
    if |parts| > 1 {
      assert Join(parts, sep) == parts[0] + [sep] + Join(parts[1..], sep);
      if i > 0 {
        JoinedPieceIn(parts[1..], sep, i - 1, c);
      }
    }
  }

  /** The split recovers the MIME type and payload of a URI built by the
      response adapter, when the MIME type holds none of `,` `:` `;` and the
      payload no `,` (base64 never does). */
  lemma DataUriRoundTrip(mime: string, data: string)
    requires mime != "" && data != ""
    requires ',' !in mime && ':' !in mime && ';' !in mime && ',' !in data
    ensures SplitDataUri(GeminiService.DataUri(mime, data)) == Success((mime, data))
  {
    DataUriPieces(mime, data);
  }

  /** An empty MIME type or an empty payload is rejected. */
  lemma DataUriRejectsEmpty(mime: string, data: string)
    requires mime == "" || data == ""
    requires ',' !in mime && ':' !in mime && ';' !in mime && ',' !in data
    ensures SplitDataUri(GeminiService.DataUri(mime, data)) == Failure(Unparseable)
  {
    DataUriPieces(mime, data);
  }

  lemma DataUriPieces(mime: string, data: string)
    requires ',' !in mime && ':' !in mime && ';' !in mime && ',' !in data
    ensures var urlParts := Split(GeminiService.DataUri(mime, data), ',');
            urlParts == ["data:" + mime + ";base64", data] &&
            Split(urlParts[0], ':') == ["data", mime + ";base64"] &&
            Split(mime + ";base64", ';')[0] == mime
  {
    UriAtComma(mime, data);
    HeaderAtColon(mime);
    MimeAtSemicolon(mime);
  }

  lemma UriAtComma(mime: string, data: string)
    requires ',' !in mime && ',' !in data
    ensures Split(GeminiService.DataUri(mime, data), ',') == ["data:" + mime + ";base64", data]
  {
    var header := "data:" + mime + ";base64";
    assert GeminiService.DataUri(mime, data) == header + [','] + data;
    assert ',' !in header;
    SplitAtFirstSeparator(header, data, ',');
    SplitWithoutSeparator(data, ',');
  }

  lemma HeaderAtColon(mime: string)
    requires ':' !in mime
    ensures Split("data:" + mime + ";base64", ':') == ["data", mime + ";base64"]
  {
    var rest := mime + ";base64";
    var scheme := "data";
    assert ':' !in scheme by { assert scheme == ['d', 'a', 't', 'a']; }
    assert ':' !in rest by { assert rest == mime + [';', 'b', 'a', 's', 'e', '6', '4']; }
    var header := "data:" + mime + ";base64";
    assert header == scheme + [':'] + rest;
    SplitPair(scheme, rest, ':');
    assert Split(header, ':') == [scheme, rest];
  }

  lemma MimeAtSemicolon(mime: string)
    requires ';' !in mime
    ensures Split(mime + ";base64", ';')[0] == mime
  {
    assert mime + ";base64" == mime + [';'] + "base64";
    SplitAtFirstSeparator(mime, "base64", ';');
  }

  // ---------------------------------------------------------------------
  // Wizard state

  /** Every state slot of the component, as one value. */
  datatype Snapshot = Snapshot(
    step: ProcessingStep,
    file: Option<ImageFile>,
    mimeType: Option<string>,
    afterUrl: Option<string>,
    finalUrl: Option<string>,
    dodge: int,
    burn: int,
    lightingStyle: string,
    creativePrompt: string,
    referenceFile: Option<ImageFile>,
    colorPalette: Option<ColorPalette>,
    selectedColors: seq<ExtractedColor>,
    loadingAction: Option<LoadingAction>,
    error: Option<string>)

  /** The initial state, which a reset restores. */
  const Initial := Snapshot(Upload, None, None, None, None, 50, 50, "Standard", "", None, None, [], None, None)

  /** The state right after a file is chosen: everything reset, the file and
      its type stored, the wizard at the retouch step. */
  function AfterImageSelect(f: ImageFile): Snapshot
  {
    Initial.(file := Some(f), mimeType := Some(f.mimeType), step := DodgeBurn)
  }

  const NoFileMessage := "Nessun file immagine selezionato."
  const NoTransferInputMessage := "Nessuna immagine elaborata o colori selezionati per il trasferimento."
  const UnparseableImageMessage := "Impossibile analizzare l'immagine elaborata."
  const UnknownErrorMessage := "Si è verificato un errore sconosciuto."

  /** The catch blocks: an `Error`'s message, else the generic message. */
  function CaughtMessage(e: GeminiService.Thrown): (m: string)
    ensures e.ErrorObject? ==> m == e.message
    ensures e.OtherValue? ==> m == UnknownErrorMessage
  {
    match e
    case ErrorObject(msg) => msg
    case OtherValue => UnknownErrorMessage
  }

  datatype Suggestion = Suggestion(dodge: int, burn: int)

  /** What each handler hands to the service layer. */
  datatype EnhanceRequest = EnhanceRequest(file: ImageFile, mimeType: string, directions: GeminiService.RetouchDirections)
  datatype ExtractRequest = ExtractRequest(file: ImageFile, mimeType: string, count: int)
  datatype TransferRequest = TransferRequest(base64data: string, mimeType: string, colors: seq<ExtractedColor>)
  datatype SuggestRequest = SuggestRequest(file: ImageFile, mimeType: string, creativePrompt: string)

  class AppState {
    var step: ProcessingStep
    var file: Option<ImageFile>
    var mimeType: Option<string>
    var afterUrl: Option<string>
    var finalUrl: Option<string>
    var dodge: int
    var burn: int
    var lightingStyle: string
    var creativePrompt: string
    var referenceFile: Option<ImageFile>
    var colorPalette: Option<ColorPalette>
    var selectedColors: seq<ExtractedColor>
    var loadingAction: Option<LoadingAction>
    var error: Option<string>

    function State(): Snapshot
      reads this
    {
      Snapshot(step, file, mimeType, afterUrl, finalUrl, dodge, burn, lightingStyle, creativePrompt,
               referenceFile, colorPalette, selectedColors, loadingAction, error)
    }

    /** Past the upload step there is a file; an enhanced image implies a
        file and a final image implies an enhanced one; selected hexes are
        pairwise distinct. */
    ghost predicate Valid()
      reads this
    {
      && (step != Upload ==> file.Some?)
      && (afterUrl.Some? ==> file.Some?)
      && (finalUrl.Some? ==> afterUrl.Some?)
      && Panel.HexesDistinct(selectedColors)
    }

    /** `!imageState.file || !imageState.mimeType` is false. */
    predicate HasImage()
      reads this
    {
      file.Some? && Truthy(mimeType)
    }

    constructor ()
      ensures Valid() && State() == Initial
    {
      step := Upload;
      file, mimeType, afterUrl, finalUrl := None, None, None, None;
      dodge, burn, lightingStyle, creativePrompt := 50, 50, "Standard", "";
      referenceFile, colorPalette, selectedColors := None, None, [];
      loadingAction, error := None, None;
    }

    /** resetState: every slot back to its initial value. */
    method ResetState()
      modifies this
      ensures Valid() && State() == Initial
    {
      file, afterUrl, finalUrl, mimeType := None, None, None, None;
      step := Upload;
      error := None;
      loadingAction := None;
      dodge := 50;
      burn := 50;
      lightingStyle := "Standard";
      creativePrompt := "";
      referenceFile := None;
      colorPalette := None;
      selectedColors := [];
    }

    /** The `setError` handed to the uploader. */
    method SetError(e: Option<string>)
      requires Valid()
      modifies this
      ensures Valid() && State() == old(State()).(error := e)
    {
      error := e;
    }

    /** handleImageSelect: reset, store the file and its type, go to the retouch step. */
    method ImageSelect(f: ImageFile)
      modifies this
      ensures Valid() && State() == AfterImageSelect(f)
    {
      ResetState();
      file, afterUrl, finalUrl, mimeType := Some(f), None, None, Some(f.mimeType);
      step := DodgeBurn;
    }

    /** handleProcessDodgeBurn, given what enhancing the image produced. */
    method ProcessDodgeBurn(outcome: Result<string, GeminiService.Thrown>) returns (sent: Option<EnhanceRequest>)
      requires Valid()
      modifies this
      ensures Valid()
      ensures !old(HasImage()) ==> sent.None? && State() == old(State()).(error := Some(NoFileMessage))
      ensures old(HasImage()) ==>
                sent == Some(EnhanceRequest(old(file).value, old(mimeType).value,
                  GeminiService.RetouchPrompt(old(dodge), old(burn), old(lightingStyle), old(creativePrompt))))
      ensures old(HasImage()) && outcome.Success? ==>
                State() == old(State()).(afterUrl := Some(outcome.value), finalUrl := None,
                                         step := Harmonization, error := None, loadingAction := None)
      ensures old(HasImage()) && outcome.Failure? ==>
                State() == old(State()).(afterUrl := None, finalUrl := None,
                                         error := Some(CaughtMessage(outcome.error)), loadingAction := None)
    {
      if !HasImage() {
        error := Some(NoFileMessage);
        return None;
      }
      loadingAction := Some(DodgeBurnAction);
      error := None;
      afterUrl, finalUrl := None, None;
      sent := Some(EnhanceRequest(file.value, mimeType.value,
                GeminiService.RetouchPrompt(dodge, burn, lightingStyle, creativePrompt)));
      match outcome {
        case Success(url) =>
          afterUrl := Some(url);
          step := Harmonization;
        case Failure(e) =>
          error := Some(CaughtMessage(e));
      }
      loadingAction := None;
    }

    /** handleExtractColors, given what the palette extraction produced:
        palette and selection are cleared first; a success replaces the palette. */
    method ExtractColors(f: ImageFile, count: int, outcome: Result<ColorPalette, GeminiService.Thrown>)
      returns (sent: ExtractRequest)
      requires Valid()
      modifies this
      ensures Valid()
      ensures sent == ExtractRequest(f, f.mimeType, count)
      ensures outcome.Success? ==>
                State() == old(State()).(colorPalette := Some(outcome.value), selectedColors := [],
                                         referenceFile := Some(f), error := None, loadingAction := None)
      ensures outcome.Failure? ==>
                State() == old(State()).(colorPalette := None, selectedColors := [], referenceFile := Some(f),
                                         error := Some(CaughtMessage(outcome.error)), loadingAction := None)
    {
      loadingAction := Some(ExtractAction);
      error := None;
      colorPalette := None;
      selectedColors := [];
      referenceFile := Some(f);
      sent := ExtractRequest(f, f.mimeType, count);
      match outcome {
        case Success(palette) =>
          colorPalette := Some(palette);
        case Failure(e) =>
          error := Some(CaughtMessage(e));
      }
      loadingAction := None;
    }

    /** `!imageState.afterUrl || selectedColors.length === 0` is false. */
    predicate ReadyForTransfer()
      reads this
    {
      Truthy(afterUrl) && |selectedColors| > 0
    }

    /** handleApplyColorTransfer, given the engine's TypeError message for a
        URI without `:` and what the colour transfer produced. */
    method ApplyColorTransfer(typeError: string, outcome: Result<string, GeminiService.Thrown>)
      returns (sent: Option<TransferRequest>)
      requires Valid()
      modifies this
      ensures Valid()
      ensures !old(ReadyForTransfer()) ==>
                sent.None? && State() == old(State()).(error := Some(NoTransferInputMessage))
      ensures old(ReadyForTransfer()) && SplitDataUri(old(afterUrl).value).Failure? ==>
                sent.None? &&
                State() == old(State()).(loadingAction := None, error := Some(
                  if SplitDataUri(old(afterUrl).value).error.NoMimeSection? then typeError
                  else UnparseableImageMessage))
      ensures old(ReadyForTransfer()) && SplitDataUri(old(afterUrl).value).Success? ==>
                var parsed := SplitDataUri(old(afterUrl).value).value;
                sent == Some(TransferRequest(parsed.1, parsed.0, old(selectedColors)))
      ensures old(ReadyForTransfer()) && SplitDataUri(old(afterUrl).value).Success? && outcome.Success? ==>
                State() == old(State()).(finalUrl := Some(outcome.value), step := Done,
                                         error := None, loadingAction := None)
      ensures old(ReadyForTransfer()) && SplitDataUri(old(afterUrl).value).Success? && outcome.Failure? ==>
                State() == old(State()).(error := Some(CaughtMessage(outcome.error)), loadingAction := None)
    {
      if !ReadyForTransfer() {
        error := Some(NoTransferInputMessage);
        return None;
      }
      loadingAction := Some(ApplyAction);
      error := None;
      match SplitDataUri(afterUrl.value) {
        case Failure(NoMimeSection) =>
          error := Some(typeError);
          sent := None;
        case Failure(Unparseable) =>
          error := Some(UnparseableImageMessage);
          sent := None;
        case Success((mime, data)) =>
          sent := Some(TransferRequest(data, mime, selectedColors));
          match outcome {
            case Success(url) =>
              finalUrl := Some(url);
              step := Done;
            case Failure(e) =>
              error := Some(CaughtMessage(e));
          }
      }
      loadingAction := None;
    }

    /** handleSuggestDodgeBurn, given what the suggestion produced: the step
        never changes, and a success overwrites exactly dodge and burn. */
    method SuggestDodgeBurn(outcome: Result<Suggestion, GeminiService.Thrown>) returns (sent: Option<SuggestRequest>)
      requires Valid()
      modifies this
      ensures Valid()
      ensures step == old(step)
      ensures !old(HasImage()) ==> sent.None? && State() == old(State()).(error := Some(NoFileMessage))
      ensures old(HasImage()) ==> sent == Some(SuggestRequest(old(file).value, old(mimeType).value, old(creativePrompt)))
      ensures old(HasImage()) && outcome.Success? ==>
                State() == old(State()).(dodge := outcome.value.dodge, burn := outcome.value.burn,
                                         error := None, loadingAction := None)
      ensures old(HasImage()) && outcome.Failure? ==>
                State() == old(State()).(error := Some(CaughtMessage(outcome.error)), loadingAction := None)
    {
      if !HasImage() {
        error := Some(NoFileMessage);
        return None;
      }
      loadingAction := Some(SuggestAction);
      error := None;
      sent := Some(SuggestRequest(file.value, mimeType.value, creativePrompt));
      match outcome {
        case Success(suggestion) =>
          dodge := suggestion.dodge;
          burn := suggestion.burn;
        case Failure(e) =>
          error := Some(CaughtMessage(e));
      }
      loadingAction := None;
    }

    /** The `setSelectedColors` call of the panel's colour toggle. */
    method ToggleColor(color: ExtractedColor)
      requires Valid()
      modifies this
      ensures Valid()
      ensures State() == old(State()).(selectedColors := Panel.HandleColorToggle(old(selectedColors), color))
    {
      Panel.ToggleKeepsDistinct(selectedColors, color);
      selectedColors := Panel.HandleColorToggle(selectedColors, color);
    }
  }

  /** A client run of the retouch and transfer handlers: the image the
      enhancement returned as a data URI reaches the colour transfer as the
      same MIME type and payload, with the current selection, and a
      successful transfer finishes the wizard. */
  method EnhanceThenTransfer(app: AppState, mime: string, data: string, finalUrl: string, typeError: string)
    returns (sent: Option<TransferRequest>)
    requires app.Valid() && app.HasImage() && |app.selectedColors| > 0
    requires mime != "" && data != ""
    requires ',' !in mime && ':' !in mime && ';' !in mime && ',' !in data
    modifies app
    ensures app.Valid()
    ensures sent == Some(TransferRequest(data, mime, old(app.selectedColors)))
    ensures app.step == Done && app.afterUrl == Some(GeminiService.DataUri(mime, data))
    ensures app.finalUrl == Some(finalUrl) && app.error.None? && app.loadingAction.None?
  {
    var _ := app.ProcessDodgeBurn(Success(GeminiService.DataUri(mime, data)));
    DataUriRoundTrip(mime, data);
    sent := app.ApplyColorTransfer(typeError, Success(finalUrl));
  }
}
