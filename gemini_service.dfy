/** The local logic of the remote-model service layer (geminiService.ts):
    prompt helpers, the adapter that turns a multi-part model response into
    an image data URI or a diagnostic, the palette-shape check, and the
    error wrapping of each operation. The network call itself is a
    parameter: each operation receives what the call produced (a response,
    or the value it threw). */
module GeminiService {
  import opened Wrappers
  import opened Text
  import opened Types

  // ---------------------------------------------------------------------
  // Prompt helpers

  const VerySubtle := "very subtle"
  const Subtle := "subtle"
  const Moderate := "moderate"
  const Strong := "strong"
  const VeryStrong := "very strong"

  /** The five intensity words, weakest first. */
  const IntensityBands := [VerySubtle, Subtle, Moderate, Strong, VeryStrong]

  /** Maps an intensity to its band; bands change at 20, 40, 60 and 80. */
  function IntensityWord(v: int): (w: string)
    ensures w in IntensityBands
    ensures w == VerySubtle <==> v < 20
    ensures w == Subtle <==> 20 <= v < 40
    ensures w == Moderate <==> 40 <= v < 60
    ensures w == Strong <==> 60 <= v < 80
    ensures w == VeryStrong <==> 80 <= v
  {
    if v < 20 then VerySubtle
    else if v < 40 then Subtle
    else if v < 60 then Moderate
    else if v < 80 then Strong
    else VeryStrong
  }

  /** Position of an intensity word in `IntensityBands`. */
  function BandRank(w: string): (k: nat)
    requires w in IntensityBands
    ensures k < |IntensityBands| && IntensityBands[k] == w
  {
    if w == VerySubtle then 0
    else if w == Subtle then 1
    else if w == Moderate then 2
    else if w == Strong then 3
    else 4
  }

  /** A stronger intensity never gets a weaker word. */
  lemma IntensityWordMonotone(v: int, u: int)
    requires v <= u
    ensures BandRank(IntensityWord(v)) <= BandRank(IntensityWord(u))
  {
  }

  const StandardDescription := "Applies a balanced enhancement to naturally increase dimensionality."
  const CinematicDescription := "Emulates cinematic lighting with high contrast and deep shadows for a dramatic look."
  const RembrandtDescription := "Creates a classic Rembrandt-style portrait with a triangle of light on the cheek to add dimensionality."
  const SoftContrastDescription := "Applies a dreamy and ethereal look with soft transitions between light and shadow."
  const DramaticDescription := "Uses strong chiaroscuro for a bold image, pushing highlights and shadows to their extremes."

  /** The lighting options the retouch panel offers (ControlPanel.tsx). */
  const LightingOptions := ["Standard", "Cinematico", "Rembrandt", "Contrasto Morbido", "Drammatico"]

  /** Style name to its one-sentence description; anything unknown falls back to Standard. */
  function LightingStyleDescription(style: string): (d: string)
    ensures d == StandardDescription <==>
              style !in ["Cinematico", "Rembrandt", "Contrasto Morbido", "Drammatico"]
    ensures style == "Cinematico" ==> d == CinematicDescription
    ensures style == "Rembrandt" ==> d == RembrandtDescription
    ensures style == "Contrasto Morbido" ==> d == SoftContrastDescription
    ensures style == "Drammatico" ==> d == DramaticDescription
  {
    match style
    case "Cinematico" => CinematicDescription
    case "Rembrandt" => RembrandtDescription
    case "Contrasto Morbido" => SoftContrastDescription
    case "Drammatico" => DramaticDescription
    case _ => StandardDescription
  }

  /** Each of the five offered options gets a description of its own. */
  lemma LightingOptionsDistinct(i: nat, j: nat)
    requires i < j < |LightingOptions|
    ensures LightingStyleDescription(LightingOptions[i]) != LightingStyleDescription(LightingOptions[j])
  {
  }

  /** The parameter-dependent pieces of the retouch prompt. */
  datatype RetouchDirections = RetouchDirections(
    dodgeWord: string,
    burnWord: string,
    style: string,
    styleDescription: string,
    guidance: Option<string>)  // None: the default "use your expert judgment" line

  /** What the retouch prompt says for the given parameters. The user's
      guidance is quoted verbatim when non-empty, else the default line is used. */
  function RetouchPrompt(dodge: int, burn: int, style: string, creativePrompt: string): (d: RetouchDirections)
    ensures d.guidance.None? <==> creativePrompt == ""
    ensures d.guidance.Some? ==> d.guidance.value == creativePrompt
    ensures d.dodgeWord == IntensityWord(dodge) && d.burnWord == IntensityWord(burn)
    ensures d.style == style && d.styleDescription == LightingStyleDescription(style)
  {
    RetouchDirections(IntensityWord(dodge), IntensityWord(burn), style,
                      LightingStyleDescription(style),
                      if creativePrompt != "" then Some(creativePrompt) else None)
  }

  /** Dodge 80, burn 20, dramatic style: a burn of 20 already lies in the
      "subtle" band, only values below 20 are "very subtle". */
  lemma RetouchPromptScenario()
    ensures RetouchPrompt(80, 20, "Drammatico", "") ==
            RetouchDirections(VeryStrong, Subtle, "Drammatico", DramaticDescription, None)
    ensures RetouchPrompt(80, 19, "Drammatico", "").burnWord == VerySubtle
  {
  }

  /** One line of the transfer prompt's palette: `- name (hex): semantic`. */
  function ColorLine(c: ExtractedColor): string
  {
    "- " + c.name + " (" + c.hex + "): " + c.semantic
  }

  /** `colors.map(ColorLine)` */
  function ColorLines(colors: seq<ExtractedColor>): (lines: seq<string>)
    ensures |lines| == |colors|
    ensures forall i :: 0 <= i < |colors| ==> lines[i] == ColorLine(colors[i])
  {
    if colors == [] then [] else [ColorLine(colors[0])] + ColorLines(colors[1..])
  }

  /** The palette block of the transfer prompt: the colour lines joined by newlines. */
  function ColorList(colors: seq<ExtractedColor>): (s: string)
    ensures s == "" <==> colors == []
    ensures colors != [] ==> StartsWith(s, ColorLine(colors[0]))
  {
    Join(ColorLines(colors), '\n')
  }

  predicate SingleLine(c: ExtractedColor)
  {
    '\n' !in c.name && '\n' !in c.hex && '\n' !in c.semantic
  }

  /** The palette block has exactly one line per selected colour, in
      selection order, as long as no field itself holds a newline. */
  lemma ColorListLines(colors: seq<ExtractedColor>)
    requires |colors| >= 1
    requires forall i :: 0 <= i < |colors| ==> SingleLine(colors[i])
    ensures Split(ColorList(colors), '\n') == ColorLines(colors)
    ensures |Split(ColorList(colors), '\n')| == |colors|
  {
    var lines := ColorLines(colors);
    forall i | 0 <= i < |lines| ensures '\n' !in lines[i] {
      assert lines[i] == "- " + colors[i].name + " (" + colors[i].hex + "): " + colors[i].semantic;
    }
    SplitJoin(lines, '\n');
  }

  // ---------------------------------------------------------------------
  // Response adapter

  /** A content part of a candidate. */
  datatype Part =
    | InlineData(mimeType: string, data: string)
    | TextPart(text: string)
    | OtherPart

  /** `content?.parts` (None when content or parts is missing) and `finishReason`. */
  datatype Candidate = Candidate(parts: Option<seq<Part>>, finishReason: Option<string>)

  /** The fields of a generation response the adapter reads:
      `candidates`, `promptFeedback?.blockReason` and the `text` accessor. */
  datatype Response = Response(candidates: seq<Candidate>, blockReason: Option<string>, text: Option<string>)

  const ImagePrefix := "image/"

  predicate IsImagePart(p: Part)
  {
    p.InlineData? && StartsWith(p.mimeType, ImagePrefix)
  }

  function FirstCandidate(resp: Response): Option<Candidate>
  {
    if resp.candidates == [] then None else Some(resp.candidates[0])
  }

  /** `firstCandidate?.content?.parts || []`: only the first candidate is read. */
  function FirstParts(resp: Response): (parts: seq<Part>)
    ensures resp.candidates == [] ==> parts == []
  {
    match FirstCandidate(resp)
    case Some(Candidate(Some(ps), _)) => ps
    case _ => []
  }

  /** Index of the first image part, if any. */
  function FirstImageIndex(parts: seq<Part>): (k: Option<nat>)
    ensures k.None? <==> forall j :: 0 <= j < |parts| ==> !IsImagePart(parts[j])
    ensures k.Some? ==> k.value < |parts| && IsImagePart(parts[k.value])
    ensures k.Some? ==> forall j :: 0 <= j < k.value ==> !IsImagePart(parts[j])
  {
    if parts == [] then None
    else if IsImagePart(parts[0]) then Some(0)
    else
      match FirstImageIndex(parts[1..])
      case None => None
      case Some(k) => Some(k + 1)
  }

  /** `data:<mime>;base64,<data>` */
  function DataUri(mime: string, data: string): (uri: string)
    ensures |uri| == 13 + |mime| + |data|
    ensures StartsWith(uri, "data:")
    ensures uri[5..5 + |mime|] == mime
    ensures uri[5 + |mime|..|uri| - |data|] == ";base64,"
    ensures uri[|uri| - |data|..] == data
  {
    "data:" + mime + ";base64," + data
  }

  /** The one diagnostic added when no image part exists. */
  datatype Diagnostic =
    | Blocked(blockReason: string)
    | Interrupted(finishReason: string)
    | ModelText(text: string)
    | EmptyResponse

  const NormalFinish := "STOP"

  /** The diagnostic, chosen in priority order: block reason, abnormal
      finish reason, model text, generic message. */
  function ChooseDiagnostic(resp: Response): (d: Diagnostic)
    ensures d.Blocked? <==> Truthy(resp.blockReason)
    ensures d.Blocked? ==> d.blockReason == resp.blockReason.value
    ensures d.Interrupted? <==>
              !Truthy(resp.blockReason) && FirstCandidate(resp).Some? &&
              Truthy(FirstCandidate(resp).value.finishReason) &&
              FirstCandidate(resp).value.finishReason.value != NormalFinish
    ensures d.Interrupted? ==> d.finishReason == FirstCandidate(resp).value.finishReason.value
    ensures d.ModelText? ==> Truthy(resp.text) && d.text == resp.text.value
    ensures d.EmptyResponse? ==> !Truthy(resp.blockReason) && !Truthy(resp.text)
  {
    var fc := FirstCandidate(resp);
    if Truthy(resp.blockReason) then Blocked(resp.blockReason.value)
    else if fc.Some? && Truthy(fc.value.finishReason) && fc.value.finishReason.value != NormalFinish then
      Interrupted(fc.value.finishReason.value)
    else if Truthy(resp.text) then ModelText(resp.text.value)
    else EmptyResponse
  }

  const NoImageMessage := "L'API non ha restituito un'immagine."
  const GenerationFailedPrefix := "La generazione dell'immagine è fallita: "
  const BlockedLabel := " Motivo del blocco: "
  const InterruptedLabel := " Motivo interruzione: "
  const ModelTextLabel := " Risposta del modello: \""
  const EmptyResponseLead := " La risposta del modello era vuota"
  const EmptyResponseText := EmptyResponseLead + " o non conteneva un'immagine. Il prompt potrebbe essere troppo restrittivo o il modello potrebbe aver attivato un filtro di sicurezza interno senza fornire dettagli."

  /** The sentence appended for a diagnostic. Its label tells which
      diagnostic it is, and the reported reason or text can be read back. */
  function DiagnosticText(d: Diagnostic): (t: string)
    ensures d.Blocked? <==> StartsWith(t, BlockedLabel)
    ensures d.Interrupted? <==> StartsWith(t, InterruptedLabel)
    ensures d.ModelText? <==> StartsWith(t, ModelTextLabel)
    ensures d.Blocked? ==> |t| == |BlockedLabel| + |d.blockReason| + 1 &&
                           t[|BlockedLabel|..|t| - 1] == d.blockReason
    ensures d.Interrupted? ==> |t| == |InterruptedLabel| + |d.finishReason| + 1 &&
                               t[|InterruptedLabel|..|t| - 1] == d.finishReason
    ensures d.ModelText? ==> |t| == |ModelTextLabel| + |d.text| + 1 &&
                             t[|ModelTextLabel|..|t| - 1] == d.text
  {
    // The labels already differ within the first ten characters.
    assert BlockedLabel[8] == 'd' && InterruptedLabel[8] == 'i';
    assert ModelTextLabel[1] == 'R' && EmptyResponseLead[1] == 'L';
    assert EmptyResponseText[1] == EmptyResponseLead[1];
    assert BlockedLabel[1] == 'M' && InterruptedLabel[1] == 'M';
    match d
    case Blocked(r) =>
      var t := BlockedLabel + r + ".";
      assert t[..|BlockedLabel|] == BlockedLabel && t[|BlockedLabel|..|t| - 1] == r;
      assert t[1] == 'M' && t[8] == 'd';
      t
    case Interrupted(r) =>
      var t := InterruptedLabel + r + ".";
      assert t[..|InterruptedLabel|] == InterruptedLabel && t[|InterruptedLabel|..|t| - 1] == r;
      assert t[1] == 'M' && t[8] == 'i';
      t
    case ModelText(m) =>
      var t := ModelTextLabel + m + "\"";
      assert t[..|ModelTextLabel|] == ModelTextLabel && t[|ModelTextLabel|..|t| - 1] == m;
      assert t[1] == 'R';
      t
    case EmptyResponse =>
      EmptyResponseText
  }

  /** What the adapter produces: the first image part as a data URI, or the
      failure message it throws. */
  function ExtractedImage(resp: Response): (r: Result<string, string>)
    ensures r.Success? <==> FirstImageIndex(FirstParts(resp)).Some?
    ensures r.Success? ==> StartsWith(r.value, "data:")
    ensures r.Failure? ==> StartsWith(r.error, GenerationFailedPrefix + NoImageMessage)
  {
    var parts := FirstParts(resp);
    match FirstImageIndex(parts)
    case Some(k) => Success(DataUri(parts[k].mimeType, parts[k].data))
    case None => Failure(GenerationFailedPrefix + NoImageMessage + DiagnosticText(ChooseDiagnostic(resp)))
  }

  /** handleApiResponse: scans the first candidate's parts, returns on the
      first image part, otherwise builds the message step by step. */
  method HandleApiResponse(resp: Response) returns (r: Result<string, string>)
    ensures r == ExtractedImage(resp)
    ensures r.Success? <==> exists j :: 0 <= j < |FirstParts(resp)| && IsImagePart(FirstParts(resp)[j])
    ensures r.Failure? ==> StartsWith(r.error, GenerationFailedPrefix)
  {
    var firstCandidate := FirstCandidate(resp);
    var parts := FirstParts(resp);
    for i := 0 to |parts|
      invariant forall j :: 0 <= j < i ==> !IsImagePart(parts[j])
    {
      var part := parts[i];
      if part.InlineData? && StartsWith(part.mimeType, ImagePrefix) {
        assert FirstImageIndex(parts) == Some(i);
        assert ExtractedImage(resp) == Success(DataUri(parts[i].mimeType, parts[i].data));
        return Success("data:" + part.mimeType + ";base64," + part.data);
      }
    }

    ghost var d := ChooseDiagnostic(resp);
    var errorMessage := NoImageMessage;
    if Truthy(resp.blockReason) {
      errorMessage := errorMessage + BlockedLabel + resp.blockReason.value + ".";
      assert errorMessage == NoImageMessage + DiagnosticText(d) by {
        assert DiagnosticText(d) == BlockedLabel + resp.blockReason.value + ".";
      }
    } else if firstCandidate.Some? && Truthy(firstCandidate.value.finishReason)
              && firstCandidate.value.finishReason.value != NormalFinish {
      errorMessage := errorMessage + InterruptedLabel + firstCandidate.value.finishReason.value + ".";
      assert errorMessage == NoImageMessage + DiagnosticText(d) by {
        assert DiagnosticText(d) == InterruptedLabel + firstCandidate.value.finishReason.value + ".";
      }
    } else if Truthy(resp.text) {
      errorMessage := errorMessage + ModelTextLabel + resp.text.value + "\"";
      assert errorMessage == NoImageMessage + DiagnosticText(d) by {
        assert DiagnosticText(d) == ModelTextLabel + resp.text.value + "\"";
      }
    } else {
      errorMessage := errorMessage + EmptyResponseText;
      assert errorMessage == NoImageMessage + DiagnosticText(d);
    }
    r := Failure(GenerationFailedPrefix + errorMessage);
    assert r == ExtractedImage(resp) by {
      assert FirstImageIndex(parts).None?;
      assert r.error == GenerationFailedPrefix + NoImageMessage + DiagnosticText(d);
    }
    assert r.error[..|GenerationFailedPrefix|] == GenerationFailedPrefix;
  }

  /** A finish reason of STOP, or none, never yields the interruption diagnostic. */
  lemma NormalFinishIsNotInterruption(resp: Response)
    requires FirstCandidate(resp).None? || !Truthy(FirstCandidate(resp).value.finishReason)
             || FirstCandidate(resp).value.finishReason.value == NormalFinish
    ensures !ChooseDiagnostic(resp).Interrupted?
  {
  }

  /** With no image part and a block reason, the failure message ends with
      the block reason followed by a full stop. */
  lemma BlockReasonReported(resp: Response)
    requires FirstImageIndex(FirstParts(resp)).None?
    requires Truthy(resp.blockReason)
    ensures var r := ExtractedImage(resp);
            r.Failure? &&
            r.error == GenerationFailedPrefix + NoImageMessage + BlockedLabel + resp.blockReason.value + "."
  {
  }

  /** An image part wins over every diagnostic field, and parts after it
      do not matter. */
  lemma FirstImageWins(resp: Response, k: nat)
    requires k < |FirstParts(resp)| && IsImagePart(FirstParts(resp)[k])
    requires forall j :: 0 <= j < k ==> !IsImagePart(FirstParts(resp)[j])
    ensures ExtractedImage(resp) == Success(DataUri(FirstParts(resp)[k].mimeType, FirstParts(resp)[k].data))
  {
  }

  // ---------------------------------------------------------------------
  // Palette shape check

  /** The value of `parsedJson.colors`, when the key is present. */
  datatype ColorsField = ColorsArray(items: seq<ExtractedColor>) | ColorsNotArray

  /** The parsed JSON reply: an object (with or without `colors`) or anything else
      (null, a primitive or an array, whose `colors` is undefined). */
  datatype ParsedJson = JsonObject(colors: Option<ColorsField>) | JsonOther

  const InvalidPaletteMessage := "La risposta dell'API non conteneva un array di colori valido."

  /** `parsedJson && Array.isArray(parsedJson.colors)`: accepted exactly when
      `colors` is an array; neither its length nor the hex strings are checked. */
  function CheckPalette(v: ParsedJson): (r: Result<ColorPalette, string>)
    ensures r.Success? <==> v.JsonObject? && v.colors.Some? && v.colors.value.ColorsArray?
    ensures r.Success? ==> r.value.colors == v.colors.value.items
    ensures r.Failure? ==> r.error == InvalidPaletteMessage
  {
    match v
    case JsonObject(Some(ColorsArray(items))) => Success(ColorPalette(items))
    case _ => Failure(InvalidPaletteMessage)
  }

  // ---------------------------------------------------------------------
  // Operation facades: error wrapping

  /** What a failing step threw: an `Error` object, or any other value. */
  datatype Thrown = ErrorObject(message: string) | OtherValue

  /** The catch block of each operation: an `Error` is rethrown with the
      operation's prefix in front of its own message; anything else becomes
      the operation's "unknown error" message. */
  function Rethrow(prefix: string, unknown: string, e: Thrown): (m: string)
    ensures e.ErrorObject? ==> StartsWith(m, prefix) && m[|prefix|..] == e.message
    ensures e.OtherValue? ==> m == unknown
  {
    match e
    case ErrorObject(msg) =>
      var m := prefix + msg;
      assert m[..|prefix|] == prefix && m[|prefix|..] == msg;
      m
    case OtherValue => unknown
  }

  const EnhancePrefix := "Impossibile migliorare l'immagine: "
  const EnhanceUnknown := "Si è verificato un errore sconosciuto durante il miglioramento dell'immagine."
  const ExtractPrefix := "Impossibile estrarre i colori: "
  const ExtractUnknown := "Si è verificato un errore sconosciuto durante l'estrazione dei colori."
  const TransferPrefix := "Impossibile armonizzare i colori: "
  const TransferUnknown := "Si è verificato un errore sconosciuto durante l'armonizzazione dei colori."

  /** An image-producing call: the reply is the model response, or what the
      call threw. The adapter's own failure is an `Error` and is rethrown too. */
  function ImageOperation(prefix: string, unknown: string, reply: Result<Response, Thrown>): (r: Result<string, string>)
    ensures reply.Failure? ==> r == Failure(Rethrow(prefix, unknown, reply.error))
    ensures reply.Success? && ExtractedImage(reply.value).Success? ==> r == ExtractedImage(reply.value)
    ensures reply.Success? && ExtractedImage(reply.value).Failure? ==>
              r == Failure(prefix + ExtractedImage(reply.value).error)
  {
    match reply
    case Failure(e) => Failure(Rethrow(prefix, unknown, e))
    case Success(resp) =>
      match ExtractedImage(resp)
      case Success(uri) => Success(uri)
      case Failure(msg) => Failure(Rethrow(prefix, unknown, ErrorObject(msg)))
  }

  /** generateEnhancedImage, from the reply of its generation call. */
  function GenerateEnhancedImage(reply: Result<Response, Thrown>): (r: Result<string, string>)
    ensures r.Success? <==> reply.Success? && FirstImageIndex(FirstParts(reply.value)).Some?
    ensures r.Failure? ==> StartsWith(r.error, EnhancePrefix) || r.error == EnhanceUnknown
  {
    ImageOperation(EnhancePrefix, EnhanceUnknown, reply)
  }

  /** applyColorTransfer, from the reply of its generation call. */
  function ApplyColorTransfer(reply: Result<Response, Thrown>): (r: Result<string, string>)
    ensures r.Success? <==> reply.Success? && FirstImageIndex(FirstParts(reply.value)).Some?
    ensures r.Failure? ==> StartsWith(r.error, TransferPrefix) || r.error == TransferUnknown
  {
    ImageOperation(TransferPrefix, TransferUnknown, reply)
  }

  /** extractColorsFromImage, from the parsed JSON reply (or what the call or
      `JSON.parse` threw). */
  function ExtractColorsFromImage(reply: Result<ParsedJson, Thrown>): (r: Result<ColorPalette, string>)
    ensures reply.Failure? ==> r == Failure(Rethrow(ExtractPrefix, ExtractUnknown, reply.error))
    ensures reply.Success? ==> (r.Success? <==> CheckPalette(reply.value).Success?)
    ensures reply.Success? && r.Success? ==> r == CheckPalette(reply.value)
    ensures reply.Success? && r.Failure? ==> r.error == ExtractPrefix + InvalidPaletteMessage
  {
    match reply
    case Failure(e) => Failure(Rethrow(ExtractPrefix, ExtractUnknown, e))
    case Success(v) =>
      match CheckPalette(v)
      case Success(p) => Success(p)
      case Failure(msg) => Failure(Rethrow(ExtractPrefix, ExtractUnknown, ErrorObject(msg)))
  }

  /** Every failure of the image operations starts with the operation's own
      prefix and keeps the original message after it, unless what was
      thrown was not an `Error`. */
  lemma ImageOperationEmbedsCause(prefix: string, unknown: string, reply: Result<Response, Thrown>)
    requires ImageOperation(prefix, unknown, reply).Failure?
    requires !(reply.Failure? && reply.error.OtherValue?)
    ensures var m := ImageOperation(prefix, unknown, reply).error;
            StartsWith(m, prefix) &&
            m[|prefix|..] == (if reply.Failure? then reply.error.message else ExtractedImage(reply.value).error)
  {
  }

  /** A response without image parts makes the enhancement fail with both
      prefixes in front of the diagnostic. */
  lemma EnhanceFailureMessage(resp: Response)
    requires FirstImageIndex(FirstParts(resp)).None?
    ensures GenerateEnhancedImage(Success(resp)) ==
            Failure(EnhancePrefix + GenerationFailedPrefix + NoImageMessage + DiagnosticText(ChooseDiagnostic(resp)))
  {
    var m := GenerationFailedPrefix + NoImageMessage + DiagnosticText(ChooseDiagnostic(resp));
    assert ExtractedImage(resp) == Failure(m);
    assert EnhancePrefix + m == EnhancePrefix + GenerationFailedPrefix + NoImageMessage + DiagnosticText(ChooseDiagnostic(resp));
  }

  /** Any number of colours is accepted, in the order the model gave them. */
  lemma PaletteKeepsEveryEntry(items: seq<ExtractedColor>)
    ensures ExtractColorsFromImage(Success(JsonObject(Some(ColorsArray(items))))) == Success(ColorPalette(items))
  {
  }
}
