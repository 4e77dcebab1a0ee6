# Dodge & Burn Studio: a verified model of its local logic

The application is a browser photo-retouching wizard. The user uploads a
photo, chooses dodge and burn intensities and a lighting style, and sends
the photo to a hosted generative-image model. The user can then upload a
reference image, extract a colour palette from it with the same model,
select some of its colours, and ask for a final colour-harmonisation pass.
All image work happens remotely. This project models the deterministic
local parts:

- `text.dfy` (module `Text`): the JavaScript string operations the code
  relies on. These are `split`/`join` with a one-character separator,
  `startsWith`, and the truthiness of an optional string.
- `types.dfy` (module `Types`): the `ExtractedColor` and `ColorPalette`
  records of `types.ts`, plus the name, `type` and `size` of a browser
  `File`. The slots of `ImageState` are fields of `App.AppState`, except
  `beforeUrl`, which is left out.
- `gemini_service.dfy` (module `GeminiService`, from `geminiService.ts`):
  - the intensity bands and the lighting-style table;
  - the parameter-dependent part of the retouch prompt;
  - the palette block of the colour-transfer prompt;
  - the response adapter `handleApiResponse`, written as a method with its
    loop and its chain of error-message steps, and proved equal to the
    specification function `ExtractedImage`;
  - the palette-shape check;
  - the catch-and-rethrow of each operation.

  The network call is a parameter: each operation receives the call's
  reply, or the value the call threw.
- `color_harmonization_panel.dfy` (module `ColorHarmonizationPanel`): the
  colour toggle by hex, the extraction guard, and the busy and disabled
  predicates.
- `image_uploader.dfy` (module `ImageUploader`): the MIME whitelist, the
  20 MiB bound, and the handler that passes a valid file to the wizard.
- `app.dfy` (module `App`, from `App.tsx`):
  - the stepper index;
  - the data-URI split in `handleApplyColorTransfer`, proved to undo the
    adapter's `data:<mime>;base64,<data>`;
  - the wizard itself: class `AppState` with one field per `useState` slot
    and one method per handler.

  Each handler method runs the source's setter calls in order as one
  atomic step. It takes the outcome of the awaited remote operation as a
  parameter and returns the request it dispatched. `State()` reads all the
  slots as one `Snapshot` value, so every handler states its whole new
  state. `Valid()` is the class invariant that every handler preserves:
  - past the upload step there is a file;
  - an enhanced image implies a file;
  - a final image implies an enhanced one;
  - selected colours have pairwise distinct hex values.

Behaviour of the code that is easy to misread:

- A burn of 20 is in the "subtle" band. The bands change at 20, 40, 60 and
  80, and `val < 20` is false at 20 (`RetouchPromptScenario`).
- A palette extraction clears the selection before the call, whatever the
  outcome. A failed extraction also leaves the palette empty.
- `handleImageSelect` and the other handlers do not check the current step.
- `handleFileSelect` clears the error before it validates the file. A
  rejected file therefore leaves its own message in the error slot,
  whatever the slot held before.
- The lighting styles are the Italian names the code uses: Cinematico,
  Rembrandt, Contrasto Morbido, Drammatico. Any other name falls back to
  Standard.
- JavaScript truthiness is modelled. An empty block reason, finish reason,
  model text, MIME type, enhanced URL or payload counts as absent.

## Model

| member | source | states |
|---|---|---|
| `GeminiService.IntensityWord` | geminiService.ts:36-42 | the word is "very subtle" iff v < 20, "subtle" iff 20 ≤ v < 40, "moderate" iff 40 ≤ v < 60, "strong" iff 60 ≤ v < 80, "very strong" iff v ≥ 80; always one of the five |
| `GeminiService.IntensityWordMonotone` | geminiService.ts:36-42 | a larger intensity never gets a weaker band |
| `GeminiService.LightingStyleDescription` | geminiService.ts:20-34 | the Standard description is returned iff the style is none of Cinematico, Rembrandt, Contrasto Morbido, Drammatico; each of those four gets its own text |
| `GeminiService.LightingOptionsDistinct` | geminiService.ts:20-34 | the five options the retouch panel offers map to five pairwise different descriptions |
| `GeminiService.RetouchPrompt` | geminiService.ts:83-91 | the prompt carries the intensity word of dodge and of burn, the style with its description, and the user's guidance verbatim iff it is non-empty (else the default line) |
| `GeminiService.RetouchPromptScenario` | geminiService.ts:86-88 | dodge 80, burn 20, Drammatico gives "very strong", "subtle" and the dramatic description; burn 19 gives "very subtle" |
| `GeminiService.ColorList` | geminiService.ts:183 | the palette block is empty iff no colour is selected, and otherwise starts with the first colour's line |
| `GeminiService.ColorLines` | geminiService.ts:183 | one line `- name (hex): semantic` per colour, at the same position |
| `GeminiService.ColorListLines` | geminiService.ts:183 | splitting the newline-joined palette block gives back exactly one line per selected colour, in selection order (fields without newlines, at least one colour) |
| `GeminiService.DataUri` | geminiService.ts:52 | the URI is `data:`, then the MIME type, then `;base64,`, then the payload, each readable back at its position |
| `GeminiService.DiagnosticText` | geminiService.ts:57-66 | the label tells the diagnostic apart: the text starts with the block label iff blocked, with the interruption label iff interrupted, with the model-text label iff it reports model text; the reason or text reads back between the label and the closing character |
| `GeminiService.ExtractedImage` | geminiService.ts:44-69 | succeeds iff the first candidate has an image part, with a `data:` URI; every failure starts with the generation-failed prefix and the no-image sentence |
| `GeminiService.FirstImageIndex` | geminiService.ts:48-49 | finds the first part that is inline data with a MIME type starting `image/`; none iff no part is |
| `GeminiService.ChooseDiagnostic` | geminiService.ts:58-66 | exactly one diagnostic, by priority: block reason iff present; abnormal finish iff no block reason and a finish reason other than STOP; model text only when present; generic message only when neither block reason nor text |
| `GeminiService.HandleApiResponse` | geminiService.ts:44-70 | the loop returns the data URI of the first image part of the first candidate; otherwise the failure message is the fixed prefix, the no-image sentence and the chosen diagnostic; success iff some part is an image |
| `GeminiService.NormalFinishIsNotInterruption` | geminiService.ts:60 | a finish reason of STOP, or none, never yields the interruption diagnostic |
| `GeminiService.BlockReasonReported` | geminiService.ts:58-59 | with no image part and a block reason, the failure message ends with that block reason and a full stop |
| `GeminiService.FirstImageWins` | geminiService.ts:48-53 | earlier non-image parts are skipped and later parts ignored: the result is the URI of the first image part whatever else the response holds |
| `GeminiService.CheckPalette` | geminiService.ts:161-165 | the palette is accepted iff the parsed value is an object whose `colors` is an array; its entries are kept as they are; otherwise the fixed invalid-palette message |
| `GeminiService.PaletteKeepsEveryEntry` | geminiService.ts:161-162 | any number of entries is accepted and returned in the model's order |
| `GeminiService.Rethrow` | geminiService.ts:106-111 | an `Error` is rethrown as the prefix followed by its original message; any other thrown value becomes the unknown-error message |
| `GeminiService.ImageOperation` | geminiService.ts:104-111 | a call failure is rethrown with the prefix; an adapter failure is prefixed; an image URI passes through |
| `GeminiService.GenerateEnhancedImage` | geminiService.ts:72-113 | succeeds iff the reply has an image part; every failure starts with "Impossibile migliorare l'immagine: " or is the unknown-error message |
| `GeminiService.ApplyColorTransfer` | geminiService.ts:176-212 | succeeds iff the reply has an image part; every failure starts with "Impossibile armonizzare i colori: " or is the unknown-error message |
| `GeminiService.ExtractColorsFromImage` | geminiService.ts:158-173 | returns the palette iff the shape check accepts the parsed reply; a rejected shape fails with the extraction prefix and the invalid-palette message; a thrown `Error` is prefixed |
| `GeminiService.ImageOperationEmbedsCause` | geminiService.ts:106-111 | every failure caused by an `Error` starts with the operation's prefix, and the original message follows it unchanged |
| `GeminiService.EnhanceFailureMessage` | geminiService.ts:104-109 | a response without image part fails with the enhancement prefix, the generation-failed prefix, the no-image sentence and the diagnostic, in that order |
| `Text.Join` | geminiService.ts:183 | one piece joins to itself; with two or more pieces the separator follows the first piece |
| `Text.Split` | App.tsx:171-173 | `split` gives at least one piece, no piece contains the separator, and joining the pieces gives the input back |
| `Text.SplitJoin` | geminiService.ts:183 | splitting a `join` gives back the pieces when no piece contains the separator |
| `ColorHarmonizationPanel.BusyAndDisabled` | ColorHarmonizationPanel.tsx:29-31 | busy iff the loading action is `extract` or `apply`; apply is disabled iff busy or nothing is selected; the count slider and extract button (ColorHarmonizationPanel.tsx:107-109) are disabled iff there is no reference file or the panel is busy |
| `ColorHarmonizationPanel.HandleExtractClick` | ColorHarmonizationPanel.tsx:51-55 | extraction is requested iff a reference file is set, with that file and the current count, which stays within the slider's 4–16 range |
| `ColorHarmonizationPanel.RemoveHex` | ColorHarmonizationPanel.tsx:60 | keeps exactly the entries whose hex differs; the hex no longer occurs |
| `ColorHarmonizationPanel.RemoveHexAppend` | ColorHarmonizationPanel.tsx:60 | the filter distributes over concatenation, so the kept entries stay in their relative order |
| `ColorHarmonizationPanel.RemoveAbsentHex` | ColorHarmonizationPanel.tsx:60 | filtering a hex that does not occur changes nothing |
| `ColorHarmonizationPanel.HandleColorToggle` | ColorHarmonizationPanel.tsx:57-64 | a selected hex is removed with every entry carrying it; an unselected colour is appended at the end; afterwards the hex is selected iff it was not before |
| `ColorHarmonizationPanel.ToggleKeepsOthers` | ColorHarmonizationPanel.tsx:57-64 | entries with another hex are neither added, removed nor reordered |
| `ColorHarmonizationPanel.ToggleTwiceRestores` | ColorHarmonizationPanel.tsx:57-64 | toggling an unselected colour twice restores the selection exactly |
| `ColorHarmonizationPanel.ToggleTwiceSelected` | ColorHarmonizationPanel.tsx:57-64 | toggling a selected colour twice removes every entry with its hex and appends the colour once at the end |
| `ColorHarmonizationPanel.DefaultColorCountInRange` | ColorHarmonizationPanel.tsx:27 | the default count 8 lies within the slider's range 4–16 |
| `ColorHarmonizationPanel.RemoveHexKeepsDistinct` | ColorHarmonizationPanel.tsx:60 | filtering keeps pairwise distinct hexes distinct |
| `ColorHarmonizationPanel.ToggleKeepsDistinct` | ColorHarmonizationPanel.tsx:57-64 | if the selection's hexes are pairwise distinct before a toggle, they are after it |
| `ImageUploader.HandleFileValidation` | ImageUploader.tsx:12-25 | valid iff the type is image/jpeg, image/png or image/webp and the size is at most 20·1024·1024; a bad type reports the type message, a good type with too large a size the size message; exactly one message on failure |
| `ImageUploader.SizeBoundIsInclusive` | ImageUploader.tsx:14-20 | exactly 20 MiB is accepted, one byte more is rejected as too large |
| `ImageUploader.TypeCheckedFirst` | ImageUploader.tsx:16-23 | a bad type reports only the type message, whatever the size |
| `ImageUploader.HandleFileSelect` | ImageUploader.tsx:27-32 | the error is cleared first; no file changes nothing else; an invalid file leaves only its message; a valid file puts the wizard into the state right after selecting it |
| `App.PanelBusyActions` | App.tsx:11 | of the four loading actions, exactly `extract` and `apply` make the colour panel busy |
| `App.FindIndex` | App.tsx:20-23 | `findIndex`: -1 iff absent, otherwise the first matching position |
| `App.StepperIndex` | App.tsx:20-23 | upload is entry 0, retouch entry 1, harmonisation and done both entry 2 |
| `App.StepperIndexDistinct` | App.tsx:20-23 | `done` shares the harmonisation entry, the other steps have distinct entries |
| `App.SplitDataUri` | App.tsx:171-178 | a successful split yields a non-empty MIME type free of `,` `:` `;` and a non-empty payload free of `,` |
| `App.DataUriRoundTrip` | App.tsx:171-178 | the split recovers the MIME type and payload of the URI built by the adapter, when the MIME type has no `,` `:` `;` and the payload no `,` |
| `App.DataUriRejectsEmpty` | App.tsx:176-178 | an empty MIME type or payload in such a URI is rejected with the unparseable-image error |
| `App.EnhanceThenTransfer` | App.tsx:112-190 | after a successful enhancement, the transfer call receives exactly the adapter's MIME type and payload with the selection, and the wizard ends at done with both images and no error |
| `App.CaughtMessage` | App.tsx:135 | an `Error`'s message is shown as is; anything else becomes the generic unknown-error message |
| `App.AppState.constructor` | App.tsx:41-63 | the wizard starts at upload with dodge = burn = 50, style Standard, empty guidance and every other slot empty |
| `App.AppState.ResetState` | App.tsx:65-81 | every slot returns to its initial value: upload step, 50/50/Standard/"", no palette, selection, reference file, error, loading action or image |
| `App.AppState.SetError` | App.tsx:278 | only the error slot changes |
| `App.AppState.ImageSelect` | App.tsx:83-93 | after a reset the file and `mimeType = file.type` are stored, the enhanced and final images are absent, and the step is retouch |
| `App.AppState.ProcessDodgeBurn` | App.tsx:112-140 | without a file or MIME type only the error is set; otherwise it dispatches the current parameters' prompt, clears both results, and on success stores the enhanced image and moves to harmonisation, on failure keeps the step and sets the error; the loading slot ends empty |
| `App.AppState.ExtractColors` | App.tsx:142-159 | palette and selection are cleared and the reference file stored before dispatch with the file's type and the count; on success the palette is replaced wholesale, on failure the error is set |
| `App.AppState.ApplyColorTransfer` | App.tsx:161-190 | without an enhanced image or a selection only the error is set; a URI that cannot be split sets its error; otherwise the split MIME type and payload are sent with the selection, and on success the final image is stored and the step becomes done |
| `App.AppState.SuggestDodgeBurn` | App.tsx:192-216 | never changes the step; without a file only the error is set; on success exactly dodge and burn are overwritten |
| `App.AppState.ToggleColor` | App.tsx:258 | only the selection changes, to the panel's toggle of it; hexes stay pairwise distinct |

## Left out

- The generation calls (`ai.models.generateContent`), the API-key check at
  module load, and `console.error` are network and foreign calls. Their
  results are parameters of the operations.
- `JSON.parse` and `response.text.trim()` are left out. The parsed reply
  is given as a `ParsedJson` value, or as what the parsing threw.
- The entries of `colors` are taken to be colour records: the source casts
  the array without checking its elements.
- The response's `text` accessor is modelled as an independent optional
  field. It is not derived from the parts.
- `fileToBase64`/`FileReader`, `URL.createObjectURL`/`revokeObjectURL` and
  the `beforeUrl` preview slot are browser I/O and resource handles. Their
  failures are part of the outcome passed to each handler.
- `suggestDodgeAndBurn`'s body is not part of this model. It is an opaque
  call returning a dodge/burn pair or an error.
- Asynchronous interleaving, stale responses and React's stale closures
  are left out. Each handler is one atomic step, and the intermediate
  "busy" value is visible only inside it.
- `App.AppState.ApplyColorTransfer`: when the URI has no `:`, the engine's
  `TypeError` message is a parameter, because its text comes from the
  JavaScript engine.
- An inline part with no MIME type is left out. In the source it throws a
  `TypeError`. An inline part with no data is also left out.
- `GeminiService.IntensityWord`: intensities are integers, as the 0–100
  sliders produce them. Fractional and NaN values are not modelled.
- The colour count is taken to lie in the slider's range 4–16, with
  default 8. The browser's clamping of range inputs is not modelled.
- The panel's own reference-file picker (`handleFileSelect` in the panel)
  and its preview are left out. It only stores the chosen file for the
  extraction guard, and the preview is a resource handle.
- Rendering is left out: the JSX, ControlPanel, ImageViewer, ColorSwatch
  and its float luminance test `isLightColor`.
- Exact prompt prose is left out. Only the parameter-dependent pieces and
  the palette block are modelled.
