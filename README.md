# Reunify: the generation workflow, in Dafny

Reunify is an Angular page. It merges a childhood photo and a current photo
into one AI-generated portrait in a chosen style. The user can then edit that
portrait with free-text instructions. This project models the two parts of
the page that have real logic, and proves what they promise.

- `AppComponent` (src/app.component.ts) holds the page state: two photo slots,
  the chosen style, the generated photo, the busy flag `isLoading`, the status
  and error texts, and the pending edit instruction. It runs two workflows,
  reunify and edit. Each workflow has the same shape: a guard, then going busy,
  then two model calls where the second takes the first's output, then a
  commit or a generic error, and finally a reset of the busy flag and status.
- `GeminiService` (src/services/gemini.service.ts) builds the requests for the
  model endpoints and handles their replies. Images travel as data URIs, and
  `base64ToGenerativePart` keeps field 1 of `data.split(',')`.

Files:

- `wrappers.dfy`: `Option` (for `T | null`) and `Result` (for a promise that
  resolves or rejects).
- `text.dfy`: the JavaScript string built-ins the code uses. `Split` is
  `split` with a one-character separator, and `Join` is its inverse.
  `Trim` is `trim` with ECMAScript's whitespace and line terminators.
  `StartsWith` is `startsWith`.
- `gemini_service.dfy`: the pure part of `GeminiService`. Each model endpoint
  is a parameter: a function from the `Request` sent to the outcome of the
  awaited call (`Success` with the reply, or `Failure`).
- `app_component.dfy`: `AppState`, a snapshot of the page signals. The guards
  `CanReunify` and `CanEdit` are predicates recomputed from it. `Reunify` and
  `Edit` are functions whose contracts state each workflow's promises. The
  class `App` has one mutable field per signal, and its methods set those
  fields step by step as the TypeScript does. The error banner and the status
  line hold a `Message`, one of the fixed texts the component sets (or
  nothing, for `null` and the empty status), and `MessageText` gives each
  one's wording. `App.ReunifyPhotos` and
  `App.EditImage` return the list of requests they sent. Each proves that its
  final state and that list are exactly what `Reunify` or `Edit` gives for the
  state before the call.

Where the code behaves otherwise than one might expect of such a page, the
model follows the code:

- `selectStyle` stores any id. It does no catalog check and has no
  "leave unchanged" path.
- The guards use JavaScript truthiness, so an empty-string photo counts as
  absent (`Truthy`).
- The reunify instruction carries the style id, not the style's display name.
- `base64ToGenerativePart` yields `undefined` (here `None`) for a string with no
  comma. It also tags every part with the MIME type its caller passes,
  whatever the data URI's header says. Uploaded photos go out as `image/jpeg`
  even when they are PNG files.

## Model

| member | source | states |
|---|---|---|
| `Text.Split` | src/services/gemini.service.ts:21 | `split(',')` yields at least one piece; no piece holds the separator; joining the pieces with it gives back the input |
| `Text.SplitJoin` | src/services/gemini.service.ts:21 | splitting undoes joining whenever no piece holds the separator, so the pieces of a string are unique |
| `Text.SplitAtSeparator` | src/services/gemini.service.ts:21 | the text before the first separator is the first piece and the rest is split on |
| `Text.SplitFirstPiece` | src/services/gemini.service.ts:21 | with no separator the split is the whole string; otherwise the first piece ends at the first separator |
| `Text.IndexOf` | src/services/gemini.service.ts:21 | the first position of a character, absent exactly when the character does not occur |
| `Text.SkipForwardSkipsWhitespace` | src/app.component.ts:40 | the start of the trimmed text lies past whitespace only, at a character that is not whitespace or at the end |
| `Text.SkipBackwardSkipsWhitespace` | src/app.component.ts:40 | the end of the trimmed text lies before whitespace only, just after a character that is not whitespace or at its start |
| `Text.Trim` | src/app.component.ts:40 | the trimmed text is no longer than the input and, unless empty, neither begins nor ends with whitespace |
| `Text.TrimEmptyIff` | src/app.component.ts:40 | a string trims to empty exactly when every character of it is whitespace |
| `Text.StartsWith` | src/app.component.ts:55 | `s` starts with `prefix` exactly when `s` is `prefix` followed by the rest of `s` |
| `GeminiService.PayloadField` | src/services/gemini.service.ts:21 | the text between the first and second comma: absent exactly when there is no comma, and never itself holding a comma |
| `GeminiService.Base64ToGenerativePart` | src/services/gemini.service.ts:18-25 | the part's MIME type is the one passed in, whatever the data's own header says; its data, when present, holds no comma |
| `GeminiService.PartDataIsPayload` | src/services/gemini.service.ts:21 | a part's data, field 1 of `split(',')`, is exactly the text between the first two commas, and is absent exactly when there is no comma |
| `GeminiService.PngDataUri` | src/services/gemini.service.ts:67 | the image is `data:image/png;base64,` followed by the returned bytes unchanged |
| `GeminiService.PngDataUriRoundTrip` | src/services/gemini.service.ts:21 | round trip with line 67: for bytes without a comma, the payload read back from the PNG data URI is exactly those bytes |
| `GeminiService.Base64PngDataUriRoundTrip` | src/services/gemini.service.ts:21 | the round trip for base64 bytes, which never hold a comma |
| `GeminiService.Fill` | src/services/gemini.service.ts:31 | the filled instruction starts with the template head, has the inserted value verbatim right after it, and then the tail |
| `GeminiService.ReunifyPromptRequest` | src/services/gemini.service.ts:27-36 | a `gemini-2.5-flash` request with three parts in order: childhood image, current image (both `image/jpeg`, payload as extracted), then text containing the style id |
| `GeminiService.EditPromptRequest` | src/services/gemini.service.ts:41-49 | a `gemini-2.5-flash` request with two parts in order: the image tagged `image/png`, then text containing the edit instruction |
| `GeminiService.ImageRequest` | src/services/gemini.service.ts:55-63 | an `imagen-3.0-generate-002` request for one square (`1:1`) `image/png` image whose prompt is the given text unchanged |
| `GeminiService.GenerateReunifyPrompt` | src/services/gemini.service.ts:27-39 | the answer of the text model to one request whose parts are both photos as `image/jpeg` and then an instruction quoting the style right after the template head; a rejection is passed on |
| `GeminiService.GenerateEditPrompt` | src/services/gemini.service.ts:41-52 | the answer of the text model to one request whose parts are the image as `image/png` and then an instruction quoting the requested change right after the template head; a rejection is passed on |
| `GeminiService.ImageFromResponse` | src/services/gemini.service.ts:65-70 | fails with no-image exactly when the image list is missing or empty; otherwise gives the PNG data URI of the first image's bytes |
| `GeminiService.GenerateImage` | src/services/gemini.service.ts:54-71 | rejects exactly when the call rejects or the reply's image list is missing or empty (a rejected call with its own error); otherwise resolves to the PNG data URI of the first image's bytes |
| `GeminiService.LaterImagesIgnored` | src/services/gemini.service.ts:65-67 | images after the first do not change the result |
| `GeminiService.GeneratedImageFeedsEdit` | src/services/gemini.service.ts:42 | a generated image sent back for editing carries exactly the bytes the image model returned |
| `AppComponent.MessageText` | src/app.component.ts:56-125 | the wording of the seven fixed texts set at lines 56, 87, 90, 96, 115, 118 and 125; each first-step status starts with `Step 1/2: ` and each second-step status with `Step 2/2: ` |
| `AppComponent.CanReunify` | src/app.component.ts:39 | enabled only when both slots hold a photo and nothing is loading; an empty data URL in either slot never enables it |
| `AppComponent.CanEdit` | src/app.component.ts:40 | enabled only when there is a generated photo, a non-empty instruction and nothing is loading; an empty generated photo never enables it |
| `AppComponent.CanEditIff` | src/app.component.ts:40 | editing is enabled iff there is a non-empty generated photo, the instruction has a non-whitespace character, and nothing is loading |
| `AppComponent.Reunify` | src/app.component.ts:73-101 | guard false: no change and no request. Otherwise: busy flag and status reset; only the image, error and status change; first request is the reunify prompt for the two photos and style; the image request is made iff that succeeded, with its text as prompt; an image is stored iff the image step succeeded, it is that step's image, and the generic error is set exactly when no image is stored |
| `AppComponent.Edit` | src/app.component.ts:103-130 | guard false: no change and no request. Otherwise: busy flag and status reset; only the image, instruction, error and status change; step 2 runs iff step 1 succeeded, on step 1's text. On success the image is step 2's image, the instruction is empty and there is no error. On failure at either step the image and instruction keep their earlier values and the generic edit error is set |
| `AppComponent.Finish` | src/app.component.ts:126-129 | the `finally` block of both workflows (also lines 97-100): the state is settled, and nothing but the busy flag and the status changes |
| `AppComponent.WorkflowsKeepSettled` | src/app.component.ts:97-100 | the session starts settled, and from a settled state either workflow ends settled (not loading, empty status) |
| `AppComponent.BusyExcludesWorkflows` | src/app.component.ts:39-40 | while loading, both workflows are no-ops that send nothing |
| `AppComponent.EditSendsReunifiedImage` | src/app.component.ts:106-116 | after a reunify whose image bytes are base64, a visible instruction enables editing, and the edit sends exactly those bytes as a PNG part |
| `AppComponent.ReunifySucceeds` | src/app.component.ts:86-93 | with prompt `T1` and image `I1`, reunify stores the data URI of `I1`, leaves no error, settles, and sends the two requests in order |
| `AppComponent.ReunifyWithoutImageFails` | src/app.component.ts:94-100 | when the image model returns no image, reunify leaves no image, sets the generic error and settles |
| `AppComponent.BlankInstructionDisablesEdit` | src/app.component.ts:40 | an instruction of spaces only disables editing, and the edit then changes nothing |
| `AppComponent.EditSucceeds` | src/app.component.ts:114-122 | with prompt `T2` and image `I2`, the edit stores the data URI of `I2` and clears the instruction |
| `AppComponent.App.constructor` | src/app.component.ts:21-37 | no photos, style `friendly`, not loading, empty status, no error, empty instruction |
| `AppComponent.App.OnPhotoSelected` | src/app.component.ts:51-67 | no file: nothing changes. A type not starting with `image/`: only the error is set, so both photo slots keep their values. An image: the error is cleared and only the chosen slot takes the data URL |
| `AppComponent.App.SelectStyle` | src/app.component.ts:69-71 | only the selected style changes, to the id given, with no catalog check |
| `AppComponent.App.UpdateEditPrompt` | src/app.component.ts:132-135 | only the edit instruction changes, to the value given |
| `AppComponent.App.ReunifyPhotos` | src/app.component.ts:73-101 | the final field values and the requests sent are those of `Reunify` on the state before the call |
| `AppComponent.App.EditImage` | src/app.component.ts:103-130 | the final field values and the requests sent are those of `Edit` on the state before the call |

## Left out

- Reading the picked file (`fileToBase64` with `FileReader`), `triggerFileUpload` and pulling values out of DOM events. These are browser I/O. `OnPhotoSelected` receives the file's declared type and the data URL it reads to. `UpdateEditPrompt` receives the input's value.
- `OnPhotoSelected` does not model a failing file read. In the source, such a rejection comes after the error has been cleared, and it leaves both slots unchanged.
- The `GoogleGenAI` client and its `generateContent` / `generateImages` calls are a foreign library over the network. They appear only as the endpoint parameters, which map each request to an outcome.
- The reply of `generateContent` is modelled as text or a failure. A reply whose `text` is `undefined` is not told apart; the source would pass it on as the image prompt.
- `ImageFromResponse` assumes every image entry carries an `image` with its `imageBytes` string. Two malformed first entries are not modelled: one whose `image` lacks `imageBytes`, for which line 67 builds a data URI ending in the text `undefined` and the workflow stores it as the new image; and one with no `image` object at all, for which line 66 throws a `TypeError`, so `generateImage` rejects and the workflow shows its generic error.
- The `API_KEY` check in the service constructor is environment access and is not modelled.
- Angular signals, `computed` and `OnPush` change detection are not modelled. The page state is plain fields, and the guards are predicates recomputed on every read.
- Every awaited call is taken to settle: both model calls (lines 88, 91, 116 and 119 of src/app.component.ts) and the file read at line 60. Each endpoint is a total function and each workflow one atomic method. The source has no timeout. A model call that never settles leaves `isLoading` true and the status on its step text for good, because the `finally` block never runs, so both guards stay false. `WorkflowsKeepSettled` therefore holds only for calls that settle. Two file reads for the same slot can also finish out of order, and the slot then keeps whichever finished last.
- Interleaving of the two `await` points with other events is not modelled. Each workflow runs as one atomic method. The busy flag's mutual exclusion appears only as `BusyExcludesWorkflows`.
- `console.error` logging is not modelled.
- The status texts set between the steps are assigned but cannot be observed, because each workflow runs atomically.
- `AppComponent.MessageText`: of the wording, only the step prefixes of the status texts are stated; that the seven texts are pairwise distinct is not proved.
- `GeminiService.Fill`: the two instruction templates are cut down to the sentence that carries the slot (`The desired style is "…"`, `The modification is: "…"`). The surrounding wording is not modelled; only containment of the inserted value is stated.
- The style catalog's display names and gradients are display data and are not modelled.
