# AI character generator: a Dafny model of the page's logic

The page lets a user upload a photo and choose an environment, an artistic style, an outfit
(one from a list, or free text) and a pose. It sends the photo and a one-sentence prompt to an
image model and shows the first image the model sends back, or an error.

This project models that logic, which all lives in `index.tsx`:

- the style lookup;
- the outfit description and the prompt template;
- the generate handler: its guard, the clearing of the old result, the scan of the response
  for the first inline image, and the three ways a call can end;
- the upload handlers' state updates;
- the Generate button's guard against overlapping calls.

Modules, one per concern:

- `Wrappers` (`wrappers.dfy`): `Option`, standing for `null`/`undefined`.
- `Text` (`text.dfy`): the JavaScript string operations the page uses.
  - `trim()`, with the exact ECMAScript WhiteSpace and LineTerminator set.
  - `split(',')`, with `join` as its inverse.
  - `Truthy`, JavaScript truthiness of a string that may be `null` or `undefined`.
  - The `data:{mime};base64,{data}` URL format.
- `Prompt` (`prompt.dfy`): the style table, the outfit description and the prompt template.
- `Generation` (`generation.dfy`):
  - the request and response shapes of the model SDK;
  - the scan loop as a method with loop invariants (`ScanForImage`), proved against a recursive
    specification function (`FirstImageUrl`);
  - `Settle`, the meaning of a call outcome.
- `Upload` (`upload.dfy`): what a file read leaves behind.
  - `CommaSegment` is `split(',')[1]`.
  - `Coherent` requires the payload to belong to the preview.
- `CharacterApp` (`app.dfy`): class `App`, whose fields are the component's twelve state
  fields. Its methods are the handlers.
  - `AfterLoad` and `AfterReadFailure` give the state the read handlers leave; the methods
    are specified by them.
  - `View` is what the output panel renders for a state.
  - `State()` gives all fields as one `AppState` value. Each method's postcondition states the
    new `State()` as an update of the old one, so everything it does not name stays unchanged.
  - `Valid()` is the invariant every handler keeps.

The awaited model call is the handler's only suspension point. It is therefore split in two:

- `BeginGenerate` runs up to the call and returns the request that would be sent.
- `ResumeGenerate` takes the call's outcome and runs to the end.
- `Generate` runs both with no other event in between.
- `ClickGenerate` is the button. While a call is in flight or no payload is present, the
  button is disabled and the click changes nothing.

JavaScript truthiness is modelled where it matters:

- `!uploadedImage` holds for an absent payload and for an empty one. `Truthy` is its negation.
  A data URL without a comma yields no payload. An empty file yields the empty payload.
- `e.message || fallback` falls back for an absent message and for an empty one.
- A missing `mimeType` or `data` in a returned blob prints as `undefined` in the data URL.

Notes on the source:

- The default style clause is "A photorealistic image", with a capital A (index.tsx:55).
- A click while a call is in flight never reaches the handler: the button's `disabled`
  attribute (index.tsx:236) filters it out.
- The output panel renders the spinner and the error independently (index.tsx:245-246), so
  both show when an error is set while a call is in flight, for instance by a failed read.
- A failed read also runs `onloadend` (index.tsx:27-33), because the browser fires `loadend`
  after `error`. Here the model does not follow the code: `App.ReadFailed` and `App.SelectFile`
  only set the error message, which is the evident intention. The code as written is modelled
  by `AfterReadFailureAsWritten`; see "## Findings".

## Model

| member | source | states |
|---|---|---|
| `Text.Trim` | index.tsx:69 | `trim()` yields the empty string exactly when the text is all whitespace, and otherwise a result that neither starts nor ends with whitespace |
| `Text.TrimIsSlice` | index.tsx:69 | the trimmed text is a slice of the input with only whitespace outside it |
| `Text.TrimCharacterized` | index.tsx:69 | every slice with only whitespace outside and none at its ends is the trimmed text, so trim is fully determined by that description |
| `Text.TrimIdempotent` | index.tsx:69 | trimming twice gives what trimming once gives |
| `Text.Split` | index.tsx:30 | `split` on a character gives at least one field and no field holds the separator. There is more than one field exactly when the separator occurs |
| `Text.JoinSplit` | index.tsx:30 | joining the fields of a split gives back the original string |
| `Text.SplitJoin` | index.tsx:30 | splitting a join of separator-free fields gives back the fields |
| `Text.DataUrl` | index.tsx:99 | the URL is `data:`, then the MIME type, then `;base64,`, then the data, each read back verbatim at its offset, with nothing else in it |
| `Prompt.StyleClause` | index.tsx:41-57 | every style string maps to one of the six clauses, and any string outside the six known styles maps to the photorealistic clause |
| `Prompt.StyleClauseTable` | index.tsx:41-57 | each of the six styles maps to its own clause, entry by entry |
| `Prompt.ClauseDeterminesStyle` | index.tsx:41-57 | the clause determines the style: distinct known styles get distinct clauses, and every unknown style behaves as photorealistic |
| `Prompt.OutfitDescription` | index.tsx:69 | predefined mode uses the choice verbatim. Custom mode gives "appropriate clothing" for whitespace-only text. A custom description is never empty and never has whitespace at either end |
| `Prompt.CustomOutfitIsTrimmedText` | index.tsx:69 | custom text that is not all whitespace is used as the slice of it that trimming leaves, with only whitespace cut away around it |
| `Prompt.TemplateFields` | index.tsx:71 | the prompt starts with the style clause and ends with the fixed identity sentence. Each field sits at a fixed offset and reads back verbatim |
| `Prompt.TemplateConnectors` | index.tsx:71 | the template's connecting text (" of the person from the provided photo, in the setting of ", ". The person is wearing ", " and is ") reads back verbatim between the fields |
| `Prompt.TemplateInjective` | index.tsx:71 | given the lengths of the first three fields, two prompts are equal exactly when all four fields are equal |
| `Prompt.Template` | index.tsx:71 | every prompt is as long as its four fields plus 160 characters of the template's own text, starts with the style description and ends with the identity sentence |
| `Prompt.FullPrompt` | index.tsx:69-71 | the prompt for any choices starts with the chosen style's clause, the photorealistic one for an unknown style, and ends with the identity sentence |
| `Prompt.BlankCustomOutfit` | index.tsx:69-71 | a whitespace-only custom outfit fills the template's outfit field with "appropriate clothing" |
| `Prompt.AnimeBeachPrompt` | index.tsx:69-71 | the default choices with the anime style give the prompt "An anime style image of the person from the provided photo, in the setting of a beach. The person is wearing casual wear and is sitting on a chair. Maintain the person's identity and features from the original photo.", character for character |
| `Generation.ImageUrl` | index.tsx:98-99 | a returned image's URL is `data:`, the blob's MIME type (`undefined` when absent), `;base64,` and the blob's data, each read back at its offset. For comma-free MIME type and data, the text after its comma is the blob's data |
| `Generation.FirstImageUrl` | index.tsx:96-104 | there is an image URL exactly when some part carries inline data, and it is always a data URL |
| `Generation.FirstImageUrlAt` | index.tsx:96-102 | the first part with inline data decides the image, wherever it stands |
| `Generation.LaterPartsIgnored` | index.tsx:96-102 | parts after the first inline image never change the result, so later images are ignored |
| `Generation.LeadingTextIgnored` | index.tsx:96-104 | parts without inline data before the image never change the result |
| `Generation.ScanForImage` | index.tsx:94-105 | the loop with the `foundImage` flag and `break` finds an image exactly when some part has inline data. It then returns the data URL of the first such part, and all earlier parts lack inline data |
| `Generation.Settle` | index.tsx:94-112 | a call ends in an image exactly when the response has parts and one of them carries inline data, and the image is the first such part's. A returned call without an image ends in the no-image message. A thrown call ends in its message when that is non-empty, else in the generic message. Every failure message is non-empty |
| `Generation.SecondPartWins` | index.tsx:94-109 | a reply of text, image, image shows the first image |
| `Upload.CommaSegment` | index.tsx:30 | `split(',')[1]` is present exactly when the data URL has a comma, and it never contains a comma |
| `Upload.CommaSegmentOf` | index.tsx:30 | for comma-free `a` and `b`, `split(',')[1]` of `a,b` is `b` |
| `Upload.DataUrlPayload` | index.tsx:27-30 | for a data URL of comma-free parts, the stored payload is exactly its base64 text. An empty file therefore leaves no usable payload |
| `CharacterApp.SettledShowsOneResult` | index.tsx:94-116 | once the start has cleared the result, settling any outcome keeps the invariant and stops the spinner. It leaves exactly one of image and error, and the panel shows just the outcome's image or message |
| `CharacterApp.Settled` | index.tsx:94-116 | once a call is over the spinner is off, the choices and the upload are unchanged, and the outcome's image or message is recorded while the other result field stays |
| `CharacterApp.View` | index.tsx:245-252 | the spinner shows while loading and the error whenever it is truthy, independently of each other. With neither, the generated image shows exactly when it is truthy and the placeholder otherwise |
| `CharacterApp.AfterLoad` | index.tsx:27-33 | a completed read sets the preview and the MIME type, leaves a payload that belongs to the preview and clears the error. Nothing else changes and the invariant is kept |
| `CharacterApp.AfterReadFailure` | index.tsx:34-36 | the `onerror` handler sets the error to "Failed to read the file." and nothing else, keeping the invariant |
| `CharacterApp.AfterReadFailureAsWritten` | index.tsx:27-36 | as written, a failed read sets that error and then, through `onloadend`, drops the preview, while the payload and MIME type stay |
| `CharacterApp.ReadFailureAsWrittenDropsPreview` | index.tsx:27-36 | as written, a failed read after a good upload leaves the old payload sendable with the button enabled and no preview shown, breaking the invariant. The intended handling keeps the preview, the payload and the invariant |
| `CharacterApp.App.constructor` | index.tsx:7-18 | the initial state holds the page's defaults and satisfies the invariant |
| `CharacterApp.App.SetEnvironment` | index.tsx:150 | changes the environment and nothing else |
| `CharacterApp.App.SetStyle` | index.tsx:171 | changes the style and nothing else |
| `CharacterApp.App.SetOutfitType` | index.tsx:190-200 | changes the outfit mode and nothing else. Both outfit texts are kept |
| `CharacterApp.App.SetPredefinedOutfit` | index.tsx:206 | changes the predefined outfit and nothing else |
| `CharacterApp.App.SetCustomOutfit` | index.tsx:220 | changes the custom outfit text and nothing else |
| `CharacterApp.App.SetPose` | index.tsx:231 | changes the pose and nothing else |
| `CharacterApp.App.FileLoaded` | index.tsx:27-33 | the handler leaves the state `AfterLoad` describes and keeps the invariant |
| `CharacterApp.App.ReadFailed` | index.tsx:34-36 | a failed read sets the error to "Failed to read the file." and changes nothing else (see Findings) |
| `CharacterApp.App.SelectFile` | index.tsx:22-38 | no file means no change. Otherwise a completed read leaves the `AfterLoad` state, and a failure only the `AfterReadFailure` state (see Findings) |
| `CharacterApp.App.BeginGenerate` | index.tsx:59-92 | without a payload, only the error changes and no request is made. With one, the spinner starts, the old error and image are cleared, and the request carries the payload, its MIME type and the prompt for the current choices |
| `CharacterApp.App.ResumeGenerate` | index.tsx:94-116 | the state after the call is the outcome's settlement. The first inline image or the matching error is recorded and the spinner always stops |
| `CharacterApp.App.Generate` | index.tsx:59-116 | without a payload, only the error is set. With one, the request is sent, and afterwards the spinner is off and exactly one of image and error is present |
| `CharacterApp.App.ClickGenerate` | index.tsx:236 | while a call is in flight, or without a payload, a click changes nothing and sends nothing. Otherwise generation starts |

## Left out

- The model SDK call, the `GoogleGenAI` client and the API key lookup (index.tsx:20, 84-92):
  network-bound and outside the page. The call's outcome is a parameter, and `BeginGenerate`
  returns the request instead of sending it.
- `FileReader` and its asynchronous events (index.tsx:26, 38): browser I/O. The handlers
  receive the read's outcome, the data URL or a failure.
- React's batching and re-rendering: each handler is one sequential update of the fields.
  Events between `BeginGenerate` and `ResumeGenerate` are possible in the model. One case:
  a failed read during a pending call sets the error, so the panel shows the spinner and the
  error together, and a successful call then also sets the image. `Generate`'s "exactly one of image and error" is stated for a handler with
  nothing in between, as `SettledShowsOneResult` requires.
- The JSX markup and the option lists (index.tsx:119-257): presentation. `View` mirrors
  only the output panel's four conditional elements: spinner, error, image and placeholder
  (index.tsx:245-252).
- `console.error` (index.tsx:113) and mounting the component (index.tsx:260-264).
- UTF-16: strings are sequences of Unicode scalar values. Every character `trim()` strips is a
  single code unit, so trimming is unaffected.

## Findings

| source | as written | input that shows it | evidently intended | confidence | as-written member | corrected member |
|---|---|---|---|---|---|---|
| index.tsx:27-36 | a failed read also runs `onloadend`, because the browser fires `loadend` after `error`. That handler stores the null result as the preview and then throws at `result.split`, so the previous file's payload and MIME type stay | upload `data:image/png;base64,QUJD`, then pick a file whose read fails: the preview is gone, but the Generate button stays enabled and would send `QUJD` | a failed read only reports "Failed to read the file." and leaves the upload fields as they were | medium, not executed | `CharacterApp.ReadFailureAsWrittenDropsPreview` | `CharacterApp.App.SelectFile` |
