# EDA-AI-Builder core, modelled in Dafny

EDA-AI-Builder is a browser page that asks Google's Gemini API for a schematic symbol and a PCB
footprint of an electronic part. It can attach a datasheet PDF to the request. It also offers a
chat about the part. This project models the sequential logic inside that page and proves what it
promises:

- `formatter.dfy` (module `Formatter`) covers the chat formatter `formatMessage`. It makes three
  global regular-expression replacements: line feeds, `**bold**` and `` `code` ``. Each one is
  modelled as an explicit scanner over the characters. That includes the lazy `(.*?)` that stops
  at line terminators, and the leftmost-first, non-overlapping order of a global replacement.
- `json_extract.dfy` (module `JsonExtract`) covers the greedy brace match `/\{[\s\S]*\}/`. It pulls
  the JSON object out of the model's free text. `JSON.parse` is an oracle function passed in.
- `gemini_client.dfy` (module `GeminiApi`) covers the class `GeminiClient`:
  - its configuration and setters;
  - the missing-key check;
  - the request it builds: URL, the ordered `parts` and one `contents` entry;
  - how it reads the reply: the error message of a non-ok status, the first candidate or `""`,
    and failures propagated unchanged;
  - the data-URL split of `fileToBase64`.
- `session.dfy` (module `App`) covers the page state of app.js as the class `Session`. Its fields
  are the busy flag, the attached file, the preview cache `window.previewData`, the active tab, the
  preview pane and the download button. Its methods are the generation attempt, `renderPreview`,
  the tab-click handler, the PDF upload gate, the remove-file button and the chat prompt of
  `sendMessage`. The two generation steps, `RenderPreview`, `SelectTab` and `HandleFileUpload`
  are each specified by a function on the value `SessionState`. `RemoveFile` states its single
  assignment, and `SendMessage`, which changes nothing, states its request directly. The lemmas
  relate several steps: a second click while busy is refused, a failed attempt leaves the page as it
  was, rendering is idempotent, and a tab switch shows the cached preview.
- `text.dfy` (module `Text`) holds JavaScript's `trim` and first/last occurrence of a character.
  The source calls neither `indexOf` nor `lastIndexOf`. The model uses them to locate the brace
  match (app.js:389), the `split(',')` of js/gemini-client.js:85 and the backticks of the code pass.
- `wrappers.dfy` (module `Wrappers`) holds `Option` and `Result`.

`startGeneration` awaits the API once. It is modelled as the two steps on either side of that
await. `Session.StartGeneration` runs the busy guard and the validation gate, sets the busy flag
and returns the request. `Session.FinishGeneration` takes what the call resolved or rejected with,
routes the result and clears the busy flag, as the `finally` block does. Other handlers may run
between the two steps, as they can in the browser.

Two behaviours of the code that the model keeps as written:

- A non-ok reply whose body is not JSON makes `response.json()` throw at
  js/gemini-client.js:59. That error propagates (`Rethrown`); there is no fallback to the status
  text.
- The validation gate of `startGeneration` checks only that the part number and the EDA
  software are non-empty. The part number is not trimmed, and no API-key length is checked.

## Model

| member | source | states |
|---|---|---|
| `Formatter.ReplaceNewlines` | app.js:347 | the line-break pass as a scanner; it has no ensures of its own: its properties are stated by `NoLineFeedAfterBreaks`, `BreaksLeavePlainText`, `ReplaceNewlinesAppend` and `NewlinesRoundTrip` |
| `Formatter.NoLineFeedAfterBreaks` | app.js:347 | after the line-break pass no line feed is left |
| `Formatter.BreaksLeavePlainText` | app.js:347 | text without a line feed passes the line-break pass unchanged |
| `Formatter.ReplaceNewlinesAppend` | app.js:347 | the pass works character by character: it distributes over concatenation |
| `Formatter.NewlinesRoundTrip` | app.js:347 | on text without `<`, turning each `<br>` back into a line feed restores the input, so each line feed became exactly one `<br>` |
| `Formatter.FindClose` | app.js:348 | the lazy `(.*?)\*\*` stops at the first `**` with no line terminator before it, and fails exactly when there is none |
| `Formatter.BoldAddsNoLineFeed` | app.js:348 | the bold pass writes no line feed of its own: text without one comes out without one |
| `Formatter.ReplaceBold` | app.js:348 | the bold pass as a leftmost-first scanner; it has no ensures of its own: its properties are stated by `BoldAddsNoLineFeed`, `BoldSpan`, `BoldAfterPlain` and `BoldStopsAtLineTerminator` |
| `Formatter.BoldSpan` | app.js:348 | `**X**` becomes `<strong>X</strong>` and scanning resumes after it, when X has no line terminator, no `**` and does not end in `*` |
| `Formatter.BoldAfterPlain` | app.js:348 | text before the first `*` is copied and does not change how the rest is matched (leftmost first); so text without `*` passes unchanged |
| `Formatter.BoldStopsAtLineTerminator` | app.js:348 | a line terminator (`\r`, U+2028, U+2029) between the stars prevents the match: `**X\r**` is unchanged |
| `Formatter.CodeAddsNoLineFeed` | app.js:349 | the code pass writes no line feed of its own: text without one comes out without one |
| `Formatter.ReplaceCode` | app.js:349 | the code pass as a leftmost-first scanner; it has no ensures of its own: its properties are stated by `CodeAddsNoLineFeed`, `CodeSpan`, `EmptyCodeSpanKept` and `CodeAfterPlain` |
| `Formatter.CodeSpan` | app.js:349 | `` `X` `` with X non-empty and backtick-free becomes `<code>X</code>` and scanning resumes after it |
| `Formatter.EmptyCodeSpanKept` | app.js:349 | two adjacent backticks enclose nothing: the first stays literal and matching resumes at the second |
| `Formatter.CodeAfterPlain` | app.js:349 | text before the first backtick is copied and does not change how the rest is matched; so text without a backtick passes unchanged |
| `Formatter.FormatMessage` | app.js:345-350 | the formatted message holds no line feed; text without line feed, `*` or backtick passes unchanged |
| `Formatter.FormatBoldThenCode` | app.js:345-350 | the three passes in order: `**X**`, a line feed and `` `Y` `` become `<strong>X</strong><br><code>Y</code>` |
| `JsonExtract.BraceSpan` | app.js:389 | a match exists iff some `{` precedes some `}`; it is the slice from the first `{` to the last `}`, starts with `{`, ends with `}` and has length at least 2 |
| `JsonExtract.SpanOfEmbeddedObject` | app.js:389 | with no `{` before and no `}` after an object embedded in prose, the match is exactly that object, whatever braces it contains |
| `JsonExtract.Extract` | app.js:389-391 | extraction reports no object iff there is no brace pair, and otherwise yields what the parser yields on the matched span |
| `Text.Trim` | app.js:288 | `trim()` yields a slice of the input with only white space cut from both ends; it is empty iff the input is all white space |
| `Text.TrimIdempotent` | app.js:288 | trimming twice cuts nothing more |
| `GeminiApi.GeminiClient.constructor` | js/gemini-client.js:5-9 | a fresh client has an empty key, model `gemini-2.5-pro` and the v1beta base URL |
| `GeminiApi.GeminiClient.SetApiKey` | js/gemini-client.js:11-13 | replaces the key and nothing else |
| `GeminiApi.GeminiClient.SetModel` | js/gemini-client.js:15-17 | replaces the model and nothing else |
| `GeminiApi.GeminiClient.GenerateContent` | js/gemini-client.js:25-74 | with an empty key it fails with "API Key is not set" and sends nothing. Otherwise it POSTs JSON to `baseUrl + model + ":generateContent?key=" + apiKey` with one content entry. Its parts are the text part first, then the inline file part if a file was given. The result is how the reply is read |
| `GeminiApi.ApiErrorMessage` | js/gemini-client.js:58-60 | a non-ok reply's message is `error.message` when present and non-empty, else `"API Error: " + statusText`; never empty |
| `GeminiApi.FirstCandidateText` | js/gemini-client.js:65-69 | a missing or empty candidate list gives `""`. A non-empty one gives the first candidate's first part text verbatim when that part exists; the only failure is the malformed-candidate error, when it does not |
| `GeminiApi.ReadReply` | js/gemini-client.js:50-73 | transport and body-parse failures are rethrown unchanged, for ok and non-ok replies alike. An API error arises exactly for a non-ok reply whose body parsed. An ok reply whose body parsed yields exactly the first-candidate text (or its malformed-candidate error), and success arises only that way. The missing-key error never comes from here |
| `GeminiApi.SecondField` | js/gemini-client.js:85 | `split(',')[1]` is the comma-free segment after the first comma, ending at the next comma or the end |
| `GeminiApi.FileToBase64` | js/gemini-client.js:80-97 | the attachment carries the file's own MIME type, and its data is `split(',')[1]` of the data URL, a comma-free segment |
| `GeminiApi.DataUrlRoundTrip` | js/gemini-client.js:85-89 | for a data URL `data:<type>;base64,<payload>` of section 3 of RFC 2397, `fileToBase64` returns exactly the file's type and the payload |
| `App.GenerationPrompt` | app.js:374-384 | the prompt text with the software and part number spliced in, indentation included; it has no ensures of its own: `Begin` and `GenerationScenario` state that it is the prompt sent |
| `App.Begin` | app.js:353-386 | while busy nothing changes; an empty part number or software returns without becoming busy; otherwise the state becomes busy and the request is the generation prompt with the current file |
| `App.WithPreview` | app.js:427-444 | the cache slot of the kind is set, the other slot is unchanged, and the pane shows the SVG only when its tab is active; the pane stays consistent with the cache |
| `App.WithTab` | app.js:447-474 | the tab becomes active; the pane shows the cached SVG if it is non-empty, else the placeholder for that tab |
| `App.Interpret` | app.js:386-418 | a request failure is reported iff the call rejected, with its error. A reply (the empty one included) without a brace pair gives "Failed to parse generation result". A reply whose matched span parses gives exactly the parsed data, and data comes only that way |
| `App.Complete` | app.js:386-424 | the busy flag is cleared on every path. On failure nothing else changes. On success only truthy SVGs are routed to their slots, the pane shows the active tab's routed SVG when it is truthy and is otherwise unchanged, download is enabled and file and tab are kept |
| `App.WithUpload` | app.js:265-284 | a missing or non-`application/pdf` file is rejected and a failed read changes nothing; otherwise the file becomes the current one, typed `application/pdf` |
| `App.Session.constructor` | app.js:74-77 | the page starts idle, with no file, an empty cache and download disabled |
| `App.Session.StartGeneration` | app.js:353-386 | performs `Begin` on the page state and keeps the pane consistent with the cache |
| `App.Session.FinishGeneration` | app.js:386-424 | performs `Complete` on the page state by calling `RenderPreview` for each truthy SVG |
| `App.Session.RenderPreview` | app.js:427-444 | performs `WithPreview` on the page state |
| `App.Session.SelectTab` | app.js:447-474 | performs `WithTab` on the page state |
| `App.Session.HandleFileUpload` | app.js:265-284 | performs `WithUpload` on the page state |
| `App.Session.RemoveFile` | app.js:222-229 | the attachment is forgotten |
| `App.Session.SendMessage` | app.js:287-308 | it does nothing iff the input is all white space and no file is attached. Otherwise the prompt is the trimmed text, prefixed with `Context: Component is <pn>. ` when the part number is non-empty, and the current file goes along |
| `App.SecondStartRefused` | app.js:354 | while an attempt is outstanding a second Generate click changes nothing |
| `App.FailedAttemptRestoresState` | app.js:353-424 | a submitted attempt that fails returns the page to exactly the state before the click |
| `App.RenderPreviewIdempotent` | app.js:427-435 | rendering the same SVG twice equals rendering it once |
| `App.TabShowsRenderedPreview` | app.js:454-463 | after a non-empty SVG is rendered, switching to its tab, even by way of another tab, shows it |
| `App.GenerationScenario` | app.js:353-411 | end to end: prose around one JSON object whose SVG fields parse fills both previews, shows the active one and enables download |

## Left out

- DOM output is not modelled: the placeholder's markup (`Pane.Placeholder` stands for it),
  `addMessage`, `updateMessage`, `updateStatus`, `alert`, `console`, the button spinner and the
  status steps. The chat texts they show are not modelled either ("Generation
  failed: …", "Successfully generated …"). Which text would be shown follows from the returned
  `Outcome`, `UploadResult` or `Option<Request>`.
- The static tables are not modelled: models, package types, EDA software and sample parts. Neither
  are the dropdown and sample-tag population, event wiring, drag-and-drop styling, textarea
  resizing, the API-key and settings toggles, or the SVG style sizing. They hold no logic.
- `savePreferences` and `loadPreferences` are left out: they are localStorage input and output.
  The client setters they call are modelled by `SetApiKey` and `SetModel`.
- `fetch`, `response.json()`, `JSON.parse` and `FileReader` are browser APIs. They enter only as
  values (`FetchOutcome`, `ReadOutcome`) or as the oracle `parse`. The base64 encoding itself
  happens inside `FileReader`, so its round trip is not modelled.
- Error messages that the JavaScript engine generates are not modelled: the SyntaxError of
  `JSON.parse` and the TypeError of reading a missing `content.parts[0]`. They appear only as the
  outcome kinds `JsonSyntaxError` and `MalformedReply`.
- A reply body that parses to something other than an object (`null`, a number) is not modelled.
  Each reply part's `text` is taken to be a string.
- The parsed generation object is modelled by its two fields `symbol_svg` and `footprint_svg`, as
  optional strings. Truthy non-string values and the `specs` field, which nothing reads, are left
  out.
- Tabs and cache keys are limited to `symbol` and `footprint`, the `data-tab` values of the page.
  index.html is not part of this model, so the initially active tab is a constructor argument.
  Lookups of other keys on the plain object `window.previewData` are not modelled.
- `handleFileUpload` awaits the reader between its gate and its assignment. The model performs both
  in one step, so other handlers cannot run in between.
- GeminiApi.FileToBase64: requires a data URL that holds a comma. `FileReader.readAsDataURL`
  always produces one; `split(',')[1]` of a comma-free string (`undefined`) is not modelled.
- App.Session.RemoveFile: covers only `currentFile = null`. Hiding the file info and clearing the
  file input are DOM effects.
