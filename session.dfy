/**
 * The page state of app.js and the handlers that change it: the generation attempt
 * (`startGeneration`, with its busy flag and `finally` reset), the preview cache
 * `window.previewData` with `renderPreview` and the tab-click handler, the PDF upload gate, the
 * remove-file button and the chat prompt of `sendMessage`.
 *
 * `startGeneration` awaits the API once; it is modelled as the two steps on either side of that
 * await: `StartGeneration` runs up to the call and hands back the request, `FinishGeneration` takes
 * what the call resolved or rejected with and runs to the end of the `finally` block. Other
 * handlers may run in between, as they may in the browser.
 *
 * The handlers are methods of `Session`. The two generation steps, `RenderPreview`, `SelectTab`
 * and `HandleFileUpload` are each specified by a function on `SessionState`, the value of the page
 * state; `RemoveFile` states its one assignment, and `SendMessage`, which changes nothing, states
 * its request directly. The lemmas at the end relate several steps.
 */
module App {
  import opened Wrappers
  import opened Text
  import opened JsonExtract
  import opened GeminiApi

  const PdfMimeType: string := "application/pdf"

  /** The two preview tabs (`data-tab` values), which are also the keys of the preview cache. */
  datatype Kind = Symbol | Footprint

  /** What the preview container shows. */
  datatype Pane =
    | Initial                  // the page's own markup, before any handler wrote to it
    | ShowsPreview(svg: string)
    | Placeholder(kind: Kind)  // "Generated <kind> will appear here"

  /** The arguments of `geminiClient.generateContent(prompt, currentFile)`. */
  datatype Request = Request(prompt: string, file: Option<FileData>)

  /** How `startGeneration` left off at its await. */
  datatype StartResult =
    | AlreadyGenerating        // `if (isGenerating) return;`
    | MissingInput             // no part number or no EDA software: alert and return
    | Submitted(request: Request)

  /** How the attempt ended, after the await. */
  datatype Outcome =
    | Generated(artifact: Artifact)
    | RequestFailed(error: ClientError)  // `generateContent` rejected
    | NoJsonFound                        // "Failed to parse generation result"
    | JsonSyntaxError                    // `JSON.parse` threw

  /** What the awaited `FileReader` produced. */
  datatype ReadOutcome = Loaded(dataUrl: string) | ReadFailed

  /** How `handleFileUpload` ended. */
  datatype UploadResult =
    | NotPdf     // "Please upload a PDF file."
    | ReadError  // "Error processing file."
    | Uploaded

  /** The module-level state of app.js, with the parts of the page the handlers write. */
  datatype SessionState = SessionState(
    generating: bool,              // isGenerating (the generate button is disabled exactly then)
    currentFile: Option<FileData>, // currentFile
    previews: map<Kind, string>,   // window.previewData
    activeTab: Kind,               // the tab button carrying the `active` class
    pane: Pane,                    // previewContainer.innerHTML
    downloadEnabled: bool)         // !downloadBtn.disabled

  /** A JavaScript truthy string: present and non-empty. */
  predicate Truthy(v: Option<string>) {
    v.Some? && v.value != []
  }

  /** `window.previewData && window.previewData[kind]` is truthy. */
  predicate Cached(previews: map<Kind, string>, kind: Kind) {
    kind in previews && previews[kind] != []
  }

  /** The field of the generation object that feeds the preview of `kind`. */
  function SvgFor(a: Artifact, kind: Kind): Option<string> {
    match kind
    case Symbol => a.symbolSvg
    case Footprint => a.footprintSvg
  }

  /** The state on page load: idle, no file, no cache, download disabled. */
  function InitialSession(tab: Kind): SessionState {
    SessionState(false, None, map[], tab, Initial, false)
  }

  /**
   * The pane never contradicts the cache: an SVG it shows is the active tab's cached one, and a
   * placeholder stands for the active tab while its cache entry is empty.
   */
  predicate PaneMirrorsCache(s: SessionState) {
    && (s.pane.ShowsPreview? ==> s.activeTab in s.previews && s.pane.svg == s.previews[s.activeTab])
    && (s.pane.Placeholder? ==> s.pane.kind == s.activeTab && !Cached(s.previews, s.activeTab))
  }

  /** The fixed part of the generation prompt: the JSON shape asked for (app.js lines 375-384). */
  const PromptInstructions: string :=
    "        Return ONLY a JSON object with the following structure:\n"
    + "        {\n"
    + "            \"symbol_code\": \"...\",\n"
    + "            \"footprint_code\": \"...\",\n"
    + "            \"symbol_svg\": \"<svg>...</svg>\",\n"
    + "            \"footprint_svg\": \"<svg>...</svg>\",\n"
    + "            \"specs\": { \"package\": \"...\", \"pin_count\": \"...\" }\n"
    + "        }\n"
    + "        The SVGs should be simple visual representations for preview purposes.\n"
    + "        If you have the datasheet context, use it."

  /** The prompt `startGeneration` sends (app.js lines 374-384, indentation included). */
  function GenerationPrompt(software: string, partNumber: string): string {
    "Generate a " + software + " symbol and footprint for " + partNumber + ". \n" + PromptInstructions
  }

  /** `startGeneration` up to its await: the busy guard, the validation gate, then busy. */
  function Begin(s: SessionState, partNumber: string, software: string): (r: (StartResult, SessionState))
    ensures s.generating ==> r == (AlreadyGenerating, s)
    ensures !s.generating && (partNumber == [] || software == []) ==> r == (MissingInput, s)
    ensures r.0.Submitted? <==> !s.generating && partNumber != [] && software != []
    ensures r.0.Submitted? ==>
      && r.0.request == Request(GenerationPrompt(software, partNumber), s.currentFile)
      && r.1 == s.(generating := true)
    ensures PaneMirrorsCache(s) ==> PaneMirrorsCache(r.1)
  {
    if s.generating then (AlreadyGenerating, s)
    else if partNumber == [] || software == [] then (MissingInput, s)
    else (Submitted(Request(GenerationPrompt(software, partNumber), s.currentFile)), s.(generating := true))
  }

  /** `renderPreview(kind, svg)`: cache the SVG; show it at once if its tab is the active one. */
  function WithPreview(s: SessionState, kind: Kind, svg: string): (r: SessionState)
    ensures kind in r.previews && r.previews[kind] == svg
    ensures forall k :: k != kind ==> (k in r.previews <==> k in s.previews)
    ensures forall k :: k != kind && k in s.previews ==> r.previews[k] == s.previews[k]
    ensures r.pane == (if s.activeTab == kind then ShowsPreview(svg) else s.pane)
    ensures r.(previews := s.previews, pane := s.pane) == s
    ensures PaneMirrorsCache(s) ==> PaneMirrorsCache(r)
  {
    var previews := s.previews[kind := svg];
    s.(previews := previews, pane := if s.activeTab == kind then ShowsPreview(svg) else s.pane)
  }

  /** The tab-click handler: activate the tab and show its cached SVG, or the placeholder. */
  function WithTab(s: SessionState, kind: Kind): (r: SessionState)
    ensures r.activeTab == kind
    ensures Cached(s.previews, kind) ==> r.pane == ShowsPreview(s.previews[kind])
    ensures !Cached(s.previews, kind) ==> r.pane == Placeholder(kind)
    ensures r.(activeTab := s.activeTab, pane := s.pane) == s
    ensures PaneMirrorsCache(r)
  {
    s.(activeTab := kind, pane := if Cached(s.previews, kind) then ShowsPreview(s.previews[kind]) else Placeholder(kind))
  }

  /** How the awaited result is read: the API error, no `{…}` span, a JSON.parse error, or data. */
  function Interpret(reply: Result<string, ClientError>, parse: string -> Option<Artifact>): (o: Outcome)
    ensures reply.Failure? ==> o == RequestFailed(reply.error)
    ensures o.RequestFailed? <==> reply.Failure?
    ensures reply.Success? && BraceSpan(reply.value).Some? && parse(BraceSpan(reply.value).value).Some? ==>
      o == Generated(parse(BraceSpan(reply.value).value).value)
    ensures reply.Success? ==> (o == NoJsonFound <==> !HasBracePair(reply.value))
    ensures reply == Success([]) ==> o == NoJsonFound
    ensures o.Generated? ==>
      && reply.Success? && BraceSpan(reply.value).Some?
      && parse(BraceSpan(reply.value).value) == Some(o.artifact)
    ensures o == JsonSyntaxError ==>
      reply.Success? && BraceSpan(reply.value).Some? && parse(BraceSpan(reply.value).value).None?
  {
    match reply
    case Failure(e) => RequestFailed(e)
    case Success(text) =>
      match Extract(text, parse)
      case Extracted(a) => Generated(a)
      case NoJsonObject => NoJsonFound
      case MalformedJson => JsonSyntaxError
  }

  /** After a successful attempt, cache slot `kind` holds the routed SVG, or what it held before. */
  predicate Routed(before: SessionState, after: SessionState, kind: Kind, svg: Option<string>) {
    if Truthy(svg) then kind in after.previews && after.previews[kind] == svg.value
    else (kind in after.previews <==> kind in before.previews) &&
         (kind in before.previews ==> after.previews[kind] == before.previews[kind])
  }

  /**
   * `startGeneration` after its await: route truthy SVGs to the previews and enable download on
   * success; on any failure change nothing; in every case the `finally` block clears the busy flag.
   */
  function Complete(s: SessionState, reply: Result<string, ClientError>, parse: string -> Option<Artifact>)
    : (r: (Outcome, SessionState))
    requires s.generating
    ensures r.0 == Interpret(reply, parse)
    ensures !r.1.generating
    ensures !r.0.Generated? ==> r.1 == s.(generating := false)
    ensures r.0.Generated? ==>
      && r.1.downloadEnabled && r.1.currentFile == s.currentFile && r.1.activeTab == s.activeTab
      && Routed(s, r.1, Symbol, r.0.artifact.symbolSvg)
      && Routed(s, r.1, Footprint, r.0.artifact.footprintSvg)
    ensures r.0.Generated? ==>
      var svg := SvgFor(r.0.artifact, s.activeTab);
      r.1.pane == (if Truthy(svg) then ShowsPreview(svg.value) else s.pane)
    ensures PaneMirrorsCache(s) ==> PaneMirrorsCache(r.1)
  {
    var o := Interpret(reply, parse);
    if o.Generated? then
      var a := o.artifact;
      var s1 := if Truthy(a.symbolSvg) then WithPreview(s, Symbol, a.symbolSvg.value) else s;
      var s2 := if Truthy(a.footprintSvg) then WithPreview(s1, Footprint, a.footprintSvg.value) else s1;
      (o, s2.(downloadEnabled := true, generating := false))
    else
      (o, s.(generating := false))
  }

  /** `handleFileUpload(file)`: only a PDF passes the gate; only a successful read replaces the file. */
  function WithUpload(s: SessionState, file: Option<BrowserFile>, read: ReadOutcome): (r: (UploadResult, SessionState))
    requires read.Loaded? ==> ',' in read.dataUrl
    ensures r.0 == NotPdf <==> file.None? || file.value.mimeType != PdfMimeType
    ensures r.0 == ReadError <==> file.Some? && file.value.mimeType == PdfMimeType && read.ReadFailed?
    ensures r.0 != Uploaded ==> r.1 == s
    ensures r.0 == Uploaded ==>
      && r.1 == s.(currentFile := Some(FileToBase64(file.value, read.dataUrl)))
      && r.1.currentFile.value.mimeType == PdfMimeType
  {
    if file.None? || file.value.mimeType != PdfMimeType then (NotPdf, s)
    else match read
      case ReadFailed => (ReadError, s)
      case Loaded(url) => (Uploaded, s.(currentFile := Some(FileToBase64(file.value, url))))
  }

  class Session {
    var generating: bool
    var currentFile: Option<FileData>
    var previews: map<Kind, string>
    var activeTab: Kind
    var pane: Pane
    var downloadEnabled: bool

    function State(): SessionState
      reads this
    {
      SessionState(generating, currentFile, previews, activeTab, pane, downloadEnabled)
    }

    ghost predicate Valid()
      reads this
    {
      PaneMirrorsCache(State())
    }

    /** Page load, with `initialTab` the tab the markup marks active. */
    constructor (initialTab: Kind)
      ensures Valid() && State() == InitialSession(initialTab)
    {
      generating := false;
      currentFile := None;
      previews := map[];
      activeTab := initialTab;
      pane := Initial;
      downloadEnabled := false;
    }

    /** `startGeneration()` up to `await geminiClient.generateContent(prompt, currentFile)`. */
    method StartGeneration(partNumber: string, software: string) returns (result: StartResult)
      requires Valid()
      modifies this
      ensures Valid()
      ensures (result, State()) == Begin(old(State()), partNumber, software)
    {
      if generating {
        return AlreadyGenerating;
      }
      if partNumber == [] || software == [] {
        return MissingInput;
      }
      generating := true;
      result := Submitted(Request(GenerationPrompt(software, partNumber), currentFile));
    }

    /** The rest of `startGeneration()`, given what the awaited call resolved or rejected with. */
    method FinishGeneration(reply: Result<string, ClientError>, parse: string -> Option<Artifact>)
      returns (outcome: Outcome)
      requires Valid() && generating
      modifies this
      ensures Valid()
      ensures (outcome, State()) == Complete(old(State()), reply, parse)
    {
      outcome := Interpret(reply, parse);
      if outcome.Generated? {
        var a := outcome.artifact;
        if Truthy(a.symbolSvg) {
          RenderPreview(Symbol, a.symbolSvg.value);
        }
        if Truthy(a.footprintSvg) {
          RenderPreview(Footprint, a.footprintSvg.value);
        }
        downloadEnabled := true;
      }
      generating := false;
    }

    /** `renderPreview(type, svgContent)` */
    method RenderPreview(kind: Kind, svg: string)
      requires Valid()
      modifies this
      ensures Valid()
      ensures State() == WithPreview(old(State()), kind, svg)
    {
      previews := previews[kind := svg];
      if activeTab == kind {
        pane := ShowsPreview(svg);
      }
    }

    /** The document click handler, for a click on the tab button of `kind`. */
    method SelectTab(kind: Kind)
      modifies this
      ensures Valid()
      ensures State() == WithTab(old(State()), kind)
    {
      activeTab := kind;
      if kind in previews && previews[kind] != [] {
        pane := ShowsPreview(previews[kind]);
      } else {
        pane := Placeholder(kind);
      }
    }

    /** `handleFileUpload(file)`, with `read` what the awaited `fileToBase64` reader produced. */
    method HandleFileUpload(file: Option<BrowserFile>, read: ReadOutcome) returns (result: UploadResult)
      requires read.Loaded? ==> ',' in read.dataUrl
      requires Valid()
      modifies this
      ensures Valid()
      ensures (result, State()) == WithUpload(old(State()), file, read)
    {
      if file.None? || file.value.mimeType != PdfMimeType {
        return NotPdf;
      }
      if read.ReadFailed? {
        return ReadError;
      }
      currentFile := Some(FileToBase64(file.value, read.dataUrl));
      result := Uploaded;
    }

    /** The remove-file button: forget the attachment. */
    method RemoveFile()
      modifies this`currentFile
      ensures currentFile == None
    {
      currentFile := None;
    }

    /**
     * `sendMessage()` up to its await: the request it hands to `generateContent`, or None when
     * it returns early. `input` is the chat box's raw value, `partNumber` the part-number field's.
     */
    method SendMessage(input: string, partNumber: string) returns (request: Option<Request>)
      ensures request.None? <==> AllWhitespace(input) && currentFile.None?
      ensures request.Some? ==> request.value.file == currentFile
      ensures request.Some? && partNumber == [] ==> request.value.prompt == Trim(input)
      ensures request.Some? && partNumber != [] ==>
        request.value.prompt == "Context: Component is " + partNumber + ". " + Trim(input)
    {
      var text := Trim(input);
      if text == [] && currentFile.None? {
        return None;
      }
      var prompt := text;
      if partNumber != [] {
        prompt := "Context: Component is " + partNumber + ". " + prompt;
      }
      request := Some(Request(prompt, currentFile));
    }
  }

  // ---------------------------------------------------------------- properties across steps

  /** While an attempt is outstanding, a second click on Generate is a no-op. */
  lemma SecondStartRefused(s: SessionState, partNumber: string, software: string, partNumber': string, software': string)
    requires Begin(s, partNumber, software).0.Submitted?
    ensures var busy := Begin(s, partNumber, software).1;
      Begin(busy, partNumber', software') == (AlreadyGenerating, busy)
  {
  }

  /**
   * A failed attempt leaves the page as it found it: Generate followed by any failure returns
   * exactly the state before the click, idle again.
   */
  lemma FailedAttemptRestoresState(s: SessionState, partNumber: string, software: string,
                                   reply: Result<string, ClientError>, parse: string -> Option<Artifact>)
    requires Begin(s, partNumber, software).0.Submitted?
    ensures var r := Complete(Begin(s, partNumber, software).1, reply, parse);
      !r.0.Generated? ==> r.1 == s
  {
  }

  /** Rendering the same SVG twice is rendering it once. */
  lemma RenderPreviewIdempotent(s: SessionState, kind: Kind, svg: string)
    ensures WithPreview(WithPreview(s, kind, svg), kind, svg) == WithPreview(s, kind, svg)
  {
  }

  /** After rendering a non-empty SVG, switching to its tab shows it without a new request. */
  lemma TabShowsRenderedPreview(s: SessionState, kind: Kind, svg: string, other: Kind)
    requires svg != []
    ensures WithTab(WithPreview(s, kind, svg), kind).pane == ShowsPreview(svg)
    ensures other != kind ==>
      WithTab(WithTab(WithPreview(s, kind, svg), other), kind).pane == ShowsPreview(svg)
  {
  }

  /**
   * The end-to-end generation example: the model answers with prose around one JSON object whose
   * SVG fields parse to `svg`; both previews are filled, the active pane shows it, download is on.
   */
  lemma GenerationScenario(tab: Kind, body: string, svg: string, parse: string -> Option<Artifact>)
    requires svg != []
    requires parse("{" + body + "}") == Some(Artifact(Some(svg), Some(svg)))
    ensures var (started, busy) := Begin(InitialSession(tab), "LM358", "KiCad");
      && started == Submitted(Request(GenerationPrompt("KiCad", "LM358"), None))
      && var (outcome, done) := Complete(busy, Success("noise " + "{" + body + "}" + " trailing"), parse);
      && outcome == Generated(Artifact(Some(svg), Some(svg)))
      && done.previews == map[Symbol := svg, Footprint := svg]
      && done.pane == ShowsPreview(svg)
      && done.downloadEnabled && !done.generating
  {
    SpanOfEmbeddedObject("noise ", body, " trailing");
  }
}
