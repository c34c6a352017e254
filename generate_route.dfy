/** The generation endpoint (app/api/generate/route.ts): request validation,
    the gathering of website, competitor and document text, the streamed
    model call with its progress events, the extraction of the JSON answer
    and its stamping. The model service, the reader service, the document
    extractors, `JSON.parse` and the clock are parameters. */
module GenerateRoute {
  import opened Wrappers
  import opened Strings
  import opened Json
  import opened Types
  import opened WebsiteFetcher
  import opened FileProcessors
  import opened PersonaPrompt

  // ---------------------------------------------------------------------
  // Validation
  // ---------------------------------------------------------------------

  /** A thrown value: an `Error` with its message, or anything else. */
  datatype Thrown = ErrorValue(message: string) | OtherValue

  /** `error instanceof Error ? error.message : fallback` */
  function MessageOf(t: Thrown, fallback: string): (m: string)
    ensures t.ErrorValue? ==> m == t.message
    ensures t.OtherValue? ==> m == fallback
  {
    match t
    case ErrorValue(message) => message
    case OtherValue => fallback
  }

  /** What `formData.get("formData")` returns: nothing, a text field or a file. */
  datatype FormEntry = Absent | TextEntry(text: string) | FileEntry(file: Upload)

  /** The multipart body as far as the route reads it. */
  datatype Submission = Submission(formData: FormEntry, files: seq<Upload>)

  /** The verdict on a request before any streaming starts. */
  datatype Validation = Reject(status: nat, error: string) | Accept(data: PersonaFormData)

  const MissingKey: string := "ANTHROPIC_API_KEY not configured"
  const MissingFormData: string := "Missing form data"
  const MissingFields: string := "Missing required fields"
  const RequestFailed: string := "Request failed"

  /** The checks of the handler before the stream is built, in their order:
      the model key (an empty key counts as none), the multipart body (a
      failure to read it is a 500 with its message), the `formData` text
      field (missing, empty or a file), its decoding (a failure is a 500
      with its message), and the two required fields. */
  function ValidateRequest(apiKey: string, body: Result<Submission, Thrown>,
                           decode: string -> Result<PersonaFormData, Thrown>): (r: Validation)
    ensures apiKey == "" ==> r == Reject(500, MissingKey)
    ensures apiKey != "" && body.Err? ==> r == Reject(500, MessageOf(body.error, RequestFailed))
    ensures apiKey != "" && body.Ok? && !HasFormText(body.value) ==> r == Reject(400, MissingFormData)
    ensures apiKey != "" && body.Ok? && HasFormText(body.value) && decode(body.value.formData.text).Err?
            ==> r == Reject(500, MessageOf(decode(body.value.formData.text).error, RequestFailed))
    ensures r.Accept? <==>
            && apiKey != "" && body.Ok? && HasFormText(body.value)
            && decode(body.value.formData.text).Ok?
            && decode(body.value.formData.text).value.productName != ""
            && decode(body.value.formData.text).value.targetAudience != ""
    ensures r.Accept? ==> r.data == decode(body.value.formData.text).value
    ensures r.Reject? ==> r.status == 400 || r.status == 500
  {
    if apiKey == "" then Reject(500, MissingKey)
    else match body
      case Err(t) => Reject(500, MessageOf(t, RequestFailed))
      case Ok(s) =>
        if !HasFormText(s) then Reject(400, MissingFormData)
        else match decode(s.formData.text)
          case Err(t) => Reject(500, MessageOf(t, RequestFailed))
          case Ok(d) =>
            if d.productName == "" || d.targetAudience == "" then Reject(400, MissingFields)
            else Accept(d)
  }

  /** `formDataJson` is a non-empty string. */
  predicate HasFormText(s: Submission) {
    s.formData.TextEntry? && s.formData.text != ""
  }

  /** A request that passes the first checks but lacks the product name or
      the audience is refused with 400, whatever the other fields hold. */
  lemma RequiredFieldsRejected(apiKey: string, body: Result<Submission, Thrown>,
                               decode: string -> Result<PersonaFormData, Thrown>)
    requires apiKey != "" && body.Ok? && HasFormText(body.value)
    requires decode(body.value.formData.text).Ok?
    requires decode(body.value.formData.text).value.productName == ""
          || decode(body.value.formData.text).value.targetAudience == ""
    ensures ValidateRequest(apiKey, body, decode) == Reject(400, MissingFields)
  {
  }

  // ---------------------------------------------------------------------
  // Prompt material
  // ---------------------------------------------------------------------

  /** The note used when the primary site could not be read. */
  function UnfetchedNote(url: string): (r: string)
    ensures StartsWith(r, "Website URL: " + url)
  {
    "Website URL: " + url + "\n(Content could not be fetched automatically)"
  }

  /** The primary website's part of the prompt: nothing without a URL, the
      page summary when the fetch succeeds, otherwise a note naming the URL. */
  function WebsiteSection(url: string, readerKey: string, transport: Transport): (r: string)
    ensures url == "" ==> r == ""
    ensures url != "" && FetchWebsiteContent(url, readerKey, transport).Ok?
            ==> r == SummarizeWebsiteContent(FetchWebsiteContent(url, readerKey, transport).value)
    ensures url != "" && FetchWebsiteContent(url, readerKey, transport).Err? ==> r == UnfetchedNote(url)
    ensures url != "" ==> r != ""
  {
    if url == "" then ""
    else match FetchWebsiteContent(url, readerKey, transport)
      case Ok(site) => SiteSummaryNonEmpty(site); SummarizeWebsiteContent(site)
      case Err(_) => UnfetchedNote(url)
  }

  /** A summary is never empty: it starts with its heading line. */
  lemma SiteSummaryNonEmpty(w: WebsiteContent)
    ensures SummarizeWebsiteContent(w) != ""
  {
    SummaryShape(w);
    assert |SummaryLead(w)| > 0;
  }

  const CompetitorSeparator: string := "\n\n---\n\n"

  function Summaries(sites: seq<WebsiteContent>): (r: seq<string>)
    ensures |r| == |sites|
    ensures forall i :: 0 <= i < |sites| ==> r[i] == SummarizeWebsiteContent(sites[i])
  {
    seq(|sites|, i requires 0 <= i < |sites| => SummarizeWebsiteContent(sites[i]))
  }

  /** The competitors' part: the summaries of the sites that could be read,
      in the order given, separated by a rule. */
  function CompetitorSection(urls: seq<string>, readerKey: string, transport: Transport): string {
    if |urls| > 0 then Join(Summaries(FetchMultipleWebsites(urls, readerKey, transport)), CompetitorSeparator)
    else ""
  }

  /** One more competitor URL adds its summary after a separator when it
      can be read (and something came before), and changes nothing when it
      cannot. */
  lemma CompetitorSectionSnoc(urls: seq<string>, u: string, readerKey: string, transport: Transport)
    ensures FetchWebsiteContent(u, readerKey, transport).Err? ==>
      CompetitorSection(urls + [u], readerKey, transport) == CompetitorSection(urls, readerKey, transport)
    ensures FetchWebsiteContent(u, readerKey, transport).Ok? && CompetitorSection(urls, readerKey, transport) != "" ==>
      CompetitorSection(urls + [u], readerKey, transport)
        == CompetitorSection(urls, readerKey, transport) + CompetitorSeparator
           + SummarizeWebsiteContent(FetchWebsiteContent(u, readerKey, transport).value)
    ensures FetchWebsiteContent(u, readerKey, transport).Ok? && CompetitorSection(urls, readerKey, transport) == "" ==>
      CompetitorSection(urls + [u], readerKey, transport)
        == SummarizeWebsiteContent(FetchWebsiteContent(u, readerKey, transport).value)
  {
    FetchMultipleAppend(urls, [u], readerKey, transport);
    assert FetchEach([u], readerKey, transport) == [FetchWebsiteContent(u, readerKey, transport)];
    if FetchWebsiteContent(u, readerKey, transport).Err? {
      SkippedCompetitor(urls, u, readerKey, transport);
    } else if CompetitorSection(urls, readerKey, transport) != "" {
      AddedCompetitor(urls, u, readerKey, transport);
    } else {
      FirstCompetitor(urls, u, readerKey, transport);
    }
  }

  /** After only failures (or no URL) the section is empty, so the first
      readable site comes without a separator. */
  lemma FirstCompetitor(urls: seq<string>, u: string, readerKey: string, transport: Transport)
    requires FetchMultipleWebsites(urls + [u], readerKey, transport)
          == FetchMultipleWebsites(urls, readerKey, transport) + FetchMultipleWebsites([u], readerKey, transport)
    requires FetchEach([u], readerKey, transport) == [FetchWebsiteContent(u, readerKey, transport)]
    requires FetchWebsiteContent(u, readerKey, transport).Ok?
    requires CompetitorSection(urls, readerKey, transport) == ""
    ensures CompetitorSection(urls + [u], readerKey, transport)
         == SummarizeWebsiteContent(FetchWebsiteContent(u, readerKey, transport).value)
  {
    var before := FetchMultipleWebsites(urls, readerKey, transport);
    var w := FetchWebsiteContent(u, readerKey, transport).value;
    SingleFetch(u, readerKey, transport);
    if |urls| > 0 {
      NoSummaryJoinsEmpty(before);
    }
    assert before == [];
    assert before + [w] == [w];
    assert Summaries([w]) == [SummarizeWebsiteContent(w)];
  }

  /** Joining at least one summary never gives the empty text. */
  lemma NoSummaryJoinsEmpty(sites: seq<WebsiteContent>)
    ensures Join(Summaries(sites), CompetitorSeparator) == "" ==> sites == []
  {
    if sites != [] {
      var parts := Summaries(sites);
      SiteSummaryNonEmpty(sites[0]);
      assert |Join(parts, CompetitorSeparator)| >= |parts[0]|;
    }
  }

  lemma SkippedCompetitor(urls: seq<string>, u: string, readerKey: string, transport: Transport)
    requires FetchMultipleWebsites(urls + [u], readerKey, transport)
          == FetchMultipleWebsites(urls, readerKey, transport) + FetchMultipleWebsites([u], readerKey, transport)
    requires FetchEach([u], readerKey, transport) == [FetchWebsiteContent(u, readerKey, transport)]
    requires FetchWebsiteContent(u, readerKey, transport).Err?
    ensures CompetitorSection(urls + [u], readerKey, transport) == CompetitorSection(urls, readerKey, transport)
  {
    var before := FetchMultipleWebsites(urls, readerKey, transport);
    assert FetchMultipleWebsites([u], readerKey, transport) == [];
    assert before + [] == before;
    if |urls| == 0 {
      assert before == [];
    }
  }

  lemma AddedCompetitor(urls: seq<string>, u: string, readerKey: string, transport: Transport)
    requires FetchMultipleWebsites(urls + [u], readerKey, transport)
          == FetchMultipleWebsites(urls, readerKey, transport) + FetchMultipleWebsites([u], readerKey, transport)
    requires FetchEach([u], readerKey, transport) == [FetchWebsiteContent(u, readerKey, transport)]
    requires FetchWebsiteContent(u, readerKey, transport).Ok?
    requires CompetitorSection(urls, readerKey, transport) != ""
    ensures CompetitorSection(urls + [u], readerKey, transport)
         == CompetitorSection(urls, readerKey, transport) + CompetitorSeparator
            + SummarizeWebsiteContent(FetchWebsiteContent(u, readerKey, transport).value)
  {
    var before := FetchMultipleWebsites(urls, readerKey, transport);
    var w := FetchWebsiteContent(u, readerKey, transport).value;
    SingleFetch(u, readerKey, transport);
    assert |urls| > 0;
    SummariesSnoc(before, w);
    JoinSnoc(Summaries(before), SummarizeWebsiteContent(w), CompetitorSeparator);
  }

  lemma SingleFetch(u: string, readerKey: string, transport: Transport)
    requires FetchEach([u], readerKey, transport) == [FetchWebsiteContent(u, readerKey, transport)]
    requires FetchWebsiteContent(u, readerKey, transport).Ok?
    ensures FetchMultipleWebsites([u], readerKey, transport) == [FetchWebsiteContent(u, readerKey, transport).value]
  {
    var rs := FetchEach([u], readerKey, transport);
    assert rs[1..] == [];
  }

  lemma SummariesSnoc(sites: seq<WebsiteContent>, w: WebsiteContent)
    ensures Summaries(sites + [w]) == Summaries(sites) + [SummarizeWebsiteContent(w)]
  {
  }

  /** The documents' part: the processed uploads formatted for the prompt;
      uploads that fail to process are skipped. */
  function FileSection(uploads: seq<Upload>, pdfText: Extractor, docxText: Extractor): (r: string)
    ensures r == FormatFilesForPrompt(ProcessFiles(uploads, pdfText, docxText))
  {
    if |uploads| > 0 then FormatFilesForPrompt(ProcessFiles(uploads, pdfText, docxText)) else ""
  }

  /** The material the prompt is built from for an accepted request. */
  function ContextFor(f: PersonaFormData, readerKey: string, transport: Transport,
                      uploads: seq<Upload>, pdfText: Extractor, docxText: Extractor): PromptContext
  {
    PromptContext(
      f,
      WebsiteSection(f.websiteUrl, readerKey, transport),
      CompetitorSection(f.competitorUrls, readerKey, transport),
      FileSection(uploads, pdfText, docxText))
  }

  // ---------------------------------------------------------------------
  // Events
  // ---------------------------------------------------------------------

  /** The payloads sent as `data: <json>` server-sent events. */
  datatype Event =
    | Progress(step: string, progress: real)
    | Content(data: string)
    | Complete(result: Json)
    | Error(message: string)

  predicate Terminal(e: Event) {
    e.Complete? || e.Error?
  }

  /** An event of the model's stream: a text delta or anything else. */
  datatype StreamEvent = TextDelta(text: string) | OtherEvent

  /** What the model call yields: the events received, and the value thrown
      by the stream if it broke off after them. */
  datatype ModelRun = ModelRun(events: seq<StreamEvent>, failure: Option<Thrown>)

  type Model = string -> ModelRun

  const GenerationFailed: string := "Generation failed"

  /** `Math.min(95, 50 + (length / 20000) * 45)` */
  function Estimate(length: nat): (r: real)
    ensures 50.0 <= r <= 95.0
    ensures length >= 20000 ==> r == 95.0
  {
    var e := 50.0 + (length as real / 20000.0) * 45.0;
    if e < 95.0 then e else 95.0
  }

  /** A longer response never shows less progress. */
  lemma EstimateMonotone(a: nat, b: nat)
    requires a <= b
    ensures Estimate(a) <= Estimate(b)
  {
  }

  function TextOf(e: StreamEvent): string {
    match e
    case TextDelta(t) => t
    case OtherEvent => ""
  }

  /** `fullResponse` after the given stream events. */
  function Deltas(es: seq<StreamEvent>): string
    decreases |es|
  {
    if |es| == 0 then "" else Deltas(es[..|es| - 1]) + TextOf(es[|es| - 1])
  }

  /** The events sent for one stream event, `sofar` being the response text
      including this event's delta. */
  function EventsFor(e: StreamEvent, sofar: string): (r: seq<Event>)
    ensures e.OtherEvent? ==> r == []
    ensures e.TextDelta? ==> r == [Content(e.text), Progress("generating", Estimate(|sofar|))]
  {
    match e
    case TextDelta(t) => [Content(t), Progress("generating", Estimate(|sofar|))]
    case OtherEvent => []
  }

  /** The events sent while the stream is read. */
  function DeltaEvents(es: seq<StreamEvent>): seq<Event>
    decreases |es|
  {
    if |es| == 0 then [] else DeltaEvents(es[..|es| - 1]) + EventsFor(es[|es| - 1], Deltas(es))
  }

  /** The checkpoints of the four gathering steps. */
  const Checkpoints: seq<Event> := [
    Progress("fetching", 10.0), Progress("fetching", 25.0),
    Progress("analyzing", 35.0), Progress("analyzing", 45.0)]

  /** The last event once the whole response is in: the stamped result, or
      the message of whichever step failed. */
  function Finish(text: string, parse: string -> Option<Json>, productName: string, now: string): (e: Event)
    ensures Terminal(e)
    ensures e.Complete? <==> Extract(text, parse).Ok? && Stamp(Extract(text, parse).value, productName, now).Ok?
    ensures e.Complete? ==> e.result == Stamp(Extract(text, parse).value, productName, now).value
  {
    match Extract(text, parse)
    case Err(m) => Error(m)
    case Ok(j) =>
      match Stamp(j, productName, now)
      case Ok(s) => Complete(s)
      case Err(m) => Error(m)
  }

  /** What follows the streamed events: the error if the stream broke off,
      otherwise the formatting checkpoint and the final event. */
  function Outcome(run: ModelRun, parse: string -> Option<Json>, productName: string, now: string): (r: seq<Event>)
    ensures |r| >= 1 && Terminal(r[|r| - 1])
    ensures forall i :: 0 <= i < |r| - 1 ==> r[i] == Progress("formatting", 95.0)
    ensures run.failure.Some? ==> r == [Error(MessageOf(run.failure.value, GenerationFailed))]
  {
    if run.failure.Some? then [Error(MessageOf(run.failure.value, GenerationFailed))]
    else [Progress("formatting", 95.0), Finish(Deltas(run.events), parse, productName, now)]
  }

  /** Every event the stream of an accepted request carries. */
  function StreamEvents(f: PersonaFormData, readerKey: string, transport: Transport,
                        uploads: seq<Upload>, pdfText: Extractor, docxText: Extractor,
                        model: Model, parse: string -> Option<Json>, now: string): seq<Event>
  {
    var run := model(BuildPersonaPrompt(ContextFor(f, readerKey, transport, uploads, pdfText, docxText)));
    Trace(run, parse, f.productName, now)
  }

  function Trace(run: ModelRun, parse: string -> Option<Json>, productName: string, now: string): seq<Event> {
    Checkpoints + Generation(run, parse, productName, now)
  }

  /** The events from the "generating" checkpoint on. */
  function Generation(run: ModelRun, parse: string -> Option<Json>, productName: string, now: string): seq<Event> {
    [Progress("generating", 50.0)] + DeltaEvents(run.events) + Outcome(run, parse, productName, now)
  }

  // ---------------------------------------------------------------------
  // Properties of the event stream
  // ---------------------------------------------------------------------

  predicate NoTerminal(evs: seq<Event>) {
    forall i :: 0 <= i < |evs| ==> !Terminal(evs[i])
  }

  predicate ProgressSorted(evs: seq<Event>) {
    forall i, j :: 0 <= i < j < |evs| && evs[i].Progress? && evs[j].Progress? ==> evs[i].progress <= evs[j].progress
  }

  predicate ProgressWithin(evs: seq<Event>, lo: real, hi: real) {
    forall i :: 0 <= i < |evs| && evs[i].Progress? ==> lo <= evs[i].progress <= hi
  }

  lemma SortedJoin(a: seq<Event>, b: seq<Event>, lo: real, mid: real, hi: real)
    requires lo <= mid <= hi
    requires ProgressSorted(a) && ProgressSorted(b)
    requires ProgressWithin(a, lo, mid) && ProgressWithin(b, mid, hi)
    ensures ProgressSorted(a + b) && ProgressWithin(a + b, lo, hi)
  {
    var ab := a + b;
    forall i, j | 0 <= i < j < |ab| && ab[i].Progress? && ab[j].Progress?
      ensures ab[i].progress <= ab[j].progress
    {
      if j < |a| {
        assert ab[i] == a[i] && ab[j] == a[j];
      } else if i >= |a| {
        assert ab[i] == b[i - |a|] && ab[j] == b[j - |a|];
      } else {
        assert ab[i] == a[i] && ab[j] == b[j - |a|];
      }
    }
    forall i | 0 <= i < |ab| && ab[i].Progress?
      ensures lo <= ab[i].progress <= hi
    {
      if i < |a| {
        assert ab[i] == a[i];
      } else {
        assert ab[i] == b[i - |a|];
      }
    }
  }

  lemma NoTerminalJoin(a: seq<Event>, b: seq<Event>)
    requires NoTerminal(a) && NoTerminal(b)
    ensures NoTerminal(a + b)
  {
    var ab := a + b;
    forall i | 0 <= i < |ab|
      ensures !Terminal(ab[i])
    {
      if i < |a| {
        assert ab[i] == a[i];
      } else {
        assert ab[i] == b[i - |a|];
      }
    }
  }

  lemma {:induction false} DeltasPrefixLength(es: seq<StreamEvent>)
    requires |es| > 0
    ensures |Deltas(es[..|es| - 1])| <= |Deltas(es)|
  {
  }

  /** The streamed part holds content and "generating" checkpoints only,
      their progress never decreases, and it stays between 50 and the
      estimate for the text received so far. */
  lemma {:induction false} DeltaEventsShape(es: seq<StreamEvent>)
    ensures NoTerminal(DeltaEvents(es))
    ensures ProgressSorted(DeltaEvents(es))
    ensures ProgressWithin(DeltaEvents(es), 50.0, Estimate(|Deltas(es)|))
  {
    if |es| > 0 {
      var init := es[..|es| - 1];
      var tail := EventsFor(es[|es| - 1], Deltas(es));
      DeltaEventsShape(init);
      DeltasPrefixLength(es);
      EstimateMonotone(|Deltas(init)|, |Deltas(es)|);
      assert ProgressSorted(tail);
      assert ProgressWithin(tail, Estimate(|Deltas(init)|), Estimate(|Deltas(es)|));
      assert NoTerminal(tail);
      SortedJoin(DeltaEvents(init), tail, 50.0, Estimate(|Deltas(init)|), Estimate(|Deltas(es)|));
      NoTerminalJoin(DeltaEvents(init), tail);
    }
  }

  /** One terminal event, the last; progress in order and within bounds. */
  predicate WellFormed(evs: seq<Event>, lo: real, hi: real) {
    && |evs| >= 1
    && Terminal(evs[|evs| - 1])
    && NoTerminal(evs[..|evs| - 1])
    && ProgressSorted(evs)
    && ProgressWithin(evs, lo, hi)
  }

  lemma PrefixJoin(a: seq<Event>, b: seq<Event>, lo: real, mid: real, hi: real)
    requires lo <= mid <= hi
    requires NoTerminal(a) && ProgressSorted(a) && ProgressWithin(a, lo, mid)
    requires WellFormed(b, mid, hi)
    ensures WellFormed(a + b, lo, hi)
  {
    SortedJoin(a, b, lo, mid, hi);
    NoTerminalJoin(a, b[..|b| - 1]);
    assert (a + b)[..|a + b| - 1] == a + b[..|b| - 1];
    assert (a + b)[|a + b| - 1] == b[|b| - 1];
  }

  lemma OutcomeShape(run: ModelRun, parse: string -> Option<Json>, productName: string, now: string)
    ensures WellFormed(Outcome(run, parse, productName, now), 95.0, 95.0)
  {
    var o := Outcome(run, parse, productName, now);
    assert NoTerminal(o[..|o| - 1]);
  }

  /** From the "generating" checkpoint on: exactly one terminal event, the
      last, and progress from 50 to 95 that never goes back. */
  lemma GenerationShape(run: ModelRun, parse: string -> Option<Json>, productName: string, now: string)
    ensures WellFormed(Generation(run, parse, productName, now), 50.0, 95.0)
  {
    var start := [Progress("generating", 50.0)];
    var d := DeltaEvents(run.events);
    DeltaEventsShape(run.events);
    assert NoTerminal(start) && ProgressSorted(start) && ProgressWithin(start, 50.0, 50.0);
    SortedJoin(start, d, 50.0, 50.0, 95.0);
    NoTerminalJoin(start, d);
    OutcomeShape(run, parse, productName, now);
    PrefixJoin(start + d, Outcome(run, parse, productName, now), 50.0, 95.0, 95.0);
  }

  /** The whole stream: the four gathering checkpoints and the "generating"
      one come first, exactly one terminal event comes last, and progress
      never decreases from 10 to at most 95. */
  lemma TraceShape(run: ModelRun, parse: string -> Option<Json>, productName: string, now: string)
    ensures var t := Trace(run, parse, productName, now);
      && |t| >= 6
      && t[..4] == Checkpoints
      && t[4] == Progress("generating", 50.0)
      && WellFormed(t, 10.0, 95.0)
  {
    var g := Generation(run, parse, productName, now);
    GenerationShape(run, parse, productName, now);
    assert g[0] == Progress("generating", 50.0);
    assert |g| >= 2;
    CheckpointsFirst(g);
  }

  /** The gathering checkpoints put in front of a well-formed generation. */
  lemma CheckpointsFirst(g: seq<Event>)
    requires WellFormed(g, 50.0, 95.0) && |g| >= 2 && g[0] == Progress("generating", 50.0)
    ensures var t := Checkpoints + g;
      && |t| >= 6
      && t[..4] == Checkpoints
      && t[4] == Progress("generating", 50.0)
      && WellFormed(t, 10.0, 95.0)
  {
    assert NoTerminal(Checkpoints) && ProgressSorted(Checkpoints) && ProgressWithin(Checkpoints, 10.0, 50.0);
    PrefixJoin(Checkpoints, g, 10.0, 50.0, 95.0);
    assert (Checkpoints + g)[..4] == Checkpoints;
  }

  /** The text carried by the content events, in order. */
  function ContentText(evs: seq<Event>): string
    decreases |evs|
  {
    if |evs| == 0 then ""
    else ContentText(evs[..|evs| - 1]) + (if evs[|evs| - 1].Content? then evs[|evs| - 1].data else "")
  }

  lemma {:induction false} ContentTextAppend(a: seq<Event>, b: seq<Event>)
    ensures ContentText(a + b) == ContentText(a) + ContentText(b)
    decreases |b|
  {
    if |b| == 0 {
      assert a + b == a;
    } else {
      var b' := b[..|b| - 1];
      var ab := a + b;
      assert ab[..|ab| - 1] == a + b';
      assert ab[|ab| - 1] == b[|b| - 1];
      ContentTextAppend(a, b');
    }
  }

  lemma {:induction false} ContentTextNone(evs: seq<Event>)
    requires forall i :: 0 <= i < |evs| ==> !evs[i].Content?
    ensures ContentText(evs) == ""
    decreases |evs|
  {
    if |evs| > 0 {
      ContentTextNone(evs[..|evs| - 1]);
    }
  }

  /** The content events reassemble exactly the text the model produced. */
  lemma {:induction false} ContentReassembles(es: seq<StreamEvent>)
    ensures ContentText(DeltaEvents(es)) == Deltas(es)
    decreases |es|
  {
    if |es| > 0 {
      var init := es[..|es| - 1];
      var tail := EventsFor(es[|es| - 1], Deltas(es));
      ContentReassembles(init);
      ContentTextAppend(DeltaEvents(init), tail);
      if es[|es| - 1].TextDelta? {
        assert tail[..1] == [tail[0]];
        assert ContentText(tail) == ContentText(tail[..1]);
        assert ContentText(tail[..1]) == ContentText(tail[..0]) + tail[0].data;
      }
    }
  }

  /** The client can rebuild the whole response from the content events. */
  lemma TraceContent(run: ModelRun, parse: string -> Option<Json>, productName: string, now: string)
    ensures ContentText(Trace(run, parse, productName, now)) == Deltas(run.events)
  {
    var o := Outcome(run, parse, productName, now);
    var start := [Progress("generating", 50.0)];
    ContentReassembles(run.events);
    ContentTextAppend(start, DeltaEvents(run.events));
    ContentTextAppend(start + DeltaEvents(run.events), o);
    ContentTextAppend(Checkpoints, Generation(run, parse, productName, now));
    ContentTextNone(Checkpoints);
    ContentTextNone(start);
    ContentTextNone(o);
  }

  // ---------------------------------------------------------------------
  // Extraction of the JSON answer
  // ---------------------------------------------------------------------

  const Fence: string := "```"

  /** A closing fence, optionally preceded by a newline, starts at `c`. */
  predicate Closes(s: string, c: nat) {
    (c < |s| && s[c] == '\n' && OccursAt(s, Fence, c + 1)) || OccursAt(s, Fence, c)
  }

  /** The lazy capture's end: the first position at or after `c` where the
      closing part of the pattern matches, or -1. */
  function CloseFrom(s: string, c: nat): (r: int)
    ensures r == -1 || (c <= r < |s| && Closes(s, r))
    ensures r == -1 ==> forall k: nat :: c <= k ==> !Closes(s, k)
    ensures r >= 0 ==> forall k: nat :: c <= k < r ==> !Closes(s, k)
    decreases |s| - c
  {
    if c + 3 > |s| then -1
    else if Closes(s, c) then c
    else CloseFrom(s, c + 1)
  }

  /** Where the capture starts for an opening fence at `k`, trying the
      pattern's optional "json" and newline in backtracking order (present
      before absent), and keeping the first choice that can be closed. */
  function CaptureStart(s: string, k: nat): (r: Option<nat>)
    ensures r.Some? ==> k + 3 <= r.value && CloseFrom(s, r.value) >= 0
    ensures r.None? <==> CloseFrom(s, k + 3) == -1
  {
    var a := k + 3;
    var json := OccursAt(s, "json", a);
    if json && OccursAt(s, "\n", a + 4) && CloseFrom(s, a + 5) >= 0 then Some(a + 5)
    else if json && CloseFrom(s, a + 4) >= 0 then Some(a + 4)
    else if OccursAt(s, "\n", a) && CloseFrom(s, a + 1) >= 0 then Some(a + 1)
    else if CloseFrom(s, a) >= 0 then Some(a)
    else None
  }

  /** The capture group of `/```(?:json)?\n?([\s\S]*?)\n?```/`: the match
      starts at the leftmost fence. */
  function FencedBlock(s: string): (r: Option<string>) {
    var k := IndexOfFrom(s, Fence, 0);
    if k < 0 then None
    else match CaptureStart(s, k)
      case None => None
      case Some(p) => Some(s[p..CloseFrom(s, p)])
  }

  /** The pattern matches exactly when the text holds two fences that do
      not overlap; so starting at the leftmost fence loses no match. */
  lemma FencedBlockExists(s: string)
    ensures FencedBlock(s).Some? <==>
      exists i: nat, j: nat :: i + 3 <= j && OccursAt(s, Fence, i) && OccursAt(s, Fence, j)
  {
    var k := IndexOfFrom(s, Fence, 0);
    if FencedBlock(s).Some? {
      var c := CloseFrom(s, k + 3);
      assert c >= 0;
      if OccursAt(s, Fence, c) {
        assert k + 3 <= c && OccursAt(s, Fence, k) && OccursAt(s, Fence, c);
      } else {
        assert k + 3 <= c + 1 && OccursAt(s, Fence, k) && OccursAt(s, Fence, c + 1);
      }
    } else if exists i: nat, j: nat :: i + 3 <= j && OccursAt(s, Fence, i) && OccursAt(s, Fence, j) {
      var i: nat, j: nat :| i + 3 <= j && OccursAt(s, Fence, i) && OccursAt(s, Fence, j);
      assert k >= 0 && k <= i;
      assert Closes(s, j);
      assert false;
    }
  }

  /** The lazy group stops at the first closing fence: the captured text
      holds no fence of its own. */
  lemma FencedBlockHasNoFence(s: string)
    requires FencedBlock(s).Some?
    ensures forall i: nat :: !OccursAt(FencedBlock(s).value, Fence, i)
  {
    var k := IndexOfFrom(s, Fence, 0);
    var p := CaptureStart(s, k).value;
    var c := CloseFrom(s, p);
    assert s[p..c] == FencedBlock(s).value;
    forall i: nat
      ensures !OccursAt(s[p..c], Fence, i)
    {
      if p + i + 3 <= c {
        FenceOutsideSlice(s, p, c, i);
      }
    }
  }

  /** Where no fence starts in `s`, none starts in a slice of it. */
  lemma FenceOutsideSlice(s: string, p: nat, c: nat, i: nat)
    requires p + i + 3 <= c <= |s| && !Closes(s, p + i)
    ensures !OccursAt(s[p..c], Fence, i)
  {
    assert |Fence| == 3;
    var t := s[p..c];
    assert t[i..i + 3] == s[p + i..p + i + 3] by {
      assert t[i] == s[p + i] && t[i + 1] == s[p + i + 1] && t[i + 2] == s[p + i + 2];
    }
  }

  /** `text.slice(text.indexOf('{'), text.lastIndexOf('}') + 1)` when both
      characters occur. */
  function BraceSlice(text: string): (r: Option<string>)
    ensures r.Some? <==> '{' in text && '}' in text
    ensures r.Some? && r.value != "" ==> r.value[0] == '{' && r.value[|r.value| - 1] == '}'
    ensures r.Some? && r.value != "" ==> '{' !in text[..IndexOfChar(text, '{')]
    ensures r.Some? ==>
      var a, b := IndexOfChar(text, '{'), LastIndexOfChar(text, '}');
      && (a <= b ==> r.value == text[a..b + 1] && '}' !in text[b + 1..])
      && (b < a ==> r.value == "")
  {
    var a := IndexOfChar(text, '{');
    var b := LastIndexOfChar(text, '}');
    if a != -1 && b != -1 then
      (if a <= b then
         assert text[a..b + 1][0] == text[a];
         Some(Slice(text, a, b + 1))
       else Some(Slice(text, a, b + 1)))
    else None
  }

  const ParseFailure: string := "Failed to parse generated personas"
  const NoJsonFound: string := "No valid JSON found in response"

  /** The three attempts of the extraction, in order: the trimmed response,
      the trimmed fenced block when the fence pattern matches (its failure
      is final), and the brace-to-brace slice otherwise. */
  function Extract(text: string, parse: string -> Option<Json>): (r: Result<Json, string>)
    ensures parse(Trim(text)).Some? ==> r == Ok(parse(Trim(text)).value)
    ensures r.Err? ==> r.error == ParseFailure || r.error == NoJsonFound
    ensures r == Err(ParseFailure) <==>
      parse(Trim(text)).None? && FencedBlock(text).Some? && parse(Trim(FencedBlock(text).value)).None?
    ensures r.Ok? ==>
      || parse(Trim(text)) == Some(r.value)
      || (FencedBlock(text).Some? && parse(Trim(FencedBlock(text).value)) == Some(r.value))
      || (FencedBlock(text).None? && BraceSlice(text).Some? && parse(BraceSlice(text).value) == Some(r.value))
    ensures parse(Trim(text)).None? && FencedBlock(text).Some? && parse(Trim(FencedBlock(text).value)).Some?
            ==> r == Ok(parse(Trim(FencedBlock(text).value)).value)
    ensures parse(Trim(text)).None? && FencedBlock(text).None? && BraceSlice(text).Some? && parse(BraceSlice(text).value).Some?
            ==> r == Ok(parse(BraceSlice(text).value).value)
    ensures r == Err(NoJsonFound) <==>
      && parse(Trim(text)).None? && FencedBlock(text).None?
      && (BraceSlice(text).None? || parse(BraceSlice(text).value).None?)
  {
    match parse(Trim(text))
    case Some(j) => Ok(j)
    case None =>
      match FencedBlock(text)
      case Some(inner) =>
        (match parse(Trim(inner))
         case Some(j) => Ok(j)
         case None => Err(ParseFailure))
      case None =>
        match BraceSlice(text)
        case None => Err(NoJsonFound)
        case Some(b) =>
          match parse(b)
          case Some(j) => Ok(j)
          case None => Err(NoJsonFound)
  }

  /** Once the fence pattern matches, the brace slice is never consulted:
      two parsers that agree on the first two candidates give the same
      outcome. */
  lemma FenceIsFinal(text: string, p1: string -> Option<Json>, p2: string -> Option<Json>)
    requires FencedBlock(text).Some?
    requires p1(Trim(text)) == p2(Trim(text))
    requires p1(Trim(FencedBlock(text).value)) == p2(Trim(FencedBlock(text).value))
    ensures Extract(text, p1) == Extract(text, p2)
  {
  }

  /** `result.generatedAt = ...; result.productName = ...` on the parsed
      value. An object gains (or has overwritten) the two properties; on an
      array the assignment succeeds but the properties are not part of its
      JSON form; on null or a primitive the strict-mode assignment throws. */
  function Stamp(j: Json, productName: string, now: string): (r: Result<Json, string>)
    ensures j.JObject? ==> r.Ok? && r.value.JObject?
    ensures j.JObject? ==> r.value.fields.Keys == j.fields.Keys + {"generatedAt", "productName"}
    ensures j.JObject? ==> Member(r.value, "generatedAt") == Some(JString(now))
    ensures j.JObject? ==> Member(r.value, "productName") == Some(JString(productName))
    ensures j.JObject? ==> forall k :: k in j.fields && k != "generatedAt" && k != "productName" ==> Member(r.value, k) == Member(j, k)
    ensures j.JArray? ==> r == Ok(j)
    ensures r.Err? <==> !j.JObject? && !j.JArray?
  {
    match j
    case JObject(fields) => Ok(JObject(fields["generatedAt" := JString(now)]["productName" := JString(productName)]))
    case JArray(_) => Ok(j)
    case JNull => Err("Cannot set properties of null (setting 'generatedAt')")
    case _ => Err("Cannot create property 'generatedAt' on a primitive value")
  }

  // ---------------------------------------------------------------------
  // The handler
  // ---------------------------------------------------------------------

  const SseHeaders: seq<(string, string)> :=
    [("Content-Type", "text/event-stream"), ("Cache-Control", "no-cache"), ("Connection", "keep-alive")]

  datatype Response = JsonError(status: nat, error: string) | EventStream(headers: seq<(string, string)>, events: seq<Event>)

  /** The upload loop of step 3: every file is processed in turn, a
      failure is skipped, and the successes are formatted once at the end. */
  method ReadUploads(uploads: seq<Upload>, pdfText: Extractor, docxText: Extractor) returns (fileContent: string)
    ensures fileContent == FileSection(uploads, pdfText, docxText)
  {
    fileContent := "";
    if |uploads| > 0 {
      var processed: seq<ProcessedFile> := [];
      var i := 0;
      while i < |uploads|
        invariant 0 <= i <= |uploads|
        invariant processed == ProcessFiles(uploads[..i], pdfText, docxText)
      {
        assert uploads[..i + 1] == uploads[..i] + [uploads[i]];
        ProcessFilesSnoc(uploads[..i], uploads[i], pdfText, docxText);
        match ProcessFile(uploads[i], pdfText, docxText) {
          case Ok(p) => processed := processed + [p];
          case Err(_) =>
        }
        i := i + 1;
      }
      assert uploads[..i] == uploads;
      fileContent := FormatFilesForPrompt(processed);
    }
  }

  /** The first four steps of the stream's `start`: each sends its
      checkpoint and then gathers one part of the prompt material. */
  method Gather(f: PersonaFormData, readerKey: string, transport: Transport,
                uploads: seq<Upload>, pdfText: Extractor, docxText: Extractor) returns (c: PromptContext, events: seq<Event>)
    ensures c == ContextFor(f, readerKey, transport, uploads, pdfText, docxText)
    ensures events == Checkpoints
  {
    events := [Progress("fetching", 10.0)];
    var websiteContent := WebsiteSection(f.websiteUrl, readerKey, transport);
    events := events + [Progress("fetching", 25.0)];
    var competitorContent := CompetitorSection(f.competitorUrls, readerKey, transport);
    events := events + [Progress("analyzing", 35.0)];
    var fileContent := ReadUploads(uploads, pdfText, docxText);
    events := events + [Progress("analyzing", 45.0)];
    c := PromptContext(f, websiteContent, competitorContent, fileContent);
    CheckpointsPushed();
  }

  lemma CheckpointsPushed()
    ensures [Progress("fetching", 10.0)] + [Progress("fetching", 25.0)]
            + [Progress("analyzing", 35.0)] + [Progress("analyzing", 45.0)] == Checkpoints
  {
  }

  /** The model call's part of the stream: a content event and a progress
      estimate for every text delta, then the outcome. */
  method Generate(run: ModelRun, parse: string -> Option<Json>, productName: string, now: string) returns (events: seq<Event>)
    ensures events == Generation(run, parse, productName, now)
  {
    events := [Progress("generating", 50.0)];
    var fullResponse := "";
    var n := 0;
    while n < |run.events|
      invariant 0 <= n <= |run.events|
      invariant fullResponse == Deltas(run.events[..n])
      invariant events == [Progress("generating", 50.0)] + DeltaEvents(run.events[..n])
    {
      var es := run.events[..n + 1];
      assert es[..|es| - 1] == run.events[..n];
      match run.events[n] {
        case TextDelta(text) =>
          fullResponse := fullResponse + text;
          events := events + [Content(text), Progress("generating", Estimate(|fullResponse|))];
        case OtherEvent =>
      }
      n := n + 1;
    }
    assert run.events[..n] == run.events;

    if run.failure.Some? {
      events := events + [Error(MessageOf(run.failure.value, GenerationFailed))];
    } else {
      events := events + [Progress("formatting", 95.0)];
      var last := Finish(fullResponse, parse, productName, now);
      events := events + [last];
    }
  }

  /** The stream's `start`: gather, build the prompt, announce generation,
      run the model. */
  method Stream(f: PersonaFormData, readerKey: string, transport: Transport,
                uploads: seq<Upload>, pdfText: Extractor, docxText: Extractor,
                model: Model, parse: string -> Option<Json>, now: string) returns (events: seq<Event>)
    ensures events == StreamEvents(f, readerKey, transport, uploads, pdfText, docxText, model, parse, now)
  {
    var c, gathered := Gather(f, readerKey, transport, uploads, pdfText, docxText);
    var prompt := BuildPersonaPrompt(c);
    var rest := Generate(model(prompt), parse, f.productName, now);
    events := gathered + rest;
  }

  /** `POST`: an error response for a refused request, otherwise the event
      stream of the accepted form data. */
  method Post(apiKey: string, body: Result<Submission, Thrown>, decode: string -> Result<PersonaFormData, Thrown>,
              readerKey: string, transport: Transport, pdfText: Extractor, docxText: Extractor,
              model: Model, parse: string -> Option<Json>, now: string) returns (resp: Response)
    ensures ValidateRequest(apiKey, body, decode).Reject? ==>
      resp == JsonError(ValidateRequest(apiKey, body, decode).status, ValidateRequest(apiKey, body, decode).error)
    ensures ValidateRequest(apiKey, body, decode).Accept? ==>
      resp == EventStream(SseHeaders, StreamEvents(ValidateRequest(apiKey, body, decode).data, readerKey, transport,
                                                   body.value.files, pdfText, docxText, model, parse, now))
  {
    match ValidateRequest(apiKey, body, decode)
    case Reject(status, error) =>
      resp := JsonError(status, error);
    case Accept(data) =>
      var events := Stream(data, readerKey, transport, body.value.files, pdfText, docxText, model, parse, now);
      resp := EventStream(SseHeaders, events);
  }
}
