/** Web page summaries through the reader service (lib/websiteFetcher.ts).
    The HTTP exchange is a parameter `transport`; its answer None stands for a
    network failure, a body of None for an unreadable JSON body. */
module WebsiteFetcher {
  import opened Wrappers
  import opened Strings

  datatype WebsiteContent = WebsiteContent(title: string, description: string, content: string, url: string)

  /** The `data` object of the reader's reply; a property may be missing. */
  datatype ReaderData = ReaderData(title: Option<string>, description: Option<string>, url: Option<string>, content: Option<string>)

  datatype HttpReply = HttpReply(ok: bool, statusText: string, body: Option<ReaderData>)

  datatype ReaderRequest = ReaderRequest(target: string, headers: seq<(string, string)>)

  type Transport = ReaderRequest -> Option<HttpReply>

  const ReaderBase: string := "https://r.jina.ai/"

  /** The request sent for `url`: the reader URL, JSON wanted, and a bearer
      token only when a key is configured (an empty key counts as none). */
  function ReaderRequestFor(url: string, apiKey: string): (r: ReaderRequest)
    ensures r.target == ReaderBase + url
    ensures |r.headers| >= 1 && r.headers[0] == ("Accept", "application/json")
    ensures apiKey == "" <==> |r.headers| == 1
    ensures apiKey != "" ==> r.headers == [("Accept", "application/json"), ("Authorization", "Bearer " + apiKey)]
  {
    var base := [("Accept", "application/json")];
    ReaderRequest(ReaderBase + url, if apiKey != "" then base + [("Authorization", "Bearer " + apiKey)] else base)
  }

  /** `a || b` on an optional string: falls back on a missing or empty value. */
  function OrElse(v: Option<string>, fallback: string): (r: string)
    ensures v.Some? && v.value != "" ==> r == v.value
    ensures v.None? || v.value == "" ==> r == fallback
  {
    if v.Some? && v.value != "" then v.value else fallback
  }

  function FetchFailure(url: string): string {
    "Failed to fetch content from " + url + ". The website may be blocking automated access."
  }

  /** `fetchWebsiteContent`: every kind of failure becomes the same message. */
  function FetchWebsiteContent(url: string, apiKey: string, transport: Transport): (r: Result<WebsiteContent, string>)
    ensures r.Err? ==> r.error == FetchFailure(url)
  {
    match transport(ReaderRequestFor(url, apiKey))
    case None => Err(FetchFailure(url))
    case Some(reply) =>
      if !reply.ok || reply.body.None? then Err(FetchFailure(url))
      else
        var d := reply.body.value;
        Ok(WebsiteContent(OrElse(d.title, "Unknown"), OrElse(d.description, ""), OrElse(d.content, ""), OrElse(d.url, url)))
  }

  /** Fetch succeeds exactly on a readable 2xx reply, and then every missing
      field takes its default: title "Unknown", empty description and
      content, and the requested URL. */
  lemma FetchOutcome(url: string, apiKey: string, transport: Transport)
    ensures var reply := transport(ReaderRequestFor(url, apiKey));
      var r := FetchWebsiteContent(url, apiKey, transport);
      && (r.Ok? <==> reply.Some? && reply.value.ok && reply.value.body.Some?)
      && (r.Ok? ==>
            var d := reply.value.body.value;
            && (d.title.None? ==> r.value.title == "Unknown")
            && (d.description.None? ==> r.value.description == "")
            && (d.content.None? ==> r.value.content == "")
            && (d.url.None? ==> r.value.url == url)
            && (d.title.Some? && d.title.value != "" ==> r.value.title == d.title.value)
            && r.value.title != ""
            && (url != "" ==> r.value.url != ""))
  {
  }

  function FetchEach(urls: seq<string>, apiKey: string, transport: Transport): (r: seq<Result<WebsiteContent, string>>)
    ensures |r| == |urls|
    ensures forall i :: 0 <= i < |urls| ==> r[i] == FetchWebsiteContent(urls[i], apiKey, transport)
  {
    seq(|urls|, i requires 0 <= i < |urls| => FetchWebsiteContent(urls[i], apiKey, transport))
  }

  /** `fetchMultipleWebsites`: the successful fetches, in input order. */
  function FetchMultipleWebsites(urls: seq<string>, apiKey: string, transport: Transport): seq<WebsiteContent> {
    KeepOk(FetchEach(urls, apiKey, transport))
  }

  /** Failures are dropped and the rest keep their order, whichever URLs fail. */
  lemma FetchMultipleAppend(a: seq<string>, b: seq<string>, apiKey: string, transport: Transport)
    ensures FetchMultipleWebsites(a + b, apiKey, transport)
         == FetchMultipleWebsites(a, apiKey, transport) + FetchMultipleWebsites(b, apiKey, transport)
    ensures |FetchMultipleWebsites(a + b, apiKey, transport)| <= |a| + |b|
  {
    assert FetchEach(a + b, apiKey, transport) == FetchEach(a, apiKey, transport) + FetchEach(b, apiKey, transport);
    KeepOkAppend(FetchEach(a, apiKey, transport), FetchEach(b, apiKey, transport));
  }

  const MaxContentLength: nat := 8000

  /** `summarizeWebsiteContent`, with the template's `.trim()`. */
  function SummarizeWebsiteContent(w: WebsiteContent): string {
    Trim("\n## Website: " + w.title + "\nURL: " + w.url + "\nDescription: " + w.description +
         "\n\n### Content:\n" + Truncate(w.content, MaxContentLength) + "\n")
  }

  function SummaryHeader(w: WebsiteContent): string {
    "## Website: " + w.title + "\nURL: " + w.url + "\nDescription: " + w.description + "\n\n### Content:"
  }

  /** The summary is the header lines exactly as given, then the page text
      cut at 8000 characters (with "..." when cut), with only the whitespace
      at the very end removed. */
  lemma SummaryShape(w: WebsiteContent)
    ensures SummarizeWebsiteContent(w) == SummaryHeader(w) + TrimEnd("\n" + Truncate(w.content, MaxContentLength) + "\n")
    ensures StartsWith(SummarizeWebsiteContent(w), SummaryLead(w))
  {
    var h := SummaryHeader(w);
    var tail := "\n" + Truncate(w.content, MaxContentLength) + "\n";
    TemplateSplits(w);
    HeaderEnds(w);
    TrimStartSkipsPrefix("\n", h + tail);
    TrimEndKeepsPrefix(h, tail);
    LeadStartsHeader(w, TrimEnd(tail));
  }

  /** The header starts with '#' and ends with ':', neither of them whitespace. */
  lemma HeaderEnds(w: WebsiteContent)
    ensures var h := SummaryHeader(w); |h| > 0 && h[0] == '#' && h[|h| - 1] == ':'
  {
  }

  lemma LeadStartsHeader(w: WebsiteContent, rest: string)
    ensures StartsWith(SummaryHeader(w) + rest, SummaryLead(w))
  {
    var p := SummaryLead(w);
    assert SummaryHeader(w) == p + "\n### Content:";
    assert (SummaryHeader(w) + rest)[..|p|] == p;
  }

  /** The first three lines of a summary. */
  function SummaryLead(w: WebsiteContent): string {
    "## Website: " + w.title + "\nURL: " + w.url + "\nDescription: " + w.description + "\n"
  }

  lemma TemplateSplits(w: WebsiteContent)
    ensures "\n## Website: " + w.title + "\nURL: " + w.url + "\nDescription: " + w.description +
            "\n\n### Content:\n" + Truncate(w.content, MaxContentLength) + "\n"
         == "\n" + (SummaryHeader(w) + ("\n" + Truncate(w.content, MaxContentLength) + "\n"))
  {
    assert "\n## Website: " == "\n" + "## Website: ";
    assert "\n\n### Content:\n" == "\n\n### Content:" + "\n";
    Regroup("\n", "## Website: ", w.title, "\nURL: ", w.url, "\nDescription: ", w.description,
      "\n\n### Content:", "\n", Truncate(w.content, MaxContentLength), "\n");
  }

  lemma Regroup(n: string, a: string, t: string, b: string, u: string, c: string, d: string,
                e: string, f: string, x: string, g: string)
    ensures (n + a) + t + b + u + c + d + (e + f) + x + g
         == n + ((a + t + b + u + c + d + e) + (f + x + g))
  {
  }
}
