/** The page bookkeeping of the PDF document (lib/pdfGenerator.tsx): which
    pages there are, in what order, the number printed in each footer, and
    which persona data each page shows. Layout, styles and the rendering
    itself are not modelled; a page is the data it displays. */
module PdfGenerator {
  import opened Wrappers
  import opened Strings
  import opened Types

  const MaxRoutines: nat := 3
  const MaxQuotes: nat := 2

  /** `list.slice(0, n)`: the first `n` items, or all of them when fewer. */
  function Take(s: seq<string>, n: nat): (r: seq<string>)
    ensures |r| == (if |s| <= n then |s| else n)
    ensures r == s[..|r|]
  {
    if |s| <= n then s else s[..n]
  }

  /** A `LabelValue` row. */
  datatype Field = Field(caption: string, value: string)

  /** Whether an optional text would render: present and non-empty. */
  predicate Shown(v: Option<string>) {
    v.Some? && v.value != ""
  }

  function FieldIf(caption: string, v: Option<string>): (r: seq<Field>)
    ensures Shown(v) ==> r == [Field(caption, v.value)]
    ensures !Shown(v) ==> r == []
  {
    if Shown(v) then [Field(caption, v.value)] else []
  }

  /** The demographics column: age range, location, education and income,
      each only when it has a value. */
  function DemographicFields(d: Demographics): (r: seq<Field>)
    ensures |r| <= 4
    ensures forall i :: 0 <= i < |r| ==> r[i].value != ""
  {
    FieldIf("Age Range", d.ageRange) + FieldIf("Location", d.location) +
    FieldIf("Education", d.education) + FieldIf("Income", d.incomeRange)
  }

  /** A value is listed under its label exactly when the persona has it,
      and gender is never listed. */
  lemma DemographicFieldsExact(d: Demographics, v: string)
    ensures Field("Age Range", v) in DemographicFields(d) <==> Shown(d.ageRange) && d.ageRange.value == v
    ensures Field("Location", v) in DemographicFields(d) <==> Shown(d.location) && d.location.value == v
    ensures Field("Education", v) in DemographicFields(d) <==> Shown(d.education) && d.education.value == v
    ensures Field("Income", v) in DemographicFields(d) <==> Shown(d.incomeRange) && d.incomeRange.value == v
    ensures forall i :: 0 <= i < |DemographicFields(d)| ==> DemographicFields(d)[i].caption != "Gender"
  {
    var age, loc, edu, inc := FieldIf("Age Range", d.ageRange), FieldIf("Location", d.location),
      FieldIf("Education", d.education), FieldIf("Income", d.incomeRange);
    assert DemographicFields(d) == age + loc + edu + inc;
    CaptionOnly("Age Range", d.ageRange, v, ["Location", "Education", "Income", "Gender"]);
    CaptionOnly("Location", d.location, v, ["Age Range", "Education", "Income", "Gender"]);
    CaptionOnly("Education", d.education, v, ["Age Range", "Location", "Income", "Gender"]);
    CaptionOnly("Income", d.incomeRange, v, ["Age Range", "Location", "Education", "Gender"]);
  }

  lemma CaptionOnly(caption: string, o: Option<string>, v: string, others: seq<string>)
    requires caption !in others
    ensures Field(caption, v) in FieldIf(caption, o) <==> Shown(o) && o.value == v
    ensures forall c :: c in others ==> Field(c, v) !in FieldIf(caption, o)
    ensures forall f :: f in FieldIf(caption, o) ==> f.caption == caption
  {
  }

  /** The first page of a persona (`PersonaPage`). */
  datatype Overview = Overview(
    position: nat,          // "Persona <position> of <total>"
    total: nat,
    productName: string,
    kind: string,
    tagline: string,
    background: Background,
    demographics: Option<seq<Field>>,
    goals: seq<string>,
    successDefinition: string,
    challenges: seq<string>,
    routines: seq<string>,
    preferredChannels: string,
    needs: seq<string>,
    quotes: seq<string>,
    pageNumber: nat)

  /** The second page of a persona (`PersonaDetailsPage`). */
  datatype Details = Details(
    title: string,
    productName: string,
    intrinsic: string,
    values: string,
    devices: string,
    tools: string,
    techComfort: string,
    tasks: seq<string>,
    highValueScenarios: string,
    environment: string,
    timing: string,
    constraints: string,
    barriers: seq<string>,
    switchingCosts: seq<string>,
    keyTakeaways: seq<string>,
    opportunities: seq<string>,
    validated: seq<string>,
    toResearch: seq<string>,
    pageNumber: nat)

  datatype PdfPage =
    | Cover(productName: string, personaCount: nat)
    | OverviewPage(overview: Overview)
    | DetailsPage(details: Details)
    | GuidePage(guide: InterviewGuide, productName: string, pageNumber: nat)

  /** Which number the overview footer prints. `AsWritten` is the code's
      `index + 2`; `Corrected` is `2 * index + 2`, the page the overview
      actually occupies, in step with the details and guide footers. */
  datatype Numbering = AsWritten | Corrected

  function OverviewNumber(n: Numbering, index: nat): nat {
    match n
    case AsWritten => index + 2
    case Corrected => 2 * index + 2
  }

  /** `index * 2 + 3` */
  function DetailsNumber(index: nat): nat {
    2 * index + 3
  }

  /** `currentPage` starts at `personas.length * 2 + 2` and is read once,
      post-increment, for the guide page. */
  function GuideNumber(personaCount: nat): nat {
    2 * personaCount + 2
  }

  function OverviewOf(p: Persona, index: nat, total: nat, productName: string, n: Numbering): (r: Overview)
    ensures r.position == index + 1 && r.total == total
    ensures r.routines == Take(p.behaviors.routines, MaxRoutines) && |r.routines| <= MaxRoutines
    ensures r.quotes == Take(p.quotes, MaxQuotes) && |r.quotes| <= MaxQuotes
    ensures p.demographics.None? <==> r.demographics.None?
    ensures p.demographics.Some? ==> r.demographics == Some(DemographicFields(p.demographics.value))
    ensures r.preferredChannels == Join(p.behaviors.preferredChannels, ", ")
    ensures r.pageNumber == OverviewNumber(n, index)
  {
    Overview(index + 1, total, productName, p.kind, p.tagline, p.background,
      if p.demographics.Some? then Some(DemographicFields(p.demographics.value)) else None,
      p.goals.primary, p.goals.successDefinition, p.painPoints.challenges,
      Take(p.behaviors.routines, MaxRoutines), Join(p.behaviors.preferredChannels, ", "),
      p.needs.core, Take(p.quotes, MaxQuotes), OverviewNumber(n, index))
  }

  function DetailsOf(p: Persona, index: nat, productName: string): (r: Details)
    ensures r.highValueScenarios == Join(p.tasks.highValueScenarios, "; ")
    ensures r.constraints == Join(p.context.constraints, ", ")
    ensures r.devices == Join(p.technology.devices, ", ") && r.tools == Join(p.technology.tools, ", ")
    ensures r.intrinsic == Join(p.motivations.intrinsic, ", ") && r.values == Join(p.motivations.values, ", ")
    ensures r.title == p.kind + " - Details"
  {
    Details(p.kind + " - Details", productName,
      Join(p.motivations.intrinsic, ", "), Join(p.motivations.values, ", "),
      Join(p.technology.devices, ", "), Join(p.technology.tools, ", "), p.technology.techComfort,
      p.tasks.primary, Join(p.tasks.highValueScenarios, "; "),
      p.context.environment, p.context.timing, Join(p.context.constraints, ", "),
      p.objections.barriers, p.objections.switchingCosts,
      p.insights.keyTakeaways, p.insights.opportunities,
      p.assumptions.validated, p.assumptions.toResearch,
      DetailsNumber(index))
  }

  /** The k-th persona page: overview and details alternate, persona by persona. */
  function PersonaPageAt(r: GenerationResult, k: nat, n: Numbering): PdfPage
    requires k < 2 * |r.personas|
  {
    var i := k / 2;
    if k % 2 == 0 then OverviewPage(OverviewOf(r.personas[i], i, |r.personas|, r.productName, n))
    else DetailsPage(DetailsOf(r.personas[i], i, r.productName))
  }

  function PersonaPages(r: GenerationResult, n: Numbering): (s: seq<PdfPage>)
    ensures |s| == 2 * |r.personas|
    ensures forall k :: 0 <= k < |s| ==> s[k] == PersonaPageAt(r, k, n)
  {
    seq(2 * |r.personas|, k requires 0 <= k < 2 * |r.personas| => PersonaPageAt(r, k, n))
  }

  function GuidePages(r: GenerationResult): seq<PdfPage> {
    if r.interviewGuide.Some? then [GuidePage(r.interviewGuide.value, r.productName, GuideNumber(|r.personas|))] else []
  }

  function DocumentWith(r: GenerationResult, n: Numbering): seq<PdfPage> {
    [Cover(r.productName, |r.personas|)] + PersonaPages(r, n) + GuidePages(r)
  }

  /** `PersonaDocument`, as written. */
  function Document(r: GenerationResult): seq<PdfPage> {
    DocumentWith(r, AsWritten)
  }

  /** `PersonaDocument` with the overview footer corrected. */
  function CorrectedDocument(r: GenerationResult): seq<PdfPage> {
    DocumentWith(r, Corrected)
  }

  lemma Halves(i: nat)
    ensures (2 * i) / 2 == i && (2 * i) % 2 == 0
    ensures (2 * i + 1) / 2 == i && (2 * i + 1) % 2 == 1
  {
  }

  /** Persona `i` owns persona pages 2*i and 2*i + 1. */
  lemma PersonaPagesOf(r: GenerationResult, i: nat, n: Numbering)
    requires i < |r.personas|
    ensures PersonaPageAt(r, 2 * i, n) == OverviewPage(OverviewOf(r.personas[i], i, |r.personas|, r.productName, n))
    ensures PersonaPageAt(r, 2 * i + 1, n) == DetailsPage(DetailsOf(r.personas[i], i, r.productName))
  {
    Halves(i);
  }

  /** The cover comes first, then overview and details of each persona in
      order, then the interview guide exactly when there is one; this holds
      for either overview numbering. */
  lemma DocumentShape(r: GenerationResult, n: Numbering)
    ensures var d := DocumentWith(r, n);
      && |d| == 1 + 2 * |r.personas| + (if r.interviewGuide.Some? then 1 else 0)
      && d[0] == Cover(r.productName, |r.personas|)
      && (forall i :: 0 <= i < |r.personas| ==>
            && d[2 * i + 1] == OverviewPage(OverviewOf(r.personas[i], i, |r.personas|, r.productName, n))
            && d[2 * i + 2] == DetailsPage(DetailsOf(r.personas[i], i, r.productName)))
      && (r.interviewGuide.Some? <==> d[|d| - 1].GuidePage?)
  {
    forall i | 0 <= i < |r.personas|
      ensures DocumentWith(r, n)[2 * i + 1] == OverviewPage(OverviewOf(r.personas[i], i, |r.personas|, r.productName, n))
      ensures DocumentWith(r, n)[2 * i + 2] == DetailsPage(DetailsOf(r.personas[i], i, r.productName))
    {
      DocumentAt(r, i, n);
    }
    DocumentEnds(r, n);
    LastPage(r, n);
  }

  /** Persona `i` owns document pages 2*i + 1 and 2*i + 2. */
  lemma DocumentAt(r: GenerationResult, i: nat, n: Numbering)
    requires i < |r.personas|
    ensures 2 * i + 2 < |DocumentWith(r, n)|
    ensures DocumentWith(r, n)[2 * i + 1] == OverviewPage(OverviewOf(r.personas[i], i, |r.personas|, r.productName, n))
    ensures DocumentWith(r, n)[2 * i + 2] == DetailsPage(DetailsOf(r.personas[i], i, r.productName))
  {
    DocumentPair(r, i, n);
    PersonaPagesOf(r, i, n);
  }

  /** Persona pages 2*i and 2*i + 1 follow the cover. */
  lemma DocumentPair(r: GenerationResult, i: nat, n: Numbering)
    requires i < |r.personas|
    ensures 2 * i + 2 < |DocumentWith(r, n)|
    ensures DocumentWith(r, n)[2 * i + 1] == PersonaPageAt(r, 2 * i, n)
    ensures DocumentWith(r, n)[2 * i + 2] == PersonaPageAt(r, 2 * i + 1, n)
  {
    OverviewIndex(r, i, n);
    DetailsIndex(r, i, n);
  }

  lemma OverviewIndex(r: GenerationResult, i: nat, n: Numbering)
    requires i < |r.personas|
    ensures 2 * i + 1 < |DocumentWith(r, n)| && DocumentWith(r, n)[2 * i + 1] == PersonaPageAt(r, 2 * i, n)
  {
    var k := 2 * i;
    var page := PersonaPageAt(r, k, n);
    DocumentIndex(r, k, n);
    assert DocumentWith(r, n)[k + 1] == page;
  }

  lemma DetailsIndex(r: GenerationResult, i: nat, n: Numbering)
    requires i < |r.personas|
    ensures 2 * i + 2 < |DocumentWith(r, n)| && DocumentWith(r, n)[2 * i + 2] == PersonaPageAt(r, 2 * i + 1, n)
  {
    var k := 2 * i + 1;
    DocumentIndex(r, k, n);
  }

  /** Persona page `k` is document page `k + 1`, after the cover. */
  lemma DocumentIndex(r: GenerationResult, k: nat, n: Numbering)
    requires k < 2 * |r.personas|
    ensures k + 1 < |DocumentWith(r, n)| && DocumentWith(r, n)[k + 1] == PersonaPageAt(r, k, n)
  {
    var ps := PersonaPages(r, n);
    assert DocumentWith(r, n)[k + 1] == ps[k];
  }

  /** The cover opens the document and the guide, when there is one, closes it. */
  lemma DocumentEnds(r: GenerationResult, n: Numbering)
    ensures var d := DocumentWith(r, n);
      && |d| == 1 + 2 * |r.personas| + (if r.interviewGuide.Some? then 1 else 0)
      && d[0] == Cover(r.productName, |r.personas|)
      && (r.interviewGuide.Some? ==> d[|d| - 1] == GuidePage(r.interviewGuide.value, r.productName, GuideNumber(|r.personas|)))
  {
    var d := DocumentWith(r, n);
    assert d[0] == Cover(r.productName, |r.personas|);
    if r.interviewGuide.Some? {
      assert d[|d| - 1] == GuidePages(r)[0];
    }
  }

  /** Without a guide the document ends on a persona page (or the cover). */
  lemma LastPage(r: GenerationResult, n: Numbering)
    ensures var d := DocumentWith(r, n); |d| > 0 && (r.interviewGuide.Some? <==> d[|d| - 1].GuidePage?)
  {
    var m := |r.personas|;
    DocumentEnds(r, n);
    if r.interviewGuide.None? && m > 0 {
      DocumentIndex(r, 2 * m - 1, n);
      Halves(m - 1);
      assert 2 * m - 1 == 2 * (m - 1) + 1;
    }
  }

  /** With the corrected footer, persona page `k` prints `k + 2`. */
  lemma PersonaPageNumber(r: GenerationResult, k: nat)
    requires k < 2 * |r.personas|
    ensures PersonaPageAt(r, k, Corrected).OverviewPage? || PersonaPageAt(r, k, Corrected).DetailsPage?
    ensures PageNumber(PersonaPageAt(r, k, Corrected)) == Some(k + 2)
  {
    var i := k / 2;
    if k % 2 == 0 {
      assert k == 2 * i;
    } else {
      assert k == 2 * i + 1;
    }
  }

  /** The number printed on a page, if it prints one. */
  function PageNumber(p: PdfPage): Option<nat> {
    match p
    case Cover(_, _) => None
    case OverviewPage(o) => Some(o.pageNumber)
    case DetailsPage(d) => Some(d.pageNumber)
    case GuidePage(_, _, n) => Some(n)
  }

  /** With the corrected footer every page after the cover prints its own
      position, counting the cover as page 1; so no two pages print the
      same number. */
  lemma PageNumbersArePositions(r: GenerationResult)
    ensures var d := CorrectedDocument(r);
      forall p :: 1 <= p < |d| ==> PageNumber(d[p]) == Some(p + 1)
  {
    forall p | 1 <= p < |CorrectedDocument(r)|
      ensures PageNumber(CorrectedDocument(r)[p]) == Some(p + 1)
    {
      PageNumberAt(r, p);
    }
  }

  lemma PageNumberAt(r: GenerationResult, p: nat)
    requires 1 <= p < |CorrectedDocument(r)|
    ensures PageNumber(CorrectedDocument(r)[p]) == Some(p + 1)
  {
    if p <= 2 * |r.personas| {
      CorrectedPersonaNumber(r, p);
    } else {
      CorrectedGuideNumber(r, p);
    }
  }

  lemma CorrectedPersonaNumber(r: GenerationResult, p: nat)
    requires 1 <= p <= 2 * |r.personas|
    ensures p < |CorrectedDocument(r)| && PageNumber(CorrectedDocument(r)[p]) == Some(p + 1)
  {
    var k := p - 1;
    DocumentIndex(r, k, Corrected);
    assert CorrectedDocument(r)[p] == PersonaPageAt(r, k, Corrected);
    PersonaPageNumber(r, k);
  }

  lemma CorrectedGuideNumber(r: GenerationResult, p: nat)
    requires 2 * |r.personas| < p < |CorrectedDocument(r)|
    ensures PageNumber(CorrectedDocument(r)[p]) == Some(p + 1)
  {
    DocumentLength(r, Corrected);
    GuideLast(r, Corrected);
  }

  lemma DocumentLength(r: GenerationResult, n: Numbering)
    ensures |DocumentWith(r, n)| == 1 + 2 * |r.personas| + (if r.interviewGuide.Some? then 1 else 0)
  {
  }

  /** The guide page follows the last persona page. */
  lemma GuideLast(r: GenerationResult, n: Numbering)
    requires r.interviewGuide.Some?
    ensures 2 * |r.personas| + 1 < |DocumentWith(r, n)|
    ensures DocumentWith(r, n)[2 * |r.personas| + 1] == GuidePage(r.interviewGuide.value, r.productName, GuideNumber(|r.personas|))
  {
    assert DocumentWith(r, n)[2 * |r.personas| + 1] == GuidePages(r)[0];
  }

  /** As written, the overview of the second persona prints "Page 3", the
      number the first persona's details page before it already prints;
      corrected, it prints its position, 4. */
  lemma OverviewNumberCollides(r: GenerationResult)
    requires |r.personas| >= 2
    ensures Document(r)[2].DetailsPage? && Document(r)[3].OverviewPage?
    ensures PageNumber(Document(r)[2]) == PageNumber(Document(r)[3]) == Some(3)
    ensures PageNumber(CorrectedDocument(r)[3]) == Some(4)
  {
    DetailsNumberAt(r, 0, AsWritten);
    OverviewNumbersAsWritten(r, 1);
    PageNumberAt(r, 3);
  }

  /** The details page of persona `i` prints `2 * i + 3` under either
      overview numbering. */
  lemma DetailsNumberAt(r: GenerationResult, i: nat, n: Numbering)
    requires i < |r.personas|
    ensures 2 * i + 2 < |DocumentWith(r, n)| && DocumentWith(r, n)[2 * i + 2].DetailsPage?
    ensures PageNumber(DocumentWith(r, n)[2 * i + 2]) == Some(2 * i + 3)
  {
    DocumentAt(r, i, n);
  }

  /** As written, the overview of persona `i` prints `i + 2`: from the third
      persona on, a number an earlier page already printed. */
  lemma OverviewNumbersAsWritten(r: GenerationResult, i: nat)
    requires i < |r.personas|
    ensures 2 * i + 1 < |Document(r)| && Document(r)[2 * i + 1].OverviewPage?
    ensures PageNumber(Document(r)[2 * i + 1]) == Some(i + 2)
  {
    DocumentAt(r, i, AsWritten);
  }

  /** The correction changes only the footer of the overview pages, which
      then prints the page's position. */
  lemma CorrectionRenumbersOverviews(r: GenerationResult, p: nat)
    requires p < |Document(r)|
    ensures |CorrectedDocument(r)| == |Document(r)|
    ensures !Document(r)[p].OverviewPage? ==> CorrectedDocument(r)[p] == Document(r)[p]
    ensures Document(r)[p].OverviewPage? ==>
      CorrectedDocument(r)[p] == OverviewPage(Document(r)[p].overview.(pageNumber := p + 1))
  {
    DocumentLength(r, AsWritten);
    DocumentLength(r, Corrected);
    if p == 0 {
      CoverUnchanged(r);
    } else if p <= 2 * |r.personas| {
      RenumberedAt(r, p);
    } else {
      GuideUnchanged(r, p);
    }
  }

  lemma CoverUnchanged(r: GenerationResult)
    ensures |Document(r)| > 0 && |CorrectedDocument(r)| > 0
    ensures Document(r)[0].Cover? && CorrectedDocument(r)[0] == Document(r)[0]
  {
    DocumentEnds(r, AsWritten);
    DocumentEnds(r, Corrected);
  }

  lemma GuideUnchanged(r: GenerationResult, p: nat)
    requires 2 * |r.personas| < p < |Document(r)|
    ensures p < |CorrectedDocument(r)| && Document(r)[p].GuidePage? && CorrectedDocument(r)[p] == Document(r)[p]
  {
    DocumentLength(r, AsWritten);
    DocumentLength(r, Corrected);
    GuideLast(r, AsWritten);
    GuideLast(r, Corrected);
  }

  lemma RenumberedAt(r: GenerationResult, p: nat)
    requires 1 <= p <= 2 * |r.personas|
    ensures p < |Document(r)| && p < |CorrectedDocument(r)|
    ensures !Document(r)[p].OverviewPage? ==> CorrectedDocument(r)[p] == Document(r)[p]
    ensures Document(r)[p].OverviewPage? ==>
      CorrectedDocument(r)[p] == OverviewPage(Document(r)[p].overview.(pageNumber := p + 1))
  {
    var k := p - 1;
    DocumentIndex(r, k, AsWritten);
    DocumentIndex(r, k, Corrected);
    assert Document(r)[p] == PersonaPageAt(r, k, AsWritten);
    assert CorrectedDocument(r)[p] == PersonaPageAt(r, k, Corrected);
    PersonaPageRenumbered(r, k);
  }

  lemma PersonaPageRenumbered(r: GenerationResult, k: nat)
    requires k < 2 * |r.personas|
    ensures !PersonaPageAt(r, k, AsWritten).OverviewPage? ==> PersonaPageAt(r, k, Corrected) == PersonaPageAt(r, k, AsWritten)
    ensures PersonaPageAt(r, k, AsWritten).OverviewPage? ==>
      PersonaPageAt(r, k, Corrected) == OverviewPage(PersonaPageAt(r, k, AsWritten).overview.(pageNumber := k + 2))
  {
    var i := k / 2;
    if k % 2 == 0 {
      assert k == 2 * i;
    }
  }
}
