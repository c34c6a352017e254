/** Prompt assembly (lib/personaPrompt.ts): the numbered section list, the
    demographics sentence and the prompt template with its conditional parts. */
module PersonaPrompt {
  import opened Strings
  import opened Types

  datatype PromptContext = PromptContext(
    formData: PersonaFormData,
    websiteContent: string,
    competitorContent: string,
    fileContent: string)

  predicate AnyDemographic(d: DemographicToggles) {
    d.age || d.location || d.gender || d.incomeRange
  }

  /** The text of section n, after its number. */
  const SectionTitles: seq<string> := [
    "**Persona Header** - Type, tagline/archetype label",
    "**Background & Context** - Summary, work context, domain familiarity",
    "**Demographics** - As specified in configuration",
    "**Role & Responsibilities** - Job title, key responsibilities, team structure",
    "**Goals & Desired Outcomes** - Primary goals, success definition",
    "**Motivations & Drivers** - Intrinsic/extrinsic motivators, values",
    "**Needs & Expectations** - Core needs, must-haves, nice-to-haves",
    "**Behaviors & Habits** - Routines, frequency, preferred channels",
    "**Pain Points & Frustrations** - Challenges, triggers, concerns",
    "**Tasks & Key Use Cases** - Primary/secondary tasks, high-value scenarios",
    "**User Journey Snapshot** - Discover, evaluate, adopt, use, advocate stages",
    "**Context of Use** - Environment, timing, constraints",
    "**Technology Profile** - Devices, tools, tech comfort level",
    "**Communication Style** - Preferred tone, terminology level",
    "**Objections & Barriers** - Adoption barriers, switching costs",
    "**Representative Quotes** - Voice of user quotes",
    "**Scenarios** - Mini-story narratives",
    "**Key Insights** - Takeaways, design implications, opportunities",
    "**Assumptions** - Validated vs. needs research",
    "**Interview Guide** - Introduction, warmup, core, and closing questions",
    "**Survey Template** - Questions organized by section"
  ]

  /** Line n of the list, such as "4. **Role & Responsibilities** - ...". */
  function SectionLine(n: nat): string
    requires 1 <= n <= 21
  {
    NatToString(n) + ". " + SectionTitles[n - 1]
  }

  /** Whether section n is listed: 3 on any demographic toggle, 11, 20 and 21
      on their section toggles, every other section always. */
  predicate Listed(f: PersonaFormData, n: nat) {
    if n == 3 then AnyDemographic(f.includeDemographics)
    else if n == 11 then f.includeSections.journeyMap
    else if n == 20 then f.includeSections.interviewGuide
    else if n == 21 then f.includeSections.survey
    else 1 <= n <= 21
  }

  function Opt(b: bool, n: nat): seq<nat> {
    if b then [n] else []
  }

  /** The three stretches of the list between unconditional pushes. */
  function UpperPart(demographics: bool): (r: seq<nat>)
    ensures forall i :: 0 <= i < |r| ==> 1 <= r[i] <= 10
  {
    [1, 2] + Opt(demographics, 3) + [4, 5, 6, 7, 8, 9, 10]
  }

  function MiddlePart(journeyMap: bool): (r: seq<nat>)
    ensures forall i :: 0 <= i < |r| ==> 11 <= r[i] <= 19
  {
    Opt(journeyMap, 11) + [12, 13, 14, 15, 16, 17, 18, 19]
  }

  function LowerPart(interviewGuide: bool, survey: bool): (r: seq<nat>)
    ensures forall i :: 0 <= i < |r| ==> 20 <= r[i] <= 21
  {
    Opt(interviewGuide, 20) + Opt(survey, 21)
  }

  predicate InRange(ns: seq<nat>) {
    forall i :: 0 <= i < |ns| ==> 1 <= ns[i] <= 21
  }

  predicate Ascending(ns: seq<nat>) {
    forall i, j :: 0 <= i < j < |ns| ==> ns[i] < ns[j]
  }

  /** The section numbers `buildSectionsList` pushes, in push order. */
  function SectionNumbers(f: PersonaFormData): (r: seq<nat>)
    ensures InRange(r)
  {
    UpperPart(AnyDemographic(f.includeDemographics)) + MiddlePart(f.includeSections.journeyMap)
    + LowerPart(f.includeSections.interviewGuide, f.includeSections.survey)
  }

  function LinesOf(ns: seq<nat>): (r: seq<string>)
    requires InRange(ns)
    ensures |r| == |ns|
  {
    seq(|ns|, i requires 0 <= i < |ns| => SectionLine(ns[i]))
  }

  lemma LinesOfAppend(a: seq<nat>, b: seq<nat>)
    requires InRange(a) && InRange(b)
    ensures InRange(a + b) && LinesOf(a + b) == LinesOf(a) + LinesOf(b)
  {
  }

  function Count(b: bool): nat {
    if b then 1 else 0
  }

  lemma PartsAscending(demographics: bool, journeyMap: bool, interviewGuide: bool, survey: bool)
    ensures Ascending(UpperPart(demographics)) && Ascending(MiddlePart(journeyMap))
    ensures Ascending(LowerPart(interviewGuide, survey))
  {
    StepwiseAscending(UpperPart(demographics));
    StepwiseAscending(MiddlePart(journeyMap));
    StepwiseAscending(LowerPart(interviewGuide, survey));
  }

  lemma {:induction false} StepwiseAscending(s: seq<nat>)
    requires forall k :: 0 <= k < |s| - 1 ==> s[k] < s[k + 1]
    ensures Ascending(s)
  {
    if |s| > 1 {
      var t := s[1..];
      assert forall k :: 0 <= k < |t| ==> t[k] == s[k + 1];
      StepwiseAscending(t);
      forall i, j | 0 <= i < j < |s|
        ensures s[i] < s[j]
      {
        if i > 0 {
          assert s[i] == t[i - 1] && s[j] == t[j - 1];
        } else if j > 1 {
          assert s[1] == t[0] && s[j] == t[j - 1];
        }
      }
    }
  }

  lemma AscendingJoin(a: seq<nat>, b: seq<nat>, bound: nat)
    requires Ascending(a) && Ascending(b)
    requires forall i :: 0 <= i < |a| ==> a[i] < bound
    requires forall j :: 0 <= j < |b| ==> bound <= b[j]
    ensures Ascending(a + b)
  {
    forall i, j | 0 <= i < j < |a + b|
      ensures (a + b)[i] < (a + b)[j]
    {
      if j >= |a| && i < |a| {
        assert (a + b)[j] == b[j - |a|];
      }
    }
  }

  /** 17 lines always, plus one for each of the four conditions. */
  lemma SectionCount(f: PersonaFormData)
    ensures |SectionNumbers(f)| == 17 + Count(AnyDemographic(f.includeDemographics))
      + Count(f.includeSections.journeyMap) + Count(f.includeSections.interviewGuide)
      + Count(f.includeSections.survey)
  {
  }

  /** The numbers run strictly upwards through 1..21. */
  lemma SectionNumbersAscending(f: PersonaFormData)
    ensures Ascending(SectionNumbers(f))
  {
    var u := UpperPart(AnyDemographic(f.includeDemographics));
    var m := MiddlePart(f.includeSections.journeyMap);
    var l := LowerPart(f.includeSections.interviewGuide, f.includeSections.survey);
    PartsAscending(AnyDemographic(f.includeDemographics), f.includeSections.journeyMap,
      f.includeSections.interviewGuide, f.includeSections.survey);
    AscendingJoin(u, m, 11);
    AscendingJoin(u + m, l, 20);
  }

  /** A number is listed exactly when its condition holds. */
  lemma SectionMembership(f: PersonaFormData, n: nat)
    ensures n in SectionNumbers(f) <==> Listed(f, n)
  {
    UpperMembership(AnyDemographic(f.includeDemographics), n);
    MiddleMembership(f.includeSections.journeyMap, n);
    LowerMembership(f.includeSections.interviewGuide, f.includeSections.survey, n);
  }

  lemma UpperMembership(demographics: bool, n: nat)
    ensures n in UpperPart(demographics) <==> 1 <= n <= 10 && (n == 3 ==> demographics)
  {
    var u := UpperPart(demographics);
    if 1 <= n <= 10 && (n == 3 ==> demographics) {
      if n <= 2 {
        assert u[n - 1] == n;
      } else if demographics {
        assert u[n - 1] == n;
      } else {
        assert u[n - 2] == n;
      }
    }
  }

  lemma MiddleMembership(journeyMap: bool, n: nat)
    ensures n in MiddlePart(journeyMap) <==> 11 <= n <= 19 && (n == 11 ==> journeyMap)
  {
    var m := MiddlePart(journeyMap);
    if 11 <= n <= 19 && (n == 11 ==> journeyMap) {
      if journeyMap {
        assert m[n - 11] == n;
      } else {
        assert m[n - 12] == n;
      }
    }
  }

  lemma LowerMembership(interviewGuide: bool, survey: bool, n: nat)
    ensures n in LowerPart(interviewGuide, survey) <==> (n == 20 && interviewGuide) || (n == 21 && survey)
  {
  }

  /** The section list as a value. */
  function SectionsList(f: PersonaFormData): string {
    Join(LinesOf(SectionNumbers(f)), "\n")
  }

  /** `buildSectionsList`: the conditional pushes, then the join with "\n". */
  method BuildSectionsList(f: PersonaFormData) returns (s: string)
    ensures s == SectionsList(f)
  {
    var d, j := AnyDemographic(f.includeDemographics), f.includeSections.journeyMap;
    var g, v := f.includeSections.interviewGuide, f.includeSections.survey;
    var sections := LinesOf([1, 2]);
    if d {
      sections := sections + LinesOf([3]);
    }
    sections := sections + LinesOf([4, 5, 6, 7, 8, 9, 10]);
    UpperLines(d, sections);
    ghost var upper := sections;
    if j {
      sections := sections + LinesOf([11]);
    }
    sections := sections + LinesOf([12, 13, 14, 15, 16, 17, 18, 19]);
    MiddleLines(upper, j, sections);
    ghost var middle := sections;
    if g {
      sections := sections + LinesOf([20]);
    }
    if v {
      sections := sections + LinesOf([21]);
    }
    LowerLines(middle, g, v, sections);
    AllLines(UpperPart(d), MiddlePart(j), LowerPart(g, v));
    s := Join(sections, "\n");
  }

  /** The pushes up to section 10 give the lines of the upper part. */
  lemma UpperLines(d: bool, sections: seq<string>)
    requires sections == (if d then LinesOf([1, 2]) + LinesOf([3]) else LinesOf([1, 2])) + LinesOf([4, 5, 6, 7, 8, 9, 10])
    ensures sections == LinesOf(UpperPart(d))
  {
    LinesOfAppend([1, 2], Opt(d, 3));
    LinesOfAppend([1, 2] + Opt(d, 3), [4, 5, 6, 7, 8, 9, 10]);
    if !d {
      assert [1, 2] + Opt(d, 3) == [1, 2];
    }
  }

  /** The pushes from section 11 to 19 append the lines of the middle part. */
  lemma MiddleLines(upper: seq<string>, j: bool, sections: seq<string>)
    requires sections == (if j then upper + LinesOf([11]) else upper) + LinesOf([12, 13, 14, 15, 16, 17, 18, 19])
    ensures sections == upper + LinesOf(MiddlePart(j))
  {
    LinesOfAppend(Opt(j, 11), [12, 13, 14, 15, 16, 17, 18, 19]);
    if !j {
      assert Opt(j, 11) + [12, 13, 14, 15, 16, 17, 18, 19] == [12, 13, 14, 15, 16, 17, 18, 19];
    }
  }

  /** The two last pushes append the lines of the lower part. */
  lemma LowerLines(middle: seq<string>, g: bool, v: bool, sections: seq<string>)
    requires sections == (if v then (if g then middle + LinesOf([20]) else middle) + LinesOf([21])
                          else (if g then middle + LinesOf([20]) else middle))
    ensures sections == middle + LinesOf(LowerPart(g, v))
  {
    LinesOfAppend(Opt(g, 20), Opt(v, 21));
    assert LinesOf([]) == [];
  }

  lemma AllLines(u: seq<nat>, m: seq<nat>, l: seq<nat>)
    requires InRange(u) && InRange(m) && InRange(l)
    ensures InRange(u + m) && InRange(u + m + l)
    ensures LinesOf(u + m + l) == LinesOf(u) + LinesOf(m) + LinesOf(l)
  {
    LinesOfAppend(u, m);
    LinesOfAppend(u + m, l);
  }

  /** The survey toggle only appends the last line of the list. */
  lemma SurveyAppendsLastLine(f: PersonaFormData)
    ensures var on := f.(includeSections := f.includeSections.(survey := true));
      var off := f.(includeSections := f.includeSections.(survey := false));
      SectionsList(on) == SectionsList(off) + "\n" + SectionLine(21)
  {
    var on := f.(includeSections := f.includeSections.(survey := true));
    var off := f.(includeSections := f.includeSections.(survey := false));
    SurveyNumber(f);
    LinesOfAppend(SectionNumbers(off), [21]);
    LinesOfSingle(21);
    JoinSnoc(LinesOf(SectionNumbers(off)), SectionLine(21), "\n");
  }

  lemma SurveyNumber(f: PersonaFormData)
    ensures var on := f.(includeSections := f.includeSections.(survey := true));
      var off := f.(includeSections := f.includeSections.(survey := false));
      SectionNumbers(on) == SectionNumbers(off) + [21]
  {
    var g := f.includeSections.interviewGuide;
    assert LowerPart(g, true) == LowerPart(g, false) + [21];
  }

  lemma LinesOfSingle(n: nat)
    requires 1 <= n <= 21
    ensures LinesOf([n]) == [SectionLine(n)]
  {
  }

  /** The demographic item names, in their fixed order. */
  const DemographicOrder: seq<string> := ["age range", "location/region", "gender", "income range"]

  function Toggle(d: DemographicToggles, k: nat): bool
    requires k < 4
  {
    [d.age, d.location, d.gender, d.incomeRange][k]
  }

  function Item(b: bool, name: string): seq<string> {
    if b then [name] else []
  }

  /** The enabled item names, as `includedDemographics` collects them. */
  function DemographicItems(d: DemographicToggles): seq<string> {
    Item(d.age, "age range") + Item(d.location, "location/region")
    + Item(d.gender, "gender") + Item(d.incomeRange, "income range")
  }

  const NotRequired: string := "**Demographics:** Not required for this output."

  const IncludePrefix: string := "**Demographics to include:** "

  function DemographicsInstruction(d: DemographicToggles): string {
    var items := DemographicItems(d);
    if |items| == 0 then NotRequired else IncludePrefix + Join(items, ", ")
  }

  /** `buildDemographicsInstruction`: conditional pushes, then the choice. */
  method BuildDemographicsInstruction(d: DemographicToggles) returns (s: string)
    ensures s == DemographicsInstruction(d)
  {
    var included: seq<string> := [];
    if d.age { included := included + ["age range"]; }
    if d.location { included := included + ["location/region"]; }
    if d.gender { included := included + ["gender"]; }
    if d.incomeRange { included := included + ["income range"]; }
    assert included == DemographicItems(d);
    if |included| == 0 {
      s := NotRequired;
    } else {
      s := IncludePrefix + Join(included, ", ");
    }
  }

  /** `s` is `t` with some elements left out, the rest in their order. */
  predicate SubsequenceOf(s: seq<string>, t: seq<string>)
    decreases |t|
  {
    |s| == 0 || (|t| > 0 && ((s[0] == t[0] && SubsequenceOf(s[1..], t[1..])) || SubsequenceOf(s, t[1..])))
  }

  lemma SubsequenceStep(b: bool, x: string, s: seq<string>, t: seq<string>)
    requires SubsequenceOf(s, t)
    ensures SubsequenceOf(Item(b, x) + s, [x] + t)
  {
    assert ([x] + t)[1..] == t;
    if b {
      assert (Item(b, x) + s)[1..] == s;
    } else {
      assert Item(b, x) + s == s;
    }
  }

  /** The listed items are exactly the enabled ones, in the fixed order. */
  lemma DemographicItemsOrdered(d: DemographicToggles)
    ensures SubsequenceOf(DemographicItems(d), DemographicOrder)
    ensures forall k :: 0 <= k < 4 ==> (DemographicOrder[k] in DemographicItems(d) <==> Toggle(d, k))
    ensures |DemographicItems(d)| == Count(d.age) + Count(d.location) + Count(d.gender) + Count(d.incomeRange)
  {
    DemographicItemsSubsequence(d);
    forall k | 0 <= k < 4
      ensures DemographicOrder[k] in DemographicItems(d) <==> Toggle(d, k)
    {
      DemographicItemAt(d, k);
    }
  }

  lemma DemographicItemsSubsequence(d: DemographicToggles)
    ensures SubsequenceOf(DemographicItems(d), DemographicOrder)
  {
    var i1 := Item(d.location, "location/region") + (Item(d.gender, "gender") + Item(d.incomeRange, "income range"));
    LastThreeSubsequence(d);
    SubsequenceStep(d.age, "age range", i1, DemographicOrder[1..]);
    assert [DemographicOrder[0]] + DemographicOrder[1..] == DemographicOrder;
    assert DemographicItems(d) == Item(d.age, "age range") + i1;
  }

  lemma LastThreeSubsequence(d: DemographicToggles)
    ensures SubsequenceOf(Item(d.location, "location/region") + (Item(d.gender, "gender") + Item(d.incomeRange, "income range")),
                          DemographicOrder[1..])
  {
    var i2 := Item(d.gender, "gender") + Item(d.incomeRange, "income range");
    LastTwoSubsequence(d);
    SubsequenceStep(d.location, "location/region", i2, DemographicOrder[2..]);
    assert [DemographicOrder[1]] + DemographicOrder[2..] == DemographicOrder[1..];
  }

  lemma LastTwoSubsequence(d: DemographicToggles)
    ensures SubsequenceOf(Item(d.gender, "gender") + Item(d.incomeRange, "income range"), DemographicOrder[2..])
  {
    var i3 := Item(d.incomeRange, "income range");
    SubsequenceStep(d.incomeRange, "income range", [], []);
    assert i3 + [] == i3;
    SubsequenceStep(d.gender, "gender", i3, ["income range"]);
    assert ["gender"] + ["income range"] == DemographicOrder[2..];
  }

  /** Item `k` is listed exactly when its toggle is on. */
  lemma DemographicItemAt(d: DemographicToggles, k: nat)
    requires k < 4
    ensures DemographicOrder[k] in DemographicItems(d) <==> Toggle(d, k)
  {
    var names := DemographicOrder;
    assert forall i, j :: 0 <= i < j < 4 ==> names[i] != names[j] by {
      assert names[0][0] == 'a' && names[1][0] == 'l' && names[2][0] == 'g' && names[3][0] == 'i';
    }
    var items := DemographicItems(d);
    assert forall x :: x in items ==> x in names;
  }

  /** The "not required" sentence comes out exactly when every toggle is off;
      otherwise the sentence lists the enabled items. */
  lemma NotRequiredIffNoToggle(d: DemographicToggles)
    ensures DemographicsInstruction(d) == NotRequired <==> !AnyDemographic(d)
    ensures AnyDemographic(d) ==>
      DemographicsInstruction(d) == IncludePrefix + Join(DemographicItems(d), ", ")
  {
    if AnyDemographic(d) {
      var s := DemographicsInstruction(d);
      assert |DemographicItems(d)| > 0;
      assert s[14] == ' ' && NotRequired[14] == ':';
    }
  }

  function Flag(b: bool, text: string): string {
    if b then text else ""
  }

  const EducationLine: string := "\"education\": \"Education level\""

  const DemographicsClose: string := "\n        " + EducationLine + "\n      },"

  /** The `demographics` object of the schema, or nothing. */
  function DemographicsSchema(d: DemographicToggles): string {
    if AnyDemographic(d) then
      "\"demographics\": {\n        " + Flag(d.age, "\"ageRange\": \"e.g., 28-35\",")
      + "\n        " + Flag(d.location, "\"location\": \"e.g., Urban, US\",")
      + "\n        " + Flag(d.gender, "\"gender\": \"e.g., Any\",")
      + "\n        " + Flag(d.incomeRange, "\"incomeRange\": \"e.g., $60k-$90k\",")
      + DemographicsClose
    else ""
  }

  /** The schema carries a demographics object exactly when the list carries
      section 3, and the object always closes with the education field. */
  lemma DemographicsSchemaMatchesList(f: PersonaFormData)
    ensures DemographicsSchema(f.includeDemographics) != "" <==> 3 in SectionNumbers(f)
    ensures DemographicsSchema(f.includeDemographics) != "" ==>
      EndsWith(DemographicsSchema(f.includeDemographics), DemographicsClose)
  {
    SectionMembership(f, 3);
    var s := DemographicsSchema(f.includeDemographics);
    if AnyDemographic(f.includeDemographics) {
      assert s[0] == '"';
    }
  }

  const SchemaHead: string := @"{
  ""personas"": [
    {
      ""id"": ""persona-1"",
      ""type"": ""The [Descriptive Name]"",
      ""tagline"": ""One sentence archetype"",
      ""background"": {
        ""summary"": ""2 sentence overview"",
        ""workContext"": ""Their work environment"",
        ""domainFamiliarity"": ""Low/Medium/High""
      },
"

  const SchemaBody: string := @"
      ""goals"": {
        ""primary"": [""Goal 1"", ""Goal 2""],
        ""successDefinition"": ""What success looks like""
      },
      ""motivations"": {
        ""intrinsic"": [""Motivator 1""],
        ""extrinsic"": [""Motivator 1""],
        ""values"": [""Value 1"", ""Value 2""]
      },
      ""behaviors"": {
        ""routines"": [""Behavior 1"", ""Behavior 2""],
        ""frequency"": ""Daily/Weekly/Monthly"",
        ""preferredChannels"": [""Desktop"", ""Mobile""]
      },
      ""painPoints"": {
        ""challenges"": [""Challenge 1"", ""Challenge 2""],
        ""triggers"": [""Trigger 1""],
        ""concerns"": [""Concern 1""]
      },
      ""needs"": {
        ""core"": [""Need 1"", ""Need 2""],
        ""mustHaves"": [""Must-have 1""],
        ""niceToHaves"": [""Nice-to-have 1""]
      },
      ""tasks"": {
        ""primary"": [""Task 1"", ""Task 2""],
        ""secondary"": [""Task 1""],
        ""highValueScenarios"": [""Scenario 1""]
      },
      ""technology"": {
        ""devices"": [""Device 1""],
        ""tools"": [""Tool 1""],
        ""techComfort"": ""Low/Medium/High""
      },
      ""quotes"": [""Quote expressing their main goal or frustration""],
      ""insights"": {
        ""keyTakeaways"": [""Insight 1"", ""Insight 2""],
        ""designImplications"": [""Implication 1""],
        ""opportunities"": [""Opportunity 1""]
      }
    }
  ]"

  const GuideSchemaText: string := @",
  ""interviewGuide"": {
    ""introduction"": ""Brief intro script"",
    ""warmupQuestions"": [""Question 1"", ""Question 2""],
    ""coreQuestions"": [
      {""category"": ""Goals"", ""questions"": [""Q1"", ""Q2""]},
      {""category"": ""Pain Points"", ""questions"": [""Q1"", ""Q2""]}
    ],
    ""closingQuestions"": [""Final question""]
  }"

  function GuideSchema(interviewGuide: bool): string {
    Flag(interviewGuide, GuideSchemaText)
  }

  /** The schema up to the close of the `personas` array. */
  function PersonasSchema(d: DemographicToggles): string {
    SchemaHead + "      " + DemographicsSchema(d) + SchemaBody
  }

  /** The JSON structure the model is asked to return; the survey toggle
      takes no part in it. */
  function Schema(d: DemographicToggles, interviewGuide: bool): string {
    PersonasSchema(d) + GuideSchema(interviewGuide) + "\n}"
  }

  /** Turning the interview guide on inserts its object right before the
      schema's final "\n}" and changes nothing else. */
  lemma InterviewGuideSchema(d: DemographicToggles)
    ensures var off := Schema(d, false);
      |off| >= 2 && Schema(d, true) == off[..|off| - 2] + GuideSchemaText + off[|off| - 2..]
  {
    var p := PersonasSchema(d);
    assert Schema(d, false) == p + "\n}" by {
      assert GuideSchema(false) == [];
    }
    assert Schema(d, true) == p + GuideSchemaText + "\n}";
    InsertBefore(p, GuideSchemaText, "\n}");
  }

  /** Text inserted between `p` and `t` sits just before the last |t|
      characters of `p + t`. */
  lemma InsertBefore(p: string, g: string, t: string)
    ensures var off := p + t;
      |off| >= |t| && p + g + t == off[..|off| - |t|] + g + off[|off| - |t|..]
  {
    var off := p + t;
    assert off[..|off| - |t|] == p;
    assert off[|off| - |t|..] == t;
  }

  /** `${x ? `heading${x}` : ""}` for the three optional parts: the part is
      empty exactly when its value is. */
  function OptionalPart(heading: string, value: string): (r: string)
    ensures r == "" <==> value == ""
    ensures value != "" ==> StartsWith(r, heading) && EndsWith(r, value)
  {
    if value != "" then heading + value else ""
  }

  const JobHeading: string := "**Job to be Done:** "
  const CompetitorHeading: string := "### Competitor Analysis\n"
  const FilesHeading: string := "### Additional Research Materials\n"

  const Opening: string :=
    "You are an expert user researcher with deep experience in creating actionable user personas for product teams. Your task is to analyze the provided information and generate "
  const OpeningEnd: string := " distinct, realistic user personas."
  const ProductLabel: string := "\n\n## Context\n\n**Product/Feature:** "
  const AudienceLabel: string := "\n\n**Target Audience Description:** "
  const SourceLabel: string := "\n\n## Source Information\n\n### Primary Website\n"
  const InstructionsLabel: string := "\n\n## Instructions\n\nGenerate "
  const InstructionsEnd: string :=
    " distinct user personas that represent different segments of the target audience. Each persona should be realistic, actionable, and grounded in the provided information.\n\nFor each persona, provide the following sections:\n\n"
  const OutputFormat: string :=
    "\n\n## Output Format\n\nReturn ONLY valid JSON (no markdown code blocks). Use this exact structure:\n\n"
  const Guidelines: string :=
    "\n\nGuidelines:\n1. Make each persona distinctly different\n2. Be specific and actionable, not generic\n3. Return ONLY the JSON, no explanations\n4. Ensure valid JSON format"

  /** Everything before the section list. */
  function PromptHead(productName: string, targetAudience: string, jobToBeDone: string, personaCount: nat,
                      websiteContent: string, competitorContent: string, fileContent: string): string
  {
    Opening + NatToString(personaCount) + OpeningEnd
    + ProductLabel + productName
    + AudienceLabel + targetAudience
    + "\n\n" + OptionalPart(JobHeading, jobToBeDone)
    + SourceLabel + websiteContent
    + "\n\n" + OptionalPart(CompetitorHeading, competitorContent)
    + "\n\n" + OptionalPart(FilesHeading, fileContent)
    + InstructionsLabel + NatToString(personaCount)
    + InstructionsEnd
  }

  /** Everything after the section list. It depends on the demographic
      toggles and the interview-guide toggle only: the survey toggle reaches
      the prompt through the section list alone. */
  function PromptTail(d: DemographicToggles, interviewGuide: bool): string {
    "\n\n" + DemographicsInstruction(d) + OutputFormat + Schema(d, interviewGuide) + Guidelines
  }

  /** `buildPersonaPrompt` */
  function BuildPersonaPrompt(c: PromptContext): string {
    var f := c.formData;
    PromptHead(f.productName, f.targetAudience, f.jobToBeDone, f.personaCount,
               c.websiteContent, c.competitorContent, c.fileContent)
    + SectionsList(f)
    + PromptTail(f.includeDemographics, f.includeSections.interviewGuide)
  }

  /** Turning the survey on changes the prompt in one place only: the
      section list gains its last line; the text before and after it is the
      same with the survey on or off. */
  lemma SurveyOnlyAddsListLine(f: PersonaFormData, website: string, competitors: string, files: string)
    ensures var on := f.(includeSections := f.includeSections.(survey := true));
      var off := f.(includeSections := f.includeSections.(survey := false));
      var h := PromptHead(f.productName, f.targetAudience, f.jobToBeDone, f.personaCount, website, competitors, files);
      var t := PromptTail(f.includeDemographics, f.includeSections.interviewGuide);
      && BuildPersonaPrompt(PromptContext(off, website, competitors, files)) == h + SectionsList(off) + t
      && BuildPersonaPrompt(PromptContext(on, website, competitors, files)) == h + (SectionsList(off) + "\n" + SectionLine(21)) + t
  {
    var on := f.(includeSections := f.includeSections.(survey := true));
    var off := f.(includeSections := f.includeSections.(survey := false));
    SurveyAppendsLastLine(f);
    var h := PromptHead(f.productName, f.targetAudience, f.jobToBeDone, f.personaCount, website, competitors, files);
    var t := PromptTail(f.includeDemographics, f.includeSections.interviewGuide);
    SameTail(on, f);
    SameTail(off, f);
    assert BuildPersonaPrompt(PromptContext(on, website, competitors, files)) == h + SectionsList(on) + t;
  }

  lemma SameTail(g: PersonaFormData, f: PersonaFormData)
    requires g.productName == f.productName && g.targetAudience == f.targetAudience
    requires g.jobToBeDone == f.jobToBeDone && g.personaCount == f.personaCount
    requires g.includeDemographics == f.includeDemographics
    requires g.includeSections.interviewGuide == f.includeSections.interviewGuide
    ensures forall w, c, x ::
      (BuildPersonaPrompt(PromptContext(g, w, c, x))
       == PromptHead(f.productName, f.targetAudience, f.jobToBeDone, f.personaCount, w, c, x)
          + SectionsList(g) + PromptTail(f.includeDemographics, f.includeSections.interviewGuide))
  {
  }
}
