/** The records shared by the client, the generation route and the document
    renderer (types/index.ts). Optional properties are `Option`s. */
module Types {
  import opened Wrappers

  datatype SectionToggles = SectionToggles(interviewGuide: bool, survey: bool, journeyMap: bool)

  datatype DemographicToggles = DemographicToggles(age: bool, location: bool, gender: bool, incomeRange: bool)

  /** The one user input: what the form collects and the server receives. */
  datatype PersonaFormData = PersonaFormData(
    productName: string,
    websiteUrl: string,
    targetAudience: string,
    competitorUrls: seq<string>,
    jobToBeDone: string,
    personaCount: nat,
    includeSections: SectionToggles,
    includeDemographics: DemographicToggles)

  /** A file as the browser hands it over: name, declared MIME type, bytes. */
  datatype Upload = Upload(name: string, mimeType: string, data: seq<bv8>)

  datatype Background = Background(summary: string, workContext: string, domainFamiliarity: string)

  datatype Demographics = Demographics(
    ageRange: Option<string>,
    location: Option<string>,
    gender: Option<string>,
    education: Option<string>,
    incomeRange: Option<string>)

  datatype Role = Role(title: string, responsibilities: seq<string>, teamStructure: string, decisionAuthority: string)

  datatype Goals = Goals(primary: seq<string>, successDefinition: string)

  datatype Motivations = Motivations(intrinsic: seq<string>, extrinsic: seq<string>, values: seq<string>)

  datatype Needs = Needs(core: seq<string>, mustHaves: seq<string>, niceToHaves: seq<string>)

  datatype Behaviors = Behaviors(routines: seq<string>, frequency: string, preferredChannels: seq<string>)

  datatype PainPoints = PainPoints(challenges: seq<string>, triggers: seq<string>, concerns: seq<string>)

  datatype Tasks = Tasks(primary: seq<string>, secondary: seq<string>, highValueScenarios: seq<string>)

  datatype JourneySnapshot = JourneySnapshot(discover: string, evaluate: string, adopt: string, use: string, advocate: string)

  datatype UseContext = UseContext(environment: string, timing: string, constraints: seq<string>)

  datatype Technology = Technology(devices: seq<string>, tools: seq<string>, techComfort: string)

  datatype Accessibility = Accessibility(considerations: seq<string>, assistiveTech: Option<seq<string>>)

  datatype Communication = Communication(preferredTone: string, terminologyLevel: string)

  datatype Objections = Objections(barriers: seq<string>, switchingCosts: seq<string>, requirements: Option<seq<string>>)

  datatype Insights = Insights(keyTakeaways: seq<string>, designImplications: seq<string>, opportunities: seq<string>)

  datatype Assumptions = Assumptions(validated: seq<string>, toResearch: seq<string>)

  datatype Persona = Persona(
    id: string,
    kind: string,  // the `type` property
    tagline: string,
    background: Background,
    demographics: Option<Demographics>,
    role: Option<Role>,
    goals: Goals,
    motivations: Motivations,
    needs: Needs,
    behaviors: Behaviors,
    painPoints: PainPoints,
    tasks: Tasks,
    journeySnapshot: Option<JourneySnapshot>,
    context: UseContext,
    technology: Technology,
    accessibility: Option<Accessibility>,
    communication: Communication,
    objections: Objections,
    quotes: seq<string>,
    scenarios: seq<string>,
    insights: Insights,
    assumptions: Assumptions)

  datatype QuestionCategory = QuestionCategory(category: string, questions: seq<string>)

  datatype InterviewGuide = InterviewGuide(
    introduction: string,
    warmupQuestions: seq<string>,
    coreQuestions: seq<QuestionCategory>,
    closingQuestions: seq<string>)

  datatype QuestionType = MultipleChoice | Scale | OpenEnded

  datatype SurveyQuestion = SurveyQuestion(question: string, questionType: QuestionType, options: Option<seq<string>>)

  datatype SurveySection = SurveySection(name: string, questions: seq<SurveyQuestion>)

  datatype SurveyGuide = SurveyGuide(title: string, sections: seq<SurveySection>)

  datatype GenerationResult = GenerationResult(
    personas: seq<Persona>,
    interviewGuide: Option<InterviewGuide>,
    surveyGuide: Option<SurveyGuide>,
    generatedAt: string,
    productName: string)
}
