/** The input form's state and handlers (components/InputForm.tsx). Each
    handler replaces the component state with a value built from the old one;
    the browser's alert and the rendering are left out. */
module InputForm {
  import opened Wrappers
  import opened Types
  import FileProcessors
  import GenerateRoute

  const MaxCompetitors: nat := 5

  /** The values the persona-count select offers. */
  const PersonaCountOptions: seq<nat> := [2, 3, 4, 5]

  /** `list.filter((_, i) => i !== index)`: position `index` goes, the rest
      keep their order; an index outside the list removes nothing. */
  function Without<T>(s: seq<T>, index: int): (r: seq<T>)
    ensures 0 <= index < |s| ==> r == s[..index] + s[index + 1..]
    ensures !(0 <= index < |s|) ==> r == s
    decreases |s|
  {
    if |s| == 0 then []
    else Without(s[..|s| - 1], index) + (if |s| - 1 == index then [] else [s[|s| - 1]])
  }

  /** The file input keeps exactly the two document MIME types; the name is
      not looked at. */
  predicate IsDocument(u: Upload) {
    u.mimeType == FileProcessors.PdfMime || u.mimeType == FileProcessors.DocxMime
  }

  /** `Array.from(files).filter(...)` */
  function KeepDocuments(fs: seq<Upload>): (r: seq<Upload>)
    ensures |r| <= |fs|
    ensures forall u :: u in r <==> u in fs && IsDocument(u)
    decreases |fs|
  {
    if |fs| == 0 then []
    else KeepDocuments(fs[..|fs| - 1]) + (if IsDocument(fs[|fs| - 1]) then [fs[|fs| - 1]] else [])
  }

  /** Filtering two selections one after the other keeps the same files, in
      the same order, as filtering them together. */
  lemma {:induction false} KeepDocumentsAppend(a: seq<Upload>, b: seq<Upload>)
    ensures KeepDocuments(a + b) == KeepDocuments(a) + KeepDocuments(b)
    decreases |b|
  {
    if |b| == 0 {
      assert a + b == a;
    } else {
      var b' := b[..|b| - 1];
      assert (a + b)[..|a + b| - 1] == a + b';
      assert (a + b)[|a + b| - 1] == b[|b| - 1];
      KeepDocumentsAppend(a, b');
    }
  }

  /** A file with a ".pdf" name but no matching MIME type is dropped here,
      although the server would route it by its name. */
  lemma NoExtensionFallback(name: string, data: seq<bv8>)
    ensures KeepDocuments([Upload(name + ".pdf", "", data)]) == []
  {
    assert [Upload(name + ".pdf", "", data)][..0] == [];
  }

  /** Every file the form keeps is one the server's `processFile` accepts:
      it never reaches the unsupported-type error. */
  lemma KeptFilesAreSupported(u: Upload)
    requires IsDocument(u)
    ensures FileProcessors.RoutesToPdf(u) || FileProcessors.RoutesToDocx(u)
  {
  }

  datatype SectionKey = InterviewGuideKey | SurveyKey | JourneyMapKey

  datatype DemographicKey = AgeKey | LocationKey | GenderKey | IncomeRangeKey

  function SectionOn(t: SectionToggles, k: SectionKey): bool {
    match k
    case InterviewGuideKey => t.interviewGuide
    case SurveyKey => t.survey
    case JourneyMapKey => t.journeyMap
  }

  function DemographicOn(t: DemographicToggles, k: DemographicKey): bool {
    match k
    case AgeKey => t.age
    case LocationKey => t.location
    case GenderKey => t.gender
    case IncomeRangeKey => t.incomeRange
  }

  /** `{ ...includeSections, [key]: checked }`: only that key changes. */
  function WithSection(t: SectionToggles, k: SectionKey, checked: bool): (r: SectionToggles)
    ensures SectionOn(r, k) == checked
    ensures forall k' :: k' != k ==> SectionOn(r, k') == SectionOn(t, k')
  {
    match k
    case InterviewGuideKey => t.(interviewGuide := checked)
    case SurveyKey => t.(survey := checked)
    case JourneyMapKey => t.(journeyMap := checked)
  }

  /** `{ ...includeDemographics, [key]: checked }`: only that key changes. */
  function WithDemographic(t: DemographicToggles, k: DemographicKey, checked: bool): (r: DemographicToggles)
    ensures DemographicOn(r, k) == checked
    ensures forall k' :: k' != k ==> DemographicOn(r, k') == DemographicOn(t, k')
  {
    match k
    case AgeKey => t.(age := checked)
    case LocationKey => t.(location := checked)
    case GenderKey => t.(gender := checked)
    case IncomeRangeKey => t.(incomeRange := checked)
  }

  /** The four text inputs of the form. */
  datatype TextField = ProductName | WebsiteUrl | TargetAudience | JobToBeDone

  function TextOf(f: PersonaFormData, field: TextField): string {
    match field
    case ProductName => f.productName
    case WebsiteUrl => f.websiteUrl
    case TargetAudience => f.targetAudience
    case JobToBeDone => f.jobToBeDone
  }

  /** `{ ...formData, [field]: value }` for a text input. */
  function WithText(f: PersonaFormData, field: TextField, value: string): (r: PersonaFormData)
    ensures TextOf(r, field) == value
    ensures forall g :: g != field ==> TextOf(r, g) == TextOf(f, g)
    ensures r.competitorUrls == f.competitorUrls && r.personaCount == f.personaCount
    ensures r.includeSections == f.includeSections && r.includeDemographics == f.includeDemographics
  {
    match field
    case ProductName => f.(productName := value)
    case WebsiteUrl => f.(websiteUrl := value)
    case TargetAudience => f.(targetAudience := value)
    case JobToBeDone => f.(jobToBeDone := value)
  }

  /** The check `handleSubmit` makes before calling `onSubmit`. */
  predicate CanSubmit(f: PersonaFormData) {
    f.productName != "" && f.targetAudience != ""
  }

  /** A form the client lets through also passes the server's
      required-field check: once the key is set and the form text decodes
      to this form, the generation route accepts it. */
  lemma SubmittedFormAccepted(apiKey: string, s: GenerateRoute.Submission,
                              decode: string -> Result<PersonaFormData, GenerateRoute.Thrown>, f: PersonaFormData)
    requires apiKey != "" && GenerateRoute.HasFormText(s)
    requires decode(s.formData.text) == Ok(f) && CanSubmit(f)
    ensures GenerateRoute.ValidateRequest(apiKey, Ok(s), decode) == GenerateRoute.Accept(f)
  {
  }

  class Form {
    var formData: PersonaFormData
    var newCompetitorUrl: string
    var uploadedFiles: seq<Upload>

    /** The competitor list never holds more than five entries and the
        persona count is one the select offers. */
    predicate Valid()
      reads this
    {
      |formData.competitorUrls| <= MaxCompetitors && formData.personaCount in PersonaCountOptions
    }

    /** The initial state: three personas, no competitors, interview guide
        and journey map on, survey off, age and location on. */
    constructor ()
      ensures Valid()
      ensures formData.productName == "" && formData.websiteUrl == ""
      ensures formData.targetAudience == "" && formData.jobToBeDone == ""
      ensures formData.competitorUrls == [] && formData.personaCount == 3
      ensures formData.includeSections == SectionToggles(true, false, true)
      ensures formData.includeDemographics == DemographicToggles(true, true, false, false)
      ensures newCompetitorUrl == "" && uploadedFiles == []
    {
      formData := PersonaFormData("", "", "", [], "", 3,
        SectionToggles(true, false, true), DemographicToggles(true, true, false, false));
      newCompetitorUrl := "";
      uploadedFiles := [];
    }

    /** A text input's `onChange`. */
    method SetText(field: TextField, value: string)
      requires Valid()
      modifies this
      ensures Valid()
      ensures formData == WithText(old(formData), field, value)
      ensures newCompetitorUrl == old(newCompetitorUrl) && uploadedFiles == old(uploadedFiles)
    {
      formData := WithText(formData, field, value);
    }

    /** The competitor input's `onChange`. */
    method SetNewCompetitorUrl(value: string)
      requires Valid()
      modifies this
      ensures Valid()
      ensures newCompetitorUrl == value
      ensures formData == old(formData) && uploadedFiles == old(uploadedFiles)
    {
      newCompetitorUrl := value;
    }

    /** `addCompetitorUrl`: appends the typed URL and clears the input when
        the input is non-empty and fewer than five are listed; otherwise
        nothing changes. */
    method AddCompetitorUrl()
      requires Valid()
      modifies this
      ensures Valid()
      ensures old(newCompetitorUrl) != "" && |old(formData.competitorUrls)| < MaxCompetitors ==>
        && formData == old(formData).(competitorUrls := old(formData.competitorUrls) + [old(newCompetitorUrl)])
        && newCompetitorUrl == ""
      ensures !(old(newCompetitorUrl) != "" && |old(formData.competitorUrls)| < MaxCompetitors) ==>
        formData == old(formData) && newCompetitorUrl == old(newCompetitorUrl)
      ensures uploadedFiles == old(uploadedFiles)
    {
      if newCompetitorUrl != "" && |formData.competitorUrls| < MaxCompetitors {
        formData := formData.(competitorUrls := formData.competitorUrls + [newCompetitorUrl]);
        newCompetitorUrl := "";
      }
    }

    /** `removeCompetitorUrl(index)` */
    method RemoveCompetitorUrl(index: int)
      requires Valid()
      modifies this
      ensures Valid()
      ensures formData == old(formData).(competitorUrls := Without(old(formData.competitorUrls), index))
      ensures newCompetitorUrl == old(newCompetitorUrl) && uploadedFiles == old(uploadedFiles)
    {
      formData := formData.(competitorUrls := Without(formData.competitorUrls, index));
    }

    /** `handleFileChange`: a missing file list changes nothing; otherwise
        the selected documents follow the files already listed. */
    method HandleFileChange(files: Option<seq<Upload>>)
      requires Valid()
      modifies this
      ensures Valid()
      ensures files.None? ==> uploadedFiles == old(uploadedFiles)
      ensures files.Some? ==> uploadedFiles == old(uploadedFiles) + KeepDocuments(files.value)
      ensures formData == old(formData) && newCompetitorUrl == old(newCompetitorUrl)
    {
      if files.Some? {
        uploadedFiles := uploadedFiles + KeepDocuments(files.value);
      }
    }

    /** `removeFile(index)` */
    method RemoveFile(index: int)
      requires Valid()
      modifies this
      ensures Valid()
      ensures uploadedFiles == Without(old(uploadedFiles), index)
      ensures formData == old(formData) && newCompetitorUrl == old(newCompetitorUrl)
    {
      uploadedFiles := Without(uploadedFiles, index);
    }

    /** The select's `onChange`; its options are the only values it yields. */
    method SetPersonaCount(count: nat)
      requires Valid() && count in PersonaCountOptions
      modifies this
      ensures Valid()
      ensures formData == old(formData).(personaCount := count)
      ensures newCompetitorUrl == old(newCompetitorUrl) && uploadedFiles == old(uploadedFiles)
    {
      formData := formData.(personaCount := count);
    }

    /** A section checkbox's `onChange`. */
    method SetSection(k: SectionKey, checked: bool)
      requires Valid()
      modifies this
      ensures Valid()
      ensures formData == old(formData).(includeSections := WithSection(old(formData.includeSections), k, checked))
      ensures newCompetitorUrl == old(newCompetitorUrl) && uploadedFiles == old(uploadedFiles)
    {
      formData := formData.(includeSections := WithSection(formData.includeSections, k, checked));
    }

    /** A demographics checkbox's `onChange`. */
    method SetDemographic(k: DemographicKey, checked: bool)
      requires Valid()
      modifies this
      ensures Valid()
      ensures formData == old(formData).(includeDemographics := WithDemographic(old(formData.includeDemographics), k, checked))
      ensures newCompetitorUrl == old(newCompetitorUrl) && uploadedFiles == old(uploadedFiles)
    {
      formData := formData.(includeDemographics := WithDemographic(formData.includeDemographics, k, checked));
    }

    /** `handleSubmit`: hands the form and the files to `onSubmit` exactly
        when both required texts are filled in. */
    method Submit() returns (r: Option<(PersonaFormData, seq<Upload>)>)
      ensures r.Some? <==> CanSubmit(formData)
      ensures r.Some? ==> r.value == (formData, uploadedFiles)
    {
      if formData.productName == "" || formData.targetAudience == "" {
        r := None;
      } else {
        r := Some((formData, uploadedFiles));
      }
    }
  }
}
