# Persona Builder — a Dafny model of its core

Persona Builder is a Next.js application. A user describes a product and its audience, and may add a website, competitor URLs and research documents. A language model then writes a set of user personas. The result can be downloaded as a PDF.

This project models the parts of the program that decide what happens:

- **the job store**: create with a one-hour sweep, look up, merge-update, and the job id format;
- **the generation endpoint**:
  - request validation;
  - gathering the website, competitor and document text;
  - the order and values of its progress events;
  - extracting the JSON answer from the model's text;
  - stamping the answer with its metadata;
- **prompt assembly**: the numbered section list, the demographics sentence, the JSON schema and the final prompt;
- **text shaping**: reader-service summaries and document extracts, each cut to its limit;
- **the browser page**:
  - its screen state machine;
  - reading the event stream line by line;
  - the error and abort handling;
- **the input form**: its state and its updates;
- **the progress view**: each step's status and label, and the elapsed-time text;
- **the PDF document's page bookkeeping**: the page sequence, the footers, and what each page shows;
- **the download endpoint**: validation, the file name and the response.

Everything the program cannot see into is a parameter of the model:

- the language model's stream (`GenerateRoute.ModelRun`);
- the reader service's HTTP exchange (`WebsiteFetcher.Transport`);
- the PDF and DOCX text extractors (`FileProcessors.Extractor`);
- `JSON.parse` (a `parse` function);
- the PDF renderer (`render`);
- the clock (`now`, `createdAt`, `sweepNow`);
- the random id suffix;
- the environment's API keys.

Stateful code is modelled as classes:

- `JobStore.Store` for the module-level `Map`;
- `InputForm.Form` for the form component's state;
- `HomePage.Home` for the page component's state.

There is one module per source file. Shared pieces live in `Wrappers`, `Strings`, `Json` and `Types`. Each method that has a loop in the source is proved against a specification function. Examples are the job sweep, the upload loop, the section-list pushes and the stream reader. The properties the program relies on are lemmas about those functions.

The specification and the code disagree in one place. The specification says that a job in a terminal state is never changed, but `updateJob` (lib/job-store.ts:49-54) has no such guard. The model follows the code, and `JobStore.NoTerminalGuard` states the consequence.

Two details from the page are also modelled as written. The content-progress update reads the `progress` value captured when the handler was created (app/page.tsx:122), so `HomePage.ContentProgress` takes that value as the explicit parameter `captured`, and `HomePage.Home.Submit` passes the `progress` field as it was when the form was submitted. The filename built at app/page.tsx:197 is the same expression as the download route's, and both are `DownloadRoute.PdfFilename`.

The two slips listed under "## Findings" are modelled as written too: `HomePage.Home.Submit` and `PdfGenerator.Document` do what the code does. The corrected behaviour is `HomePage.Submitted` and `PdfGenerator.CorrectedDocument`, and the lemmas for the intended property are stated about those.

## Model

| member | source | states |
|---|---|---|
| JobStore.NewJob | lib/job-store.ts:26-31 | a new job is pending, has progress 0, carries no result and no error, and records its creation time |
| JobStore.Store.CreateJob | lib/job-store.ts:25-43 | the loop inserts the job, then deletes exactly the records created strictly before one hour earlier than the second clock reading |
| JobStore.Sweep | lib/job-store.ts:35-40 | a record survives exactly when its createdAt is no earlier than the cutoff; survivors are unchanged |
| JobStore.CreateJobOutcome | lib/job-store.ts:25-43 | after a create, no record older than the cutoff remains; the new job is stored unless more than an hour passed between the two clock readings; other recent records are untouched; nothing new appears |
| JobStore.FreshJobSurvivesSweep | lib/job-store.ts:30-40 | the new job survives its own sweep exactly when the two clock readings are at most one hour apart |
| JobStore.Store.GetJob | lib/job-store.ts:45-47 | the lookup returns the record exactly when the id is stored, and that record's value |
| JobStore.Store.UpdateJob | lib/job-store.ts:49-54 | an unknown id changes nothing; otherwise only that record changes, to the merge |
| JobStore.Merge | lib/job-store.ts:52 | every supplied field overwrites and every field not supplied keeps its value |
| JobStore.MergeNothing | lib/job-store.ts:52 | an empty update leaves the job as it was |
| JobStore.NoTerminalGuard | lib/job-store.ts:49-54 | a completed or failed job can be moved to any status |
| JobStore.JobId | lib/job-store.ts:56-58 | an id begins with "job_" |
| JobStore.JobIdInjective | lib/job-store.ts:56-58 | the time and the suffix can be recovered from an id, so distinct pairs give distinct ids |
| FileProcessors.ProcessPdf | lib/fileProcessors.ts:18-30 | succeeds exactly when the extractor does, keeping the name with kind "pdf"; otherwise fails with "Failed to process PDF: " and the name |
| FileProcessors.ProcessDocx | lib/fileProcessors.ts:35-47 | the same for DOCX, with kind "docx" and its own message |
| FileProcessors.ProcessFile | lib/fileProcessors.ts:52-68 | a PDF MIME type or a ".pdf" name goes to PDF first; then a DOCX MIME type or a ".docx" name goes to DOCX; anything else gives "Unsupported file type: " and the MIME type |
| FileProcessors.ProcessFileSuccess | lib/fileProcessors.ts:52-68 | a success keeps the upload's name; its kind names the route taken; its content is that extractor's text |
| FileProcessors.ProcessFilesAppend | lib/fileProcessors.ts:73-86 | processing two batches gives the concatenation of their results: the successes, in input order |
| FileProcessors.ProcessFilesSnoc | lib/fileProcessors.ts:73-86 | one more upload appends its result when it succeeds and changes nothing when it fails |
| FileProcessors.ProcessFilesMembership | lib/fileProcessors.ts:73-86 | a processed file is in the result exactly when some upload produced it |
| FileProcessors.FileBlock | lib/fileProcessors.ts:96-99 | a block begins with the heading line that names the file |
| FileProcessors.FormatFilesSnoc | lib/fileProcessors.ts:91-102 | adding a file appends a blank-line separator and its block, leaving the earlier text unchanged |
| FileProcessors.FormatSingleFile | lib/fileProcessors.ts:91-102 | a single file gives just its block; the text is cut to 5000 characters, with "..." only when it was longer |
| WebsiteFetcher.ReaderRequestFor | lib/websiteFetcher.ts:27-46 | the request goes to the reader URL followed by the page URL and asks for JSON; it carries a bearer header exactly when a key is configured |
| WebsiteFetcher.OrElse | lib/websiteFetcher.ts:55-58 | `a \|\| b` on text: the value unless it is missing or empty |
| WebsiteFetcher.FetchWebsiteContent | lib/websiteFetcher.ts:60-65 | every failure gives the single "may be blocking automated access" message for that URL |
| WebsiteFetcher.FetchOutcome | lib/websiteFetcher.ts:42-65 | a fetch succeeds exactly on a readable reply with an ok status; missing fields take their defaults ("Unknown" title, empty description and content, the requested URL) |
| WebsiteFetcher.FetchMultipleAppend | lib/websiteFetcher.ts:68-81 | failed fetches are dropped and the rest keep their order, so fetching two lists gives the concatenation |
| WebsiteFetcher.SummaryShape | lib/websiteFetcher.ts:86-102 | the summary is the title, URL and description lines, then the page text cut to 8000 characters with "..."; only the whitespace at the very end is trimmed |
| GenerateRoute.MessageOf | app/api/generate/route.ts:208-209 | an Error gives its message; any other thrown value gives the fallback |
| GenerateRoute.ValidateRequest | app/api/generate/route.ts:16-47 | the checks run in order (missing key 500, unreadable body 500, missing form text 400, unparsable JSON 500, missing required field 400); a request is accepted exactly when every check passes |
| GenerateRoute.RequiredFieldsRejected | app/api/generate/route.ts:41-46 | an empty product name (among others) is refused with 400 "Missing required fields" |
| GenerateRoute.WebsiteSection | app/api/generate/route.ts:60-71 | no URL gives empty text; a successful fetch gives its summary; a failed fetch gives the "could not be fetched" note; a URL always gives some text |
| GenerateRoute.SiteSummaryNonEmpty | lib/websiteFetcher.ts:94-101 | a site summary is never empty |
| GenerateRoute.CompetitorSectionSnoc | app/api/generate/route.ts:76-84 | one more competitor URL adds nothing when its fetch fails; when it succeeds, its summary is appended after the "---" separator, or stands alone with no separator when every earlier fetch failed |
| GenerateRoute.FirstCompetitor | app/api/generate/route.ts:76-84 | the first competitor whose fetch succeeds gives exactly its summary, with no separator before it |
| GenerateRoute.FileSection | app/api/generate/route.ts:89-104 | the file section formats exactly the uploads that were processed successfully |
| GenerateRoute.ReadUploads | app/api/generate/route.ts:92-104 | the upload loop skips failures and formats the successes once, equal to GenerateRoute.FileSection |
| GenerateRoute.Estimate | app/api/generate/route.ts:147-150 | the in-stream estimate lies between 50 and 95 and is 95 from 20000 characters on |
| GenerateRoute.EstimateMonotone | app/api/generate/route.ts:147-150 | a longer response never has a lower estimate |
| GenerateRoute.EventsFor | app/api/generate/route.ts:135-157 | a text delta sends a content event carrying its text, then a "generating" progress event for the length so far; other events send nothing |
| GenerateRoute.Finish | app/api/generate/route.ts:160-212 | the final event is terminal; it is "complete" exactly when extraction and stamping both succeed, and then it carries the stamped result |
| GenerateRoute.Outcome | app/api/generate/route.ts:160-212 | a model failure gives just its error event; otherwise one "formatting" 95 event precedes the terminal one |
| GenerateRoute.TraceShape | app/api/generate/route.ts:56-212 | the stream starts with the four gathering checkpoints and "generating" 50, ends with exactly one terminal event, and its progress never decreases, rising from 10 to at most 95 |
| GenerateRoute.TraceContent | app/api/generate/route.ts:135-157 | the content events of the stream join into exactly the text the model sent |
| GenerateRoute.ContentReassembles | app/api/generate/route.ts:140-144 | the content events join into exactly the concatenated text deltas |
| GenerateRoute.Generate | app/api/generate/route.ts:117-212 | the streaming loop emits exactly the specified event sequence |
| GenerateRoute.Gather | app/api/generate/route.ts:57-114 | the gathering steps build the prompt context and emit the four checkpoint events in order |
| GenerateRoute.Stream | app/api/generate/route.ts:51-213 | the stream body is the gathered checkpoints followed by the generation events for the built prompt |
| GenerateRoute.Post | app/api/generate/route.ts:16-232 | a refused request gets its status and error as JSON; an accepted one gets the event-stream headers and the specified events |
| GenerateRoute.CloseFrom | app/api/generate/route.ts:170 | finds the first position, at or after the given one, where the lazy group can stop: a closing fence, or a newline followed by one; -1 when there is none |
| GenerateRoute.FencedBlockExists | app/api/generate/route.ts:170 | the fence pattern matches exactly when the text has two non-overlapping fences |
| GenerateRoute.FencedBlockHasNoFence | app/api/generate/route.ts:170 | the captured block contains no fence |
| GenerateRoute.BraceSlice | app/api/generate/route.ts:179-183 | there is a slice exactly when both braces occur; it runs from the first '{' through the last '}', and is empty when that '}' comes before the '{' |
| GenerateRoute.Extract | app/api/generate/route.ts:163-191 | the attempts run in order: the trimmed text, then the fenced block (whose failure is final, "Failed to parse generated personas"), then the brace slice; a parsed fenced block or brace slice is the result; "No valid JSON found in response" comes exactly when the text fails, no fence matches, and the brace slice is missing or fails |
| GenerateRoute.FenceIsFinal | app/api/generate/route.ts:170-176 | once the fence matches, the brace slice is never consulted |
| GenerateRoute.Stamp | app/api/generate/route.ts:193-195 | an object gains or overwrites generatedAt and productName and keeps every other key; an array is unchanged; null or a primitive throws |
| PersonaPrompt.SectionNumbersAscending | lib/personaPrompt.ts:134-187 | the listed section numbers strictly ascend through 1..21 |
| PersonaPrompt.SectionCount | lib/personaPrompt.ts:134-187 | 17 sections always, plus one for each condition that holds |
| PersonaPrompt.SectionMembership | lib/personaPrompt.ts:134-187 | a section is listed exactly when its condition holds: 3 when any demographic is on, 11, 20 and 21 for their toggles |
| PersonaPrompt.BuildSectionsList | lib/personaPrompt.ts:134-187 | the conditional pushes and the newline join build the specified section list |
| PersonaPrompt.SurveyAppendsLastLine | lib/personaPrompt.ts:180-184 | turning the survey on only appends section 21's line |
| PersonaPrompt.BuildDemographicsInstruction | lib/personaPrompt.ts:189-204 | the conditional pushes build the specified sentence |
| PersonaPrompt.DemographicItemsOrdered | lib/personaPrompt.ts:189-198 | the items are exactly the enabled ones, in their fixed order |
| PersonaPrompt.NotRequiredIffNoToggle | lib/personaPrompt.ts:199-203 | the "not required" sentence appears exactly when every toggle is off; otherwise the sentence lists the items separated by commas |
| PersonaPrompt.DemographicsSchemaMatchesList | lib/personaPrompt.ts:67-73 | the schema has a demographics object exactly when section 3 is listed, and the object closes with the education field |
| PersonaPrompt.InterviewGuideSchema | lib/personaPrompt.ts:115-125 | the interview-guide toggle inserts its object just before the schema's closing brace and changes nothing else |
| PersonaPrompt.OptionalPart | lib/personaPrompt.ts:31-40 | an optional part is empty exactly when its value is empty; otherwise it is the heading followed by the value |
| PersonaPrompt.SurveyOnlyAddsListLine | lib/personaPrompt.ts:14-132 | turning the survey on changes the prompt only by one extra line in the section list |
| GenerationProgress.StepIndex | components/GenerationProgress.tsx:31-33 | the index of the step with that id, or -1 exactly when no step has it |
| GenerationProgress.StatusOf | components/GenerationProgress.tsx:92-93 | a step is done before the current index and current at it |
| GenerationProgress.StatusesShape | components/GenerationProgress.tsx:91-93 | a known step is current, the earlier ones are done and the later ones waiting; for an unknown step all are waiting |
| GenerationProgress.CurrentIsUnique | components/GenerationProgress.tsx:91-93 | exactly one step is current when the step is known, and none otherwise |
| GenerationProgress.FallbackIffUnknown | components/GenerationProgress.tsx:81 | "Processing..." is shown exactly for an unknown step |
| GenerationProgress.FormatTime | components/GenerationProgress.tsx:25-29 | seconds alone below one minute; otherwise minutes and the remaining seconds |
| GenerationProgress.FormatTimeReadsBack | components/GenerationProgress.tsx:25-29 | the text reads back as the elapsed seconds |
| GenerationProgress.FormatTimeInjective | components/GenerationProgress.tsx:25-29 | different times never show the same text |
| InputForm.Without | components/InputForm.tsx:55-60 | filtering out an index removes exactly that element; an index out of range removes nothing |
| InputForm.KeepDocuments | components/InputForm.tsx:65-70 | a file is kept exactly when its MIME type is PDF or DOCX; the result is never longer than the input |
| InputForm.KeepDocumentsAppend | components/InputForm.tsx:65-71 | filtering two selections gives the concatenation of the filtered selections |
| InputForm.NoExtensionFallback | components/InputForm.tsx:65-70 | a ".pdf" name without the MIME type is not kept (the route would accept it by its name) |
| InputForm.KeptFilesAreSupported | components/InputForm.tsx:65-70 | every kept file is one the server knows how to process |
| InputForm.WithSection | components/InputForm.tsx:319-326 | only the toggled section changes |
| InputForm.WithDemographic | components/InputForm.tsx:358-365 | only the toggled demographic changes |
| InputForm.WithText | components/InputForm.tsx:97-99 | only the edited text field changes |
| InputForm.SubmittedFormAccepted | components/InputForm.tsx:36-43 | a form that passes the client check passes the endpoint's required-field check |
| InputForm.Form.constructor | components/InputForm.tsx:13-34 | the initial form: empty fields, 3 personas, the default toggles, no URLs and no files |
| InputForm.Form.SetText | components/InputForm.tsx:97-99 | one text field changes; everything else stays the same |
| InputForm.Form.SetNewCompetitorUrl | components/InputForm.tsx:185 | only the pending URL changes |
| InputForm.Form.AddCompetitorUrl | components/InputForm.tsx:45-53 | a non-empty pending URL is appended and the input cleared while there are fewer than 5; otherwise nothing changes |
| InputForm.Form.RemoveCompetitorUrl | components/InputForm.tsx:55-60 | the URL at that index is removed |
| InputForm.Form.HandleFileChange | components/InputForm.tsx:62-73 | no file list changes nothing; otherwise the supported files are appended |
| InputForm.Form.RemoveFile | components/InputForm.tsx:75-77 | the file at that index is removed |
| InputForm.Form.SetPersonaCount | components/InputForm.tsx:284-294 | the count becomes the chosen option |
| InputForm.Form.SetSection | components/InputForm.tsx:314-326 | only that section toggle changes |
| InputForm.Form.SetDemographic | components/InputForm.tsx:353-365 | only that demographic toggle changes |
| InputForm.Form.Submit | components/InputForm.tsx:36-43 | the form is handed on, with its files, exactly when product name and audience are both non-empty |
| HomePage.BackHandler | app/page.tsx:208-219 | form goes back to landing, generating cancels, complete starts over, and landing has no back action |
| HomePage.ContentProgress | app/page.tsx:115-122 | the content progress is never below the captured value, is at most 95 unless the captured value was higher, and reaches 95 at 95% of the expected length |
| HomePage.ContentProgressMonotone | app/page.tsx:118-122 | more content never lowers the estimate |
| HomePage.ContentAfterCompletedRun | app/page.tsx:122 | a run started after a completed one, whose captured progress is 100, shows 100 on every content event |
| HomePage.HandleLine | app/page.tsx:107-138 | a line without the "data: " prefix changes nothing |
| HomePage.OnlyEndOfInputSkipped | app/page.tsx:131-137 | a parse error is skipped exactly when it is "Unexpected end of JSON input"; any other aborts the read |
| HomePage.EventEffects | app/page.tsx:112-130 | progress shows its step and value; content appends to the buffer; complete sets 100, stores the result and moves to the complete screen; an error event throws its message |
| HomePage.HandleChunksConsistent | app/page.tsx:100-140 | while reading, the screen says generating until a complete event and complete from then on |
| HomePage.FailureSticksChunks | app/page.tsx:100-140 | once a line throws, the rest of the stream is ignored |
| HomePage.UserMessage | app/page.tsx:151-155 | a message that mentions "fetch" or "network" becomes the network-error text; any other is kept |
| HomePage.Settle | app/page.tsx:146-159 | a failure returns to the form: an abort shows no error, any other failure shows its message; without a failure the reading state stands |
| HomePage.SubmittedAsWritten | app/page.tsx:53-160 | the screen after a submit as written: the request's settled outcome, with the incomplete-stream check reading the state captured on the form screen |
| HomePage.LiveGuardNeverStuck | app/page.tsx:142-145 | with the corrected check, a submit always ends on the complete screen or the form, never on generating |
| HomePage.StaleGuardLeavesGenerating | app/page.tsx:142-145 | as written, a stream that closes without events leaves the page on generating with no error |
| HomePage.ServerErrorShown | app/page.tsx:77-89 | a refused request shows the server's error text on the form |
| HomePage.FetchFailureShownAsNetworkError | app/page.tsx:71-75 | a failed fetch shows the network-error text |
| HomePage.AbortIsQuiet | app/page.tsx:147-149 | an aborted request returns to the form with no error |
| HomePage.Home.constructor | app/page.tsx:15-22 | landing, no result, progress 0, step "fetching", no error, no controller |
| HomePage.Home.GetStarted | app/page.tsx:25-27 | only the screen changes, to the form |
| HomePage.Home.BackToLanding | app/page.tsx:29-31 | only the screen changes, to landing |
| HomePage.Home.Cancel | app/page.tsx:162-167 | an existing controller is aborted and the screen goes to landing |
| HomePage.Home.GenerateNew | app/page.tsx:169-172 | the result is cleared and the screen goes to landing |
| HomePage.Home.Back | app/page.tsx:207-231 | the back button runs the handler for the current screen, or nothing on landing; on the generating screen it aborts the controller when there is one |
| HomePage.Home.ReadStream | app/page.tsx:100-140 | the reading loops give exactly the specified fold over chunks and lines |
| HomePage.Home.ReadLines | app/page.tsx:107-138 | the line loop of one chunk gives exactly the line handler folded over its lines, stopping at the first line that throws |
| HomePage.Home.Submit | app/page.tsx:53-160 | as written: the resulting screen is the settled outcome of the request (HomePage.SubmittedAsWritten), where content events compare against the progress the page showed when the form was submitted and the incomplete-stream check reads the form state; a new, not yet aborted controller |
| PdfGenerator.Take | lib/pdfGenerator.tsx:312 | `slice(0, n)`: the first n items, or all of them when there are fewer |
| PdfGenerator.DemographicFields | lib/pdfGenerator.tsx:262-278 | at most four fields, each with a value |
| PdfGenerator.DemographicFieldsExact | lib/pdfGenerator.tsx:262-278 | age, location, education and income show exactly when present and non-empty; gender is never shown |
| PdfGenerator.OverviewOf | lib/pdfGenerator.tsx:223-346 | "Persona i+1 of n", at most 3 routines and 2 quotes, demographics exactly when present, channels joined with ", "; the footer prints `index + 2` as written, or `2 * index + 2` when corrected |
| PdfGenerator.DetailsOf | lib/pdfGenerator.tsx:350-470 | scenarios joined with "; ", the other lists with ", ", and the details title |
| PdfGenerator.PersonaPages | lib/pdfGenerator.tsx:547-562 | two pages per persona, in order |
| PdfGenerator.DocumentShape | lib/pdfGenerator.tsx:525-572 | for either footer numbering: the cover first, then each persona's overview and details in order, then the guide exactly when there is one |
| PdfGenerator.PageNumbersArePositions | lib/pdfGenerator.tsx:344 | in the corrected document, every page prints its own position, so no two pages print the same number |
| PdfGenerator.OverviewNumberCollides | lib/pdfGenerator.tsx:344 | in the document as written, pages 3 and 4 (the first details page and the second overview) both print "Page 3"; corrected, page 4 prints 4 |
| PdfGenerator.OverviewNumbersAsWritten | lib/pdfGenerator.tsx:344 | as written, the overview of persona i prints i + 2 |
| PdfGenerator.CorrectionRenumbersOverviews | lib/pdfGenerator.tsx:344 | the corrected document has the same pages as the one as written, except that each overview footer prints the page's position |
| DownloadRoute.Length | app/api/download/route.ts:14 | `value.length`: an array's item count, a string's UTF-16 length, an object's own "length" member, and undefined for null, booleans and numbers |
| DownloadRoute.InvalidCases | app/api/download/route.ts:14-19 | the body is refused exactly when `personas` is missing or falsy or its length is 0: an array is accepted exactly when non-empty, a string exactly when non-empty, an object exactly when its "length" member is not the number 0, a number exactly when non-zero; a body that is not an object is refused |
| DownloadRoute.ZeroLengthObjectRefused | app/api/download/route.ts:14 | a `personas` object whose "length" is 0 is refused; one with another or no "length" is accepted |
| DownloadRoute.Sanitize | app/page.tsx:197 | the result has one character per UTF-16 code unit of the input, each an ASCII letter, digit or "-" |
| DownloadRoute.SanitizeChar | app/api/download/route.ts:27 | a letter or digit is kept; any other character becomes "-", or "--" when it takes two UTF-16 code units |
| DownloadRoute.SanitizeAppend | app/api/download/route.ts:27 | the replacement works character by character: sanitizing a concatenation concatenates the sanitized parts |
| DownloadRoute.SanitizeDashes | app/api/download/route.ts:27 | text made only of letters, digits and '-' is left unchanged |
| DownloadRoute.SanitizeIdempotent | app/api/download/route.ts:27 | sanitizing twice changes nothing more |
| DownloadRoute.PdfFilename | app/api/download/route.ts:27 | the name is exactly the sanitized product name followed by "-personas.pdf", as long as the name's UTF-16 code units plus 13, and made only of letters, digits, '-' and '.' |
| DownloadRoute.Post | app/api/download/route.ts:10-47 | invalid data gets 400; a thrown error gets 500 with its message; otherwise the PDF bytes are sent as an attachment with the right headers |
| DownloadRoute.ContentLengthMatches | app/api/download/route.ts:37 | the Content-Length header reads back as the number of bytes sent |

## Left out

- The language model service, the reader service, the PDF/DOCX libraries, `JSON.parse` and `renderToBuffer` are parameters, because they are code outside the repository. The model takes their answers as given.
- `request.formData()`, `response.json()` and `reader.read()` are parameters or given values: `Submission`, `Reply` and the chunk sequence. Decoding the typed form data is a parameter `decode`.
- The clock (`Date.now()`, `toISOString()`) and `Math.random()` are parameters: `createdAt`, `sweepNow`, `now` and the id `suffix`.
- The base-36 rendering of the random suffix is not modelled; the suffix is any string.
- Environment variables are parameters: `apiKey` and `readerKey`.
- The `globalThis` store reuse across hot reloads is left out, because it only concerns development reloads. A single `Store` object stands for the one map.
- Concurrency:
  - `Promise.allSettled` is modelled as a sequential map, which produces the same results in the same order.
  - A cancel in the middle of a submit is not interleaved with it. The abort shows up as an `AbortError` failure of the request.
- The interval timer, the elapsed-seconds counter and the SVG ring geometry are left out as rendering and timing. `FormatTime` takes the seconds as input.
- Progress numbers are `real`, not IEEE doubles. `Math.round` for display is not modelled.
- React batches state updates. The page model applies them at once, in order, which is what the user sees after a render.
- Characters are Unicode scalar values. UTF-16 code units appear only where the source depends on them: `DownloadRoute.JsLength` and `DownloadRoute.Sanitize`. Elsewhere `length` counts characters.
- A line split across two chunks is not reassembled, because the source splits each chunk on its own. The model reads each chunk's lines as given, which is what the source does.
- `DownloadRoute.Post`: the two TypeError texts for a product name without `replace` stand for the engine's messages, which vary by engine.
- `GenerateRoute.Stamp`: the TypeError texts for null and primitives likewise stand for the engine's messages. The array case keeps the value unchanged, since extra array properties do not appear in its JSON form.
- `GenerateRoute.Stamp` returns a new value instead of mutating the parsed object in place. No other reference to that object exists.
- JobStore.Store.CreateJob and JobStore.Store.UpdateJob store job values. The source stores one object, returns it to the caller and mutates that same object on update (lib/job-store.ts:42, 52). A reference kept from `createJob` therefore sees later updates in the source, but not in the model. The repository never keeps such a reference, so the aliasing is not modelled.
- `handleDownloadPDF` (app/page.tsx:174-205) is left out, because it is a browser download. Only its filename expression is modelled, as `DownloadRoute.PdfFilename`.
- The PDF layout (styles, fonts, the cover's content beyond the product name and persona count) is left out, because it is presentation. Only the page sequence, the footers and the fields each page selects are modelled.
- The persona page's goal, pain-point and need lists, which are shown in full, are not modelled field by field.
- The prompt's fixed prose is held in constants and not quoted in its entirety. `PersonaPrompt.BuildPersonaPrompt` assembles the parts in the source's order.
- InputForm.Form.SetPersonaCount requires a value from the select's options (2-5), because the select offers no others. `parseInt` on other text is not modelled.
- The `alert` of the form's failed submit check is left out, because it is I/O. `InputForm.Form.Submit` returns None in that case.
- Every `disabled={isGenerating}` guard is left out. The page passes `false` (app/page.tsx:254), so these guards never apply.

## Findings

| source | as written | input that shows it | evidently intended | confidence | as-written member | corrected member |
|---|---|---|---|---|---|---|
| lib/pdfGenerator.tsx:344 | the overview footer prints `index + 2` | any result with at least two personas: the second overview prints "Page 3", which is already the first details page's number, while it is the fourth page | `index * 2 + 2`, matching the details footer `index * 2 + 3` | high; not executed | PdfGenerator.OverviewNumberCollides | PdfGenerator.PageNumbersArePositions |
| app/page.tsx:143 | the "Generation incomplete" check reads `appState`, captured when the handler was created on the form screen, so it is always "form" and the check never fires | a stream that closes without any event: the page stays on the generating screen with no error | the check should see the live state (generating until a complete event) | high; not executed | HomePage.StaleGuardLeavesGenerating | HomePage.LiveGuardNeverStuck |
