/** The page controller (app/page.tsx): the screen state machine, the back
    button, and `handleSubmit`, which reads the event stream of the
    generation route line by line. The HTTP exchange is a parameter `Reply`;
    `JSON.parse` of an event line is a parameter `parse` that answers the
    SyntaxError message where the call throws. */
module HomePage {
  import opened Wrappers
  import opened Strings
  import opened Json

  datatype AppState = Landing | Form | Generating | Complete

  /** An error value as the page's catch blocks see it. */
  datatype Failure = Failure(name: string, message: string)

  /** What an event line's payload decodes to, by its `type` property. */
  datatype ClientEvent =
    | ProgressEvent(step: string, progress: real)
    | ContentEvent(data: string)
    | CompleteEvent(result: Json)
    | ErrorEvent(message: string)
    | OtherEvent

  type Parse = string -> Result<ClientEvent, string>

  /** How the request to the generation route ended. */
  datatype Reply =
    | Unreachable(failure: Failure)                        // `fetch` rejected
    | NotOk(statusText: string, errorField: Option<string>) // `response.ok` false
    | NoBody
    | Streamed(chunks: seq<string>, end: Option<Failure>)   // decoded chunks, then a read failure if any

  const DataPrefix: string := "data: "
  const EndOfInput: string := "Unexpected end of JSON input"
  const ExpectedCharacters: real := 25000.0
  const StartStep: string := "fetching"
  const NoResponseBody: string := "No response body"
  const FailedPrefix: string := "Generation failed: "
  const IncompleteMessage: string := "Generation incomplete - the request may have timed out. Please try again."
  const NetworkMessage: string := "Network error - please check your connection and try again."

  // ---------------------------------------------------------------------
  // Screen transitions
  // ---------------------------------------------------------------------

  /** What the back button does in each state. */
  datatype BackAction = ToLanding | CancelRun | GenerateNew

  /** `getBackHandler` */
  function BackHandler(s: AppState): (r: Option<BackAction>)
    ensures s == Form <==> r == Some(ToLanding)
    ensures s == Generating <==> r == Some(CancelRun)
    ensures s == Complete <==> r == Some(GenerateNew)
    ensures s == Landing <==> r == None
  {
    match s
    case Form => Some(ToLanding)
    case Generating => Some(CancelRun)
    case Complete => Some(GenerateNew)
    case Landing => None
  }

  // ---------------------------------------------------------------------
  // Reading the event stream
  // ---------------------------------------------------------------------

  function Max(a: real, b: real): real { if a >= b then a else b }
  function Min(a: real, b: real): real { if a <= b then a else b }

  /** The progress set on a content event: the content estimate, capped at
      95, but never below `captured`, the progress value the handler closed
      over when it was created. */
  function ContentProgress(captured: real, length: nat): (r: real)
    ensures r >= captured
    ensures r >= 0.0 && (r <= 95.0 || r == captured)
    ensures length as real >= ExpectedCharacters * 0.95 ==> r == Max(captured, 95.0)
  {
    Max(captured, Min(95.0, length as real / ExpectedCharacters * 100.0))
  }

  /** A larger buffer never shows less progress. */
  lemma ContentProgressMonotone(captured: real, m: nat, n: nat)
    requires m <= n
    ensures ContentProgress(captured, m) <= ContentProgress(captured, n)
  {
    assert m as real / ExpectedCharacters <= n as real / ExpectedCharacters;
  }

  /** A run started after a completed one captured progress 100, so its
      content events keep showing 100 whatever the content length. */
  lemma ContentAfterCompletedRun(length: nat)
    ensures ContentProgress(100.0, length) == 100.0
  {
  }

  /** The handler's view while reading: the screen fields it sets, plus the
      locals `contentBuffer` and `receivedComplete`. */
  datatype Reading = Reading(
    state: AppState,
    progress: real,
    step: string,
    result: Option<Json>,
    buffer: string,
    complete: bool)

  /** The reading so far, and the error thrown out of the loop if any. */
  datatype Outcome = Outcome(reading: Reading, failure: Option<Failure>)

  function Thrown(message: string): Failure {
    Failure("Error", message)
  }

  /** One line of a chunk. Lines without the prefix are ignored; a parse
      error is skipped only when its message is the end-of-input one; an
      error event throws its message, which is then rethrown unless it is
      that same message. */
  function HandleLine(rd: Reading, line: string, parse: Parse, captured: real): (o: Outcome)
    ensures !StartsWith(line, DataPrefix) ==> o == Outcome(rd, None)
  {
    if !StartsWith(line, DataPrefix) then Outcome(rd, None)
    else match parse(line[|DataPrefix|..])
      case Err(m) =>
        if m != EndOfInput then Outcome(rd, Some(Failure("SyntaxError", m))) else Outcome(rd, None)
      case Ok(ProgressEvent(step, p)) => Outcome(rd.(step := step, progress := p), None)
      case Ok(ContentEvent(d)) =>
        var buffer := rd.buffer + d;
        Outcome(rd.(buffer := buffer, progress := ContentProgress(captured, |buffer|)), None)
      case Ok(CompleteEvent(res)) =>
        Outcome(rd.(progress := 100.0, result := Some(res), state := Complete, complete := true), None)
      case Ok(ErrorEvent(m)) =>
        if m != EndOfInput then Outcome(rd, Some(Thrown(m))) else Outcome(rd, None)
      case Ok(OtherEvent) => Outcome(rd, None)
  }

  /** The lines in order; the first thrown error ends the reading. */
  function HandleLines(o: Outcome, lines: seq<string>, parse: Parse, captured: real): Outcome
    decreases |lines|
  {
    if |lines| == 0 then o
    else
      var p := HandleLines(o, lines[..|lines| - 1], parse, captured);
      if p.failure.Some? then p else HandleLine(p.reading, lines[|lines| - 1], parse, captured)
  }

  /** The chunks in order, each split at line feeds. */
  function HandleChunks(o: Outcome, chunks: seq<string>, parse: Parse, captured: real): Outcome
    decreases |chunks|
  {
    if |chunks| == 0 then o
    else
      var p := HandleChunks(o, chunks[..|chunks| - 1], parse, captured);
      if p.failure.Some? then p else HandleLines(p, Split(chunks[|chunks| - 1], '\n'), parse, captured)
  }

  /** The `try` block of `handleSubmit` from the request on. `guard` is the
      screen state the incomplete-stream check reads. */
  function Request(start: Reading, reply: Reply, parse: Parse, captured: real, guard: Reading -> AppState): Outcome {
    match reply
    case Unreachable(f) => Outcome(start, Some(f))
    case NotOk(statusText, errorField) =>
      Outcome(start, Some(Thrown(if errorField.Some? && errorField.value != "" then errorField.value
                                 else FailedPrefix + statusText)))
    case NoBody => Outcome(start, Some(Thrown(NoResponseBody)))
    case Streamed(chunks, end) =>
      var o := HandleChunks(Outcome(start, None), chunks, parse, captured);
      if o.failure.Some? then o
      else if end.Some? then Outcome(o.reading, end)
      else Finish(o.reading, guard(o.reading))
  }

  /** The check after the loop: no complete event while the guard reads
      "generating" is an error. */
  function Finish(rd: Reading, guard: AppState): Outcome {
    if !rd.complete && guard == Generating then Outcome(rd, Some(Thrown(IncompleteMessage)))
    else Outcome(rd, None)
  }

  /** The message shown for a failure that is not a cancellation. */
  function UserMessage(message: string): (r: string)
    ensures Contains(message, "fetch") || Contains(message, "network") ==> r == NetworkMessage
    ensures !(Contains(message, "fetch") || Contains(message, "network")) ==> r == message
  {
    if Contains(message, "fetch") || Contains(message, "network") then NetworkMessage else message
  }

  /** The screen fields of the page. */
  datatype Screen = Screen(state: AppState, progress: real, step: string, result: Option<Json>, error: Option<string>)

  /** The `catch` block: a cancellation goes back to the form quietly, any
      other failure goes back to the form with its message. */
  function Settle(o: Outcome): (s: Screen)
    ensures o.failure.None? ==> s.state == o.reading.state && s.error == None
    ensures o.failure.Some? ==> s.state == Form
    ensures o.failure.Some? && o.failure.value.name == "AbortError" ==> s.error == None
    ensures o.failure.Some? && o.failure.value.name != "AbortError" ==> s.error == Some(UserMessage(o.failure.value.message))
    ensures s.progress == o.reading.progress && s.step == o.reading.step && s.result == o.reading.result
  {
    var rd := o.reading;
    match o.failure
    case None => Screen(rd.state, rd.progress, rd.step, rd.result, None)
    case Some(f) =>
      Screen(Form, rd.progress, rd.step, rd.result, if f.name == "AbortError" then None else Some(UserMessage(f.message)))
  }

  /** The reading a submit starts from: generating, at zero, on the first step. */
  function StartReading(result: Option<Json>): Reading {
    Reading(Generating, 0.0, StartStep, result, "", false)
  }

  /** The live screen state, which the corrected check reads. */
  function LiveState(rd: Reading): AppState { rd.state }

  /** The screen after a submit as written: the incomplete-stream check
      reads the screen state captured with the handler. */
  function SubmittedAsWritten(result: Option<Json>, reply: Reply, parse: Parse, captured: real): Screen {
    Settle(Request(StartReading(result), reply, parse, captured, CapturedState))
  }

  /** The screen after a submit, with the corrected incomplete-stream check. */
  function Submitted(result: Option<Json>, reply: Reply, parse: Parse, captured: real): Screen {
    Settle(Request(StartReading(result), reply, parse, captured, LiveState))
  }

  // ---------------------------------------------------------------------
  // Properties of the stream reading
  // ---------------------------------------------------------------------

  /** Which data lines are skipped: a parse error is silent exactly when it
      reports the end of the input. */
  lemma OnlyEndOfInputSkipped(rd: Reading, payload: string, parse: Parse, captured: real)
    requires parse(payload).Err?
    ensures var o := HandleLine(rd, DataPrefix + payload, parse, captured);
      && o.reading == rd
      && (o.failure.None? <==> parse(payload).error == EndOfInput)
  {
    assert (DataPrefix + payload)[|DataPrefix|..] == payload;
  }

  /** A progress event shows its step and value verbatim; a complete event
      shows 100 and the result and moves to the complete screen. */
  lemma EventEffects(rd: Reading, payload: string, parse: Parse, captured: real)
    requires parse(payload).Ok?
    ensures var o := HandleLine(rd, DataPrefix + payload, parse, captured);
      && (parse(payload).value.ProgressEvent? ==>
            o == Outcome(rd.(step := parse(payload).value.step, progress := parse(payload).value.progress), None))
      && (parse(payload).value.CompleteEvent? ==>
            o.failure.None? && o.reading.state == Complete && o.reading.progress == 100.0
            && o.reading.result == Some(parse(payload).value.result) && o.reading.complete)
      && (parse(payload).value.ContentEvent? ==>
            o.failure.None? && o.reading.buffer == rd.buffer + parse(payload).value.data
            && o.reading.progress >= captured)
      && (parse(payload).value.ErrorEvent? && parse(payload).value.message != EndOfInput ==>
            o.failure == Some(Thrown(parse(payload).value.message)))
  {
    assert (DataPrefix + payload)[|DataPrefix|..] == payload;
  }

  /** While reading, the screen is on "generating" until a complete event,
      and on "complete" from then on. */
  predicate Consistent(rd: Reading) {
    rd.state == (if rd.complete then Complete else Generating)
  }

  lemma HandleLineConsistent(rd: Reading, line: string, parse: Parse, captured: real)
    requires Consistent(rd)
    ensures Consistent(HandleLine(rd, line, parse, captured).reading)
  {
  }

  lemma {:induction false} HandleLinesConsistent(o: Outcome, lines: seq<string>, parse: Parse, captured: real)
    requires Consistent(o.reading)
    ensures Consistent(HandleLines(o, lines, parse, captured).reading)
    decreases |lines|
  {
    if |lines| > 0 {
      HandleLinesConsistent(o, lines[..|lines| - 1], parse, captured);
      var p := HandleLines(o, lines[..|lines| - 1], parse, captured);
      HandleLineConsistent(p.reading, lines[|lines| - 1], parse, captured);
    }
  }

  lemma {:induction false} HandleChunksConsistent(o: Outcome, chunks: seq<string>, parse: Parse, captured: real)
    requires Consistent(o.reading)
    ensures Consistent(HandleChunks(o, chunks, parse, captured).reading)
    decreases |chunks|
  {
    if |chunks| > 0 {
      HandleChunksConsistent(o, chunks[..|chunks| - 1], parse, captured);
      var p := HandleChunks(o, chunks[..|chunks| - 1], parse, captured);
      HandleLinesConsistent(p, Split(chunks[|chunks| - 1], '\n'), parse, captured);
    }
  }

  /** With the corrected check a submit never leaves the page on the
      generating screen: it ends on "complete" after a complete event and
      nothing failing, and on the form otherwise. */
  lemma LiveGuardNeverStuck(result: Option<Json>, reply: Reply, parse: Parse, captured: real)
    ensures Submitted(result, reply, parse, captured).state != Generating
    ensures Submitted(result, reply, parse, captured).state == Complete
         || Submitted(result, reply, parse, captured).state == Form
  {
    if reply.Streamed? {
      HandleChunksConsistent(Outcome(StartReading(result), None), reply.chunks, parse, captured);
    }
  }

  /** As written the check reads the state captured when the form received
      the handler, and the form is only shown on the form screen: the check
      never fires. */
  function CapturedState(rd: Reading): AppState { Form }

  lemma StaleGuardNeverFires(rd: Reading)
    ensures Finish(rd, CapturedState(rd)) == Outcome(rd, None)
  {
  }

  /** A stream that closes without any event leaves the page on the
      generating screen with no error, as written. */
  lemma StaleGuardLeavesGenerating(result: Option<Json>, parse: Parse, captured: real)
    ensures SubmittedAsWritten(result, Streamed([], None), parse, captured).state == Generating
    ensures SubmittedAsWritten(result, Streamed([], None), parse, captured).error == None
  {
  }

  /** An error reported by the route reaches the user with its own text
      unless it mentions "fetch" or "network". */
  lemma ServerErrorShown(result: Option<Json>, statusText: string, message: string, parse: Parse, captured: real)
    requires message != ""
    ensures SubmittedAsWritten(result, NotOk(statusText, Some(message)), parse, captured).error == Some(UserMessage(message))
    ensures SubmittedAsWritten(result, NotOk(statusText, Some(message)), parse, captured).state == Form
  {
  }

  /** The browser's "Failed to fetch" rejection is shown as the fixed
      network message. */
  lemma FetchFailureShownAsNetworkError(result: Option<Json>, parse: Parse, captured: real)
    ensures SubmittedAsWritten(result, Unreachable(Failure("TypeError", "Failed to fetch")), parse, captured).error == Some(NetworkMessage)
    ensures SubmittedAsWritten(result, Unreachable(Failure("TypeError", "Failed to fetch")), parse, captured).state == Form
  {
    ContainsMiddle("Failed to ", "fetch", "");
    assert "Failed to " + "fetch" + "" == "Failed to fetch";
  }

  /** A cancelled request returns to the form without a message. */
  lemma AbortIsQuiet(result: Option<Json>, message: string, parse: Parse, captured: real)
    ensures SubmittedAsWritten(result, Unreachable(Failure("AbortError", message)), parse, captured).state == Form
    ensures SubmittedAsWritten(result, Unreachable(Failure("AbortError", message)), parse, captured).error == None
  {
  }

  // ---------------------------------------------------------------------
  // The page
  // ---------------------------------------------------------------------

  class Home {
    var appState: AppState
    var generationResult: Option<Json>
    var progress: real
    var currentStep: string
    var error: Option<string>
    /** Whether an abort controller exists, and whether it was aborted. */
    var hasController: bool
    var abortRequested: bool

    function Current(): Screen
      reads this
    {
      Screen(appState, progress, currentStep, generationResult, error)
    }

    constructor ()
      ensures appState == Landing && generationResult == None && progress == 0.0
      ensures currentStep == StartStep && error == None && !hasController && !abortRequested
    {
      appState := Landing;
      generationResult := None;
      progress := 0.0;
      currentStep := StartStep;
      error := None;
      hasController := false;
      abortRequested := false;
    }

    /** `handleGetStarted` */
    method GetStarted()
      modifies this
      ensures Current() == old(Current()).(state := Form)
      ensures hasController == old(hasController) && abortRequested == old(abortRequested)
    {
      appState := Form;
    }

    /** `handleBackToLanding` */
    method BackToLanding()
      modifies this
      ensures Current() == old(Current()).(state := Landing)
      ensures hasController == old(hasController) && abortRequested == old(abortRequested)
    {
      appState := Landing;
    }

    /** `handleCancel`: aborts the request in flight, if any, and goes to
        the landing screen. */
    method Cancel()
      modifies this
      ensures Current() == old(Current()).(state := Landing)
      ensures hasController == old(hasController)
      ensures abortRequested == (old(hasController) || old(abortRequested))
    {
      if hasController {
        abortRequested := true;
      }
      appState := Landing;
    }

    /** `handleGenerateNew`: forgets the result and goes to the landing screen. */
    method GenerateNew()
      modifies this
      ensures Current() == old(Current()).(state := Landing, result := None)
      ensures hasController == old(hasController) && abortRequested == old(abortRequested)
    {
      generationResult := None;
      appState := Landing;
    }

    /** The header's back button: whatever the state, a handler leads back
        to the landing screen; on the landing screen there is none. */
    method Back()
      modifies this
      ensures old(appState) == Landing ==> Current() == old(Current())
      ensures old(appState) != Landing ==> appState == Landing
      ensures old(appState) == Complete ==> generationResult == None
      ensures abortRequested == if old(appState) == Generating then old(hasController) || old(abortRequested) else old(abortRequested)
      ensures old(appState) != Complete ==> generationResult == old(generationResult)
      ensures progress == old(progress) && currentStep == old(currentStep) && error == old(error)
      ensures hasController == old(hasController)
    {
      match BackHandler(appState) {
        case None =>
        case Some(ToLanding) => BackToLanding();
        case Some(CancelRun) => Cancel();
        case Some(GenerateNew) => GenerateNew();
      }
    }

    /** The reading as the fields and the two locals hold it. */
    function ReadingOf(buffer: string, complete: bool): Reading
      reads this
    {
      Reading(appState, progress, currentStep, generationResult, buffer, complete)
    }

    /** One line (the body of the inner `for`). */
    method Line(line: string, parse: Parse, captured: real, buffer: string, complete: bool)
      returns (buffer': string, complete': bool, failure: Option<Failure>)
      modifies this
      ensures Outcome(ReadingOf(buffer', complete'), failure) == HandleLine(old(ReadingOf(buffer, complete)), line, parse, captured)
      ensures error == old(error) && hasController == old(hasController) && abortRequested == old(abortRequested)
    {
      buffer', complete', failure := buffer, complete, None;
      if StartsWith(line, DataPrefix) {
        match parse(line[|DataPrefix|..]) {
          case Err(m) =>
            if m != EndOfInput {
              failure := Some(Failure("SyntaxError", m));
            }
          case Ok(ProgressEvent(step, p)) =>
            currentStep := step;
            progress := p;
          case Ok(ContentEvent(d)) =>
            buffer' := buffer' + d;
            progress := ContentProgress(captured, |buffer'|);
          case Ok(CompleteEvent(res)) =>
            progress := 100.0;
            generationResult := Some(res);
            appState := Complete;
            complete' := true;
          case Ok(ErrorEvent(m)) =>
            if m != EndOfInput {
              failure := Some(Thrown(m));
            }
          case Ok(OtherEvent) =>
        }
      }
    }

    /** The reading loop: chunk after chunk, line after line, until the
        stream ends or an error is thrown. */
    method ReadStream(chunks: seq<string>, parse: Parse, captured: real)
      returns (buffer: string, complete: bool, failure: Option<Failure>)
      modifies this
      ensures Outcome(ReadingOf(buffer, complete), failure)
           == HandleChunks(Outcome(old(ReadingOf("", false)), None), chunks, parse, captured)
      ensures error == old(error) && hasController == old(hasController) && abortRequested == old(abortRequested)
    {
      ghost var start := Outcome(ReadingOf("", false), None);
      buffer, complete, failure := "", false, None;
      var i := 0;
      while i < |chunks| && failure.None?
        invariant 0 <= i <= |chunks|
        invariant Outcome(ReadingOf(buffer, complete), failure) == HandleChunks(start, chunks[..i], parse, captured)
        invariant error == old(error) && hasController == old(hasController) && abortRequested == old(abortRequested)
      {
        ChunksStep(start, chunks, i, parse, captured);
        buffer, complete, failure := ReadLines(Split(chunks[i], '\n'), parse, captured, buffer, complete);
        i := i + 1;
      }
      ChunksEnd(start, chunks, i, parse, captured);
    }

    /** The lines of one chunk (the inner `for`), until one throws. */
    method ReadLines(lines: seq<string>, parse: Parse, captured: real, buffer: string, complete: bool)
      returns (buffer': string, complete': bool, failure: Option<Failure>)
      modifies this
      ensures Outcome(ReadingOf(buffer', complete'), failure)
           == HandleLines(Outcome(old(ReadingOf(buffer, complete)), None), lines, parse, captured)
      ensures error == old(error) && hasController == old(hasController) && abortRequested == old(abortRequested)
    {
      ghost var before := Outcome(ReadingOf(buffer, complete), None);
      buffer', complete', failure := buffer, complete, None;
      var j := 0;
      while j < |lines| && failure.None?
        invariant 0 <= j <= |lines|
        invariant Outcome(ReadingOf(buffer', complete'), failure) == HandleLines(before, lines[..j], parse, captured)
        invariant error == old(error) && hasController == old(hasController) && abortRequested == old(abortRequested)
      {
        LinesStep(before, lines, j, parse, captured);
        buffer', complete', failure := Line(lines[j], parse, captured, buffer', complete');
        j := j + 1;
      }
      LinesEnd(before, lines, j, parse, captured);
    }

    /** `handleSubmit` as written: the handler reads the progress and the
        screen state of the render that created it, that is, the values
        they had when the form was submitted. */
    method Submit(reply: Reply, parse: Parse)
      modifies this
      ensures Current() == SubmittedAsWritten(old(generationResult), reply, parse, old(progress))
      ensures hasController && !abortRequested
    {
      // The content-progress update compares against this captured value.
      var captured := progress;
      appState := Generating;
      progress := 0.0;
      currentStep := StartStep;
      error := None;
      hasController, abortRequested := true, false;
      // The handler was created while the form was shown, and the check
      // after the loop reads the screen state of that render.
      var renderedState := Form;
      ghost var start := ReadingOf("", false);
      assert start == StartReading(old(generationResult));
      var buffer, complete := "", false;
      var failure: Option<Failure>;
      match reply {
        case Unreachable(f) =>
          failure := Some(f);
        case NotOk(statusText, errorField) =>
          failure := Some(Thrown(if errorField.Some? && errorField.value != "" then errorField.value
                                 else FailedPrefix + statusText));
        case NoBody =>
          failure := Some(Thrown(NoResponseBody));
        case Streamed(chunks, end) =>
          buffer, complete, failure := ReadStream(chunks, parse, captured);
          if failure.None? {
            if end.Some? {
              failure := end;
            } else if !complete && renderedState == Generating {
              failure := Some(Thrown(IncompleteMessage));
            }
          }
      }
      assert Outcome(ReadingOf(buffer, complete), failure) == Request(start, reply, parse, captured, CapturedState);
      if failure.Some? {
        if failure.value.name != "AbortError" {
          error := Some(UserMessage(failure.value.message));
        }
        appState := Form;
      }
    }
  }

  /** Once a line has thrown, the remaining lines are not read. */
  lemma {:induction false} FailureSticksLines(o: Outcome, lines: seq<string>, j: nat, parse: Parse, captured: real)
    requires j <= |lines| && HandleLines(o, lines[..j], parse, captured).failure.Some?
    ensures HandleLines(o, lines, parse, captured) == HandleLines(o, lines[..j], parse, captured)
    decreases |lines| - j
  {
    if j < |lines| {
      assert lines[..j + 1][..j] == lines[..j];
      FailureSticksLines(o, lines, j + 1, parse, captured);
    } else {
      assert lines[..j] == lines;
    }
  }

  /** Reading one more line, when none has thrown yet. */
  lemma LinesStep(o: Outcome, lines: seq<string>, j: nat, parse: Parse, captured: real)
    requires j < |lines| && HandleLines(o, lines[..j], parse, captured).failure.None?
    ensures HandleLines(o, lines[..j + 1], parse, captured)
         == HandleLine(HandleLines(o, lines[..j], parse, captured).reading, lines[j], parse, captured)
  {
    assert lines[..j + 1][..j] == lines[..j];
  }

  /** The line loop stops when the lines are done or one has thrown. */
  lemma LinesEnd(o: Outcome, lines: seq<string>, j: nat, parse: Parse, captured: real)
    requires j <= |lines| && (j == |lines| || HandleLines(o, lines[..j], parse, captured).failure.Some?)
    ensures HandleLines(o, lines, parse, captured) == HandleLines(o, lines[..j], parse, captured)
  {
    if j < |lines| {
      FailureSticksLines(o, lines, j, parse, captured);
    } else {
      assert lines[..j] == lines;
    }
  }

  /** Reading one more chunk, when none has thrown yet. */
  lemma ChunksStep(o: Outcome, chunks: seq<string>, i: nat, parse: Parse, captured: real)
    requires i < |chunks| && HandleChunks(o, chunks[..i], parse, captured).failure.None?
    ensures HandleChunks(o, chunks[..i + 1], parse, captured)
         == HandleLines(HandleChunks(o, chunks[..i], parse, captured), Split(chunks[i], '\n'), parse, captured)
  {
    assert chunks[..i + 1][..i] == chunks[..i];
  }

  /** The chunk loop stops when the chunks are done or one has thrown. */
  lemma ChunksEnd(o: Outcome, chunks: seq<string>, i: nat, parse: Parse, captured: real)
    requires i <= |chunks| && (i == |chunks| || HandleChunks(o, chunks[..i], parse, captured).failure.Some?)
    ensures HandleChunks(o, chunks, parse, captured) == HandleChunks(o, chunks[..i], parse, captured)
  {
    if i < |chunks| {
      FailureSticksChunks(o, chunks, i, parse, captured);
    } else {
      assert chunks[..i] == chunks;
    }
  }

  /** Once a chunk has thrown, the remaining chunks are not read. */
  lemma {:induction false} FailureSticksChunks(o: Outcome, chunks: seq<string>, i: nat, parse: Parse, captured: real)
    requires i <= |chunks| && HandleChunks(o, chunks[..i], parse, captured).failure.Some?
    ensures HandleChunks(o, chunks, parse, captured) == HandleChunks(o, chunks[..i], parse, captured)
    decreases |chunks| - i
  {
    if i < |chunks| {
      assert chunks[..i + 1][..i] == chunks[..i];
      FailureSticksChunks(o, chunks, i + 1, parse, captured);
    } else {
      assert chunks[..i] == chunks;
    }
  }
}
