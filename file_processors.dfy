/** Text extraction from uploads and its formatting for the prompt
    (lib/fileProcessors.ts). The PDF and DOCX text extractors are parameters
    that answer None where the library throws. */
module FileProcessors {
  import opened Wrappers
  import opened Strings
  import opened Types

  datatype ProcessedFile = ProcessedFile(name: string, kind: string, content: string)

  type Extractor = seq<bv8> -> Option<string>

  const PdfMime: string := "application/pdf"
  const DocxMime: string := "application/vnd.openxmlformats-officedocument.wordprocessingml.document"

  /** The PDF route is taken on the PDF MIME type or a ".pdf" name, before
      anything else is looked at. */
  predicate RoutesToPdf(f: Upload) {
    f.mimeType == PdfMime || EndsWith(f.name, ".pdf")
  }

  predicate RoutesToDocx(f: Upload) {
    f.mimeType == DocxMime || EndsWith(f.name, ".docx")
  }

  /** `processPDF` */
  function ProcessPdf(f: Upload, pdfText: Extractor): (r: Result<ProcessedFile, string>)
    ensures r.Ok? <==> pdfText(f.data).Some?
    ensures r.Ok? ==> r.value == ProcessedFile(f.name, "pdf", pdfText(f.data).value)
    ensures r.Err? ==> r.error == "Failed to process PDF: " + f.name
  {
    match pdfText(f.data)
    case Some(text) => Ok(ProcessedFile(f.name, "pdf", text))
    case None => Err("Failed to process PDF: " + f.name)
  }

  /** `processDOCX` */
  function ProcessDocx(f: Upload, docxText: Extractor): (r: Result<ProcessedFile, string>)
    ensures r.Ok? <==> docxText(f.data).Some?
    ensures r.Ok? ==> r.value == ProcessedFile(f.name, "docx", docxText(f.data).value)
    ensures r.Err? ==> r.error == "Failed to process DOCX: " + f.name
  {
    match docxText(f.data)
    case Some(text) => Ok(ProcessedFile(f.name, "docx", text))
    case None => Err("Failed to process DOCX: " + f.name)
  }

  /** `processFile`: dispatch on MIME type and file name. */
  function ProcessFile(f: Upload, pdfText: Extractor, docxText: Extractor): (r: Result<ProcessedFile, string>)
    ensures RoutesToPdf(f) ==> r == ProcessPdf(f, pdfText)
    ensures !RoutesToPdf(f) && RoutesToDocx(f) ==> r == ProcessDocx(f, docxText)
    ensures !RoutesToPdf(f) && !RoutesToDocx(f) ==> r == Err("Unsupported file type: " + f.mimeType)
  {
    if RoutesToPdf(f) then ProcessPdf(f, pdfText)
    else if RoutesToDocx(f) then ProcessDocx(f, docxText)
    else Err("Unsupported file type: " + f.mimeType)
  }

  /** A successful result keeps the upload's name and says which extractor
      produced it. */
  lemma ProcessFileSuccess(f: Upload, pdfText: Extractor, docxText: Extractor)
    requires ProcessFile(f, pdfText, docxText).Ok?
    ensures var p := ProcessFile(f, pdfText, docxText).value;
      && p.name == f.name
      && (p.kind == "pdf" <==> RoutesToPdf(f))
      && (p.kind == "docx" <==> !RoutesToPdf(f))
      && (p.kind == "pdf" ==> p.content == pdfText(f.data).value)
      && (p.kind == "docx" ==> p.content == docxText(f.data).value)
  {
  }

  function ProcessEach(fs: seq<Upload>, pdfText: Extractor, docxText: Extractor): (r: seq<Result<ProcessedFile, string>>)
    ensures |r| == |fs|
    ensures forall i :: 0 <= i < |fs| ==> r[i] == ProcessFile(fs[i], pdfText, docxText)
  {
    seq(|fs|, i requires 0 <= i < |fs| => ProcessFile(fs[i], pdfText, docxText))
  }

  /** `processFiles`: the successful results, in input order. */
  function ProcessFiles(fs: seq<Upload>, pdfText: Extractor, docxText: Extractor): seq<ProcessedFile> {
    KeepOk(ProcessEach(fs, pdfText, docxText))
  }

  /** Processing two batches one after the other gives the same files as
      processing them together: successes keep their relative order. */
  lemma ProcessFilesAppend(a: seq<Upload>, b: seq<Upload>, pdfText: Extractor, docxText: Extractor)
    ensures ProcessFiles(a + b, pdfText, docxText) == ProcessFiles(a, pdfText, docxText) + ProcessFiles(b, pdfText, docxText)
    ensures |ProcessFiles(a + b, pdfText, docxText)| <= |a| + |b|
  {
    assert ProcessEach(a + b, pdfText, docxText) == ProcessEach(a, pdfText, docxText) + ProcessEach(b, pdfText, docxText);
    KeepOkAppend(ProcessEach(a, pdfText, docxText), ProcessEach(b, pdfText, docxText));
  }

  /** Processing one more upload appends its result when it succeeds and
      leaves the list as it was when it fails. */
  lemma ProcessFilesSnoc(fs: seq<Upload>, u: Upload, pdfText: Extractor, docxText: Extractor)
    ensures ProcessFile(u, pdfText, docxText).Ok? ==>
      ProcessFiles(fs + [u], pdfText, docxText) == ProcessFiles(fs, pdfText, docxText) + [ProcessFile(u, pdfText, docxText).value]
    ensures ProcessFile(u, pdfText, docxText).Err? ==>
      ProcessFiles(fs + [u], pdfText, docxText) == ProcessFiles(fs, pdfText, docxText)
  {
    ProcessFilesAppend(fs, [u], pdfText, docxText);
    var one := ProcessEach([u], pdfText, docxText);
    assert one == [ProcessFile(u, pdfText, docxText)];
    assert one[1..] == [];
    if ProcessFile(u, pdfText, docxText).Err? {
      assert ProcessFiles([u], pdfText, docxText) == [];
      assert ProcessFiles(fs, pdfText, docxText) + [] == ProcessFiles(fs, pdfText, docxText);
    }
  }

  /** A processed file is in the result exactly when some upload produced it. */
  lemma ProcessFilesMembership(fs: seq<Upload>, pdfText: Extractor, docxText: Extractor, p: ProcessedFile)
    ensures p in ProcessFiles(fs, pdfText, docxText)
        <==> exists i :: 0 <= i < |fs| && ProcessFile(fs[i], pdfText, docxText) == Ok(p)
  {
    var rs := ProcessEach(fs, pdfText, docxText);
    KeepOkMembership(rs, p);
    if Ok(p) in rs {
      var i :| 0 <= i < |rs| && rs[i] == Ok(p);
      assert ProcessFile(fs[i], pdfText, docxText) == Ok(p);
    }
  }

  const ContentLimit: nat := 5000

  /** One file's block: a heading with its name, then at most 5000 characters
      of its text, with "..." when it was cut. */
  function FileBlock(f: ProcessedFile): (r: string)
    ensures StartsWith(r, "\n## Research Document: " + f.name + "\n")
  {
    "\n## Research Document: " + f.name + "\n" + Truncate(f.content, ContentLimit) + "\n"
  }

  function FileBlocks(files: seq<ProcessedFile>): (r: seq<string>)
    ensures |r| == |files|
    ensures forall i :: 0 <= i < |files| ==> r[i] == FileBlock(files[i])
  {
    seq(|files|, i requires 0 <= i < |files| => FileBlock(files[i]))
  }

  /** `formatFilesForPrompt` */
  function FormatFilesForPrompt(files: seq<ProcessedFile>): (r: string)
    ensures files == [] ==> r == ""
  {
    if |files| == 0 then "" else Join(FileBlocks(files), "\n\n")
  }

  /** Adding a file appends its block after a blank-line separator; earlier
      blocks are untouched. */
  lemma FormatFilesSnoc(files: seq<ProcessedFile>, f: ProcessedFile)
    requires files != []
    ensures FormatFilesForPrompt(files + [f]) == FormatFilesForPrompt(files) + "\n\n" + FileBlock(f)
  {
    assert FileBlocks(files + [f]) == FileBlocks(files) + [FileBlock(f)];
    JoinSnoc(FileBlocks(files), FileBlock(f), "\n\n");
  }

  /** A single file is exactly its block; its text is cut at 5000 characters
      with "..." appended only when longer. */
  lemma FormatSingleFile(f: ProcessedFile)
    ensures FormatFilesForPrompt([f]) == FileBlock(f)
    ensures |f.content| <= ContentLimit ==> FileBlock(f) == "\n## Research Document: " + f.name + "\n" + f.content + "\n"
    ensures |f.content| > ContentLimit ==>
      FileBlock(f) == "\n## Research Document: " + f.name + "\n" + f.content[..ContentLimit] + "..." + "\n"
  {
    assert FileBlocks([f]) == [FileBlock(f)];
  }
}
