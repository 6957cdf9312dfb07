/**
 * The multi-strategy extraction pipeline's bookkeeping
 * (invoice_pipeline/pipeline.py): how a file's type is detected from its
 * name and content, how the best of several extraction attempts becomes the
 * pipeline's result, and the statistics of a batch of results.
 */
module Pipeline {
  import opened Wrappers
  import opened Text
  import opened PipelineModels

  datatype FileType = PDF | IMAGE | DOCX | TEXT | UNKNOWN

  // ---------------------------------------------------------------------------
  // Detection from the file name
  // ---------------------------------------------------------------------------

  /** The last component of `p` is `.`: the whole path, or what follows its last separator. */
  predicate EndsInDot(p: string)
  {
    p == "." || (|p| >= 2 && p[|p| - 2] == '/' && p[|p| - 1] == '.')
  }

  /**
   * The path without the trailing components pathlib drops: empty ones
   * (trailing separators) and single-dot ones.
   */
  function DropTrailing(p: string): (q: string)
    ensures |q| <= |p| && q == p[..|q|]
    ensures q == [] || (q[|q| - 1] != '/' && !EndsInDot(q))
    ensures forall i :: |q| <= i < |p| ==> p[i] == '/' || p[i] == '.'
    ensures p != [] && p[|p| - 1] != '/' && !EndsInDot(p) ==> q == p
    decreases |p|
  {
    if p != [] && p[|p| - 1] == '/' then DropTrailing(p[..|p| - 1])
    else if EndsInDot(p) then DropTrailing(p[..|p| - 1])
    else p
  }

  /** `PurePosixPath(p).name`: the last component of the path, once empty and `.` components are dropped. */
  function Name(p: string): (n: string)
    ensures '/' !in n
    ensures n != "."
  {
    var q := DropTrailing(p);
    q[RFind(q, '/') + 1..]
  }

  /**
   * `PurePosixPath(p).suffix` of a name: from its last dot on, unless that
   * dot starts the name (a hidden file) or ends it.
   */
  function Suffix(n: string): (x: string)
    ensures x == [] || (2 <= |x| <= |n| - 1 && x == n[|n| - |x|..] && x[0] == '.' && '.' !in x[1..])
  {
    var i := RFind(n, '.');
    if 0 < i < |n| - 1 then
      assert forall k :: 1 <= k < |n| - i ==> n[i..][k] == n[i + k];
      n[i..]
    else []
  }

  /** `Path(file_path).suffix.lower()` */
  function Extension(p: string): string
  {
    Lower(Suffix(Name(p)))
  }

  const ImageExtensions: set<string> := {".jpg", ".jpeg", ".png", ".gif", ".bmp", ".tiff", ".tif", ".webp"}
  const PdfExtensions: set<string> := {".pdf"}
  const DocxExtensions: set<string> := {".docx", ".doc"}
  const TextExtensions: set<string> := {".txt", ".csv", ".tsv", ".json", ".xml", ".md", ".rtf"}

  /** The type a lower-cased extension stands for. */
  function ExtensionType(ext: string): (t: FileType)
    ensures t == IMAGE <==> ext in ImageExtensions
    ensures t == PDF <==> ext in PdfExtensions
    ensures t == DOCX <==> ext in DocxExtensions
    ensures t == TEXT <==> ext in TextExtensions
    ensures (t == UNKNOWN) <==> (ext !in ImageExtensions + PdfExtensions + DocxExtensions + TextExtensions)
  {
    if ext in ImageExtensions then IMAGE
    else if ext in PdfExtensions then PDF
    else if ext in DocxExtensions then DOCX
    else if ext in TextExtensions then TEXT
    else UNKNOWN
  }

  /** `FileTypeDetector.from_extension` */
  function FromExtension(p: string): (t: FileType)
    ensures Suffix(Name(p)) == [] ==> t == UNKNOWN
    ensures t == PDF <==> Extension(p) == ".pdf"
    ensures t == DOCX <==> Extension(p) in {".docx", ".doc"}
  {
    ExtensionType(Extension(p))
  }

  /** A dot followed by at least one character, with no further dot or separator. */
  predicate DottedExtension(e: string)
  {
    2 <= |e| && e[0] == '.' && '.' !in e[1..] && '/' !in e
  }

  /**
   * Appending an extension to a path whose last component is not empty gives
   * exactly that extension, lower-cased: the type does not depend on the
   * rest of the path, on dots earlier in the name, or on letter case.
   */
  lemma ExtensionOf(stem: string, e: string)
    requires stem != [] && stem[|stem| - 1] != '/'
    requires DottedExtension(e)
    ensures Extension(stem + e) == Lower(e)
    ensures FromExtension(stem + e) == ExtensionType(Lower(e))
  {
    NameAppend(stem, e);
    SuffixAppend(stem[RFind(stem, '/') + 1..], e);
  }

  /**
   * Text without separators appended to a path extends its last component
   * as written (which `NameOfPlain` shows is the path's name unless the
   * component is `.`).
   */
  lemma NameAppend(stem: string, e: string)
    requires stem != [] && stem[|stem| - 1] != '/'
    requires e != [] && '/' !in e
    ensures stem[RFind(stem, '/') + 1..] != []
    ensures Name(stem + e) == stem[RFind(stem, '/') + 1..] + e
  {
    var p := stem + e;
    var i := RFind(stem, '/');
    assert i < |stem| - 1;
    SliceAppend(stem, e, i);
    PlainAppend(stem, e);
    NameOfPlain(p);
    RFindAppend(stem, e, '/');
  }

  /** Slicing a concatenation from inside its first part. */
  lemma SliceAppend(s: string, e: string, i: int)
    requires -1 <= i < |s|
    ensures (s + e)[i + 1..] == s[i + 1..] + e
  {
  }

  /** Separator-free text after a path that does not end in a separator leaves it ending in neither a separator nor `.`. */
  lemma PlainAppend(stem: string, e: string)
    requires stem != [] && stem[|stem| - 1] != '/'
    requires e != [] && '/' !in e
    ensures var p := stem + e; p[|p| - 1] != '/' && !EndsInDot(p)
  {
    var p := stem + e;
    assert p[|p| - 1] == e[|e| - 1];
    assert p[|p| - 2] != '/' by {
      if |e| >= 2 { assert p[|p| - 2] == e[|e| - 2]; } else { assert p[|p| - 2] == stem[|stem| - 1]; }
    }
  }

  /** A path that ends in neither a separator nor a `.` component is named by its last component as written. */
  lemma NameOfPlain(p: string)
    requires p != [] && p[|p| - 1] != '/' && !EndsInDot(p)
    ensures Name(p) == p[RFind(p, '/') + 1..]
  {
    assert DropTrailing(p) == p;
  }

  /** A trailing separator or `.` component does not change the name, as pathlib collapses both. */
  lemma TrailingDropped(p: string)
    ensures Name(p + "/") == Name(p)
    ensures Name(p + "/.") == Name(p)
  {
    var s, d := p + "/", p + "/.";
    assert s[|s| - 1] == '/' && s[..|p|] == p;
    assert DropTrailing(s) == DropTrailing(p);
    assert d[|d| - 1] == '.' && d[|d| - 2] == '/' && d[..|p| + 1] == s;
    assert EndsInDot(d);
    assert DropTrailing(d) == DropTrailing(s);
  }

  /** So a `.` component after a file name keeps its type: `x.pdf/.` is detected as a PDF, as pathlib's suffix is `.pdf`. */
  lemma DotComponentKeepsType(stem: string, e: string)
    requires stem != [] && stem[|stem| - 1] != '/'
    requires DottedExtension(e)
    ensures FromExtension(stem + e + "/.") == ExtensionType(Lower(e))
  {
    ExtensionOf(stem, e);
    TrailingDropped(stem + e);
  }

  /** A dotted extension after a non-empty name is that name's suffix. */
  lemma SuffixAppend(m: string, e: string)
    requires m != [] && DottedExtension(e)
    ensures Suffix(m + e) == e
  {
    var t := e[1..];
    assert e == ['.'] + t;
    assert m + e == (m + ['.']) + t;
    RFindAppend(m + ['.'], t, '.');
    assert RFind(m + ['.'], '.') == |m|;
    assert (m + e)[|m|..] == e;
  }

  /** The extensions of the detection test table (with `ExtensionOf`, on any stem). */
  lemma ExtensionTable()
    ensures ExtensionType(".pdf") == PDF
    ensures ExtensionType(".jpg") == IMAGE && ExtensionType(".jpeg") == IMAGE && ExtensionType(".png") == IMAGE
    ensures ExtensionType(".docx") == DOCX
    ensures ExtensionType(".txt") == TEXT
    ensures ExtensionType(".unknown") == UNKNOWN
  {
  }

  /** Detection by name ignores the letter case of the extension. */
  lemma ExtensionIgnoresCase(stem: string, e: string)
    requires stem != [] && stem[|stem| - 1] != '/'
    requires DottedExtension(e)
    ensures FromExtension(stem + e) == FromExtension(stem + Lower(e))
  {
    var l := Lower(e);
    assert DottedExtension(l) by {
      assert forall k :: 1 <= k < |e| ==> l[k] == LowerChar(e[k]) && e[k] == e[1..][k - 1];
      assert forall k :: 0 <= k < |l| - 1 ==> l[1..][k] == l[k + 1];
    }
    ExtensionOf(stem, e);
    ExtensionOf(stem, l);
    LowerFixed(l);
  }

  /**
   * A name whose only dot is its first character (a hidden file such as
   * `.pdf`), or whose last character is a dot, has no suffix, so its type is
   * unknown from the name.
   */
  lemma NoSuffixUnknown(n: string)
    requires '/' !in n
    requires n != [] && n[|n| - 1] != '/'
    requires (n[0] == '.' && '.' !in n[1..]) || n[|n| - 1] == '.'
    ensures Suffix(Name(n)) == []
    ensures FromExtension(n) == UNKNOWN
  {
    if n == "." {
      assert DropTrailing(n) == [];
      return;
    }
    assert DropTrailing(n) == n;
    assert RFind(n, '/') == -1;
    assert n[0..] == n;
    var i := RFind(n, '.');
    if n[|n| - 1] == '.' {
      assert i == |n| - 1;
    } else {
      assert n[0] == '.';
      assert i == 0;
    }
    assert Lower([]) == [];
  }

  // ---------------------------------------------------------------------------
  // Detection from the content
  // ---------------------------------------------------------------------------

  type Byte = b: int | 0 <= b < 256

  predicate HasPrefix(h: seq<Byte>, p: seq<Byte>)
  {
    |p| <= |h| && h[..|p|] == p
  }

  const PdfMagic: seq<Byte> := [0x25, 0x50, 0x44, 0x46]
  const JpegMagic: seq<Byte> := [0xff, 0xd8, 0xff]
  const PngMagic: seq<Byte> := [0x89, 0x50, 0x4e, 0x47]
  const Gif87Magic: seq<Byte> := [0x47, 0x49, 0x46, 0x38, 0x37, 0x61]
  const Gif89Magic: seq<Byte> := [0x47, 0x49, 0x46, 0x38, 0x39, 0x61]
  const BmpMagic: seq<Byte> := [0x42, 0x4d]
  const ZipMagic: seq<Byte> := [0x50, 0x4b, 0x03, 0x04]

  predicate ImageSignature(h: seq<Byte>)
  {
    HasPrefix(h, JpegMagic) || HasPrefix(h, PngMagic) || HasPrefix(h, Gif87Magic)
    || HasPrefix(h, Gif89Magic) || HasPrefix(h, BmpMagic)
  }

  /** A character the text check accepts: printable ASCII, newline, carriage return or tab. */
  predicate PrintableAscii(c: char)
  {
    (' ' <= c <= '~') || c == '\n' || c == '\r' || c == '\t'
  }

  /**
   * `FileTypeDetector.from_content`. What the file system yields is given:
   * `header` is the file's first eight bytes (None when it cannot be opened),
   * `zipNames` the archive's member names (None when it is not a readable
   * archive), `text` the first 1024 characters read as UTF-8 (None when that
   * fails).
   */
  function FromContent(header: Option<seq<Byte>>, zipNames: Option<seq<string>>, text: Option<string>): (t: FileType)
    ensures header.None? ==> t == UNKNOWN
    ensures t == PDF <==> header.Some? && HasPrefix(header.value, PdfMagic)
    ensures t == IMAGE <==> (header.Some? && !HasPrefix(header.value, PdfMagic) && ImageSignature(header.value))
    ensures t == DOCX ==> header.Some? && HasPrefix(header.value, ZipMagic) && zipNames.Some? && "word/document.xml" in zipNames.value
    ensures t == TEXT ==> text.Some? && forall i :: 0 <= i < |text.value| ==> PrintableAscii(text.value[i])
  {
    match header
    case None => UNKNOWN
    case Some(h) =>
      if HasPrefix(h, PdfMagic) then PDF
      else if ImageSignature(h) then IMAGE
      else if HasPrefix(h, ZipMagic) && zipNames.Some? && "word/document.xml" in zipNames.value then DOCX
      else if text.Some? && forall i :: 0 <= i < |text.value| ==> PrintableAscii(text.value[i]) then TEXT
      else UNKNOWN
  }

  /** `FileTypeDetector.detect`: the name decides unless it says nothing; then the content does. */
  function Detect(p: string, header: Option<seq<Byte>>, zipNames: Option<seq<string>>, text: Option<string>): (t: FileType)
    ensures FromExtension(p) != UNKNOWN ==> t == FromExtension(p)
    ensures t == UNKNOWN ==> FromExtension(p) == UNKNOWN
    ensures header.None? ==> t == FromExtension(p)
  {
    var byName := FromExtension(p);
    if byName != UNKNOWN then byName else FromContent(header, zipNames, text)
  }

  /**
   * A file named without a known extension is still recognised by its
   * content: a PDF signature makes it a PDF, and an empty readable file counts
   * as text.
   */
  lemma DetectFallsBackToContent(p: string, h: seq<Byte>, zipNames: Option<seq<string>>)
    requires FromExtension(p) == UNKNOWN
    ensures HasPrefix(h, PdfMagic) ==> Detect(p, Some(h), zipNames, None) == PDF
    ensures !HasPrefix(h, PdfMagic) && !ImageSignature(h) && !HasPrefix(h, ZipMagic) ==>
      Detect(p, Some(h), zipNames, Some("")) == TEXT
  {
  }

  // ---------------------------------------------------------------------------
  // The pipeline result
  // ---------------------------------------------------------------------------

  /** `ExtractionResult`: one extraction attempt. */
  datatype Attempt = Attempt(
    success: bool,
    methodName: string,
    data: Option<InvoiceData>,
    confidence: real,
    errorMessage: Option<string>,
    processingTimeMs: Option<int>)

  /** `PipelineResult` */
  datatype PipelineResult = PipelineResult(
    success: bool,
    sourceFile: string,
    fileType: string,
    invoiceData: Option<InvoiceData>,
    allAttempts: seq<Attempt>,
    bestMethod: Option<string>,
    totalProcessingTimeMs: Option<int>,
    errors: seq<string>,
    warnings: seq<string>)

  const LowConfidenceWarning: string := "Low confidence extraction"
  const AllFailedError: string := "All extraction methods failed"

  /** An attempt the best-attempt search can pick: successful with positive confidence. */
  predicate Usable(a: Attempt)
  {
    a.success && a.confidence > 0.0
  }

  /**
   * Attempt `b` is the best: usable, no successful attempt is more
   * confident, and every successful attempt before it is strictly less
   * confident (ties go to the earliest).
   */
  predicate IsBest(attempts: seq<Attempt>, b: int)
  {
    && 0 <= b < |attempts|
    && Usable(attempts[b])
    && (forall j :: 0 <= j < |attempts| && attempts[j].success ==> attempts[j].confidence <= attempts[b].confidence)
    && (forall j :: 0 <= j < b && attempts[j].success ==> attempts[j].confidence < attempts[b].confidence)
  }

  /** There is at most one best attempt. */
  lemma BestUnique(attempts: seq<Attempt>, b: int, c: int)
    requires IsBest(attempts, b) && IsBest(attempts, c)
    ensures b == c
  {
  }

  /** The attempts' non-empty error messages, in order. */
  function ErrorMessages(attempts: seq<Attempt>): (es: seq<string>)
    ensures |es| <= |attempts|
    ensures forall k :: 0 <= k < |es| ==> es[k] != []
    ensures (es == []) <==> forall j :: 0 <= j < |attempts| ==> attempts[j].errorMessage in {None, Some([])}
  {
    if attempts == [] then []
    else
      var rest := ErrorMessages(attempts[..|attempts| - 1]);
      var last := attempts[|attempts| - 1];
      assert forall j :: 0 <= j < |attempts| - 1 ==> attempts[..|attempts| - 1][j] == attempts[j];
      if last.errorMessage.Some? && last.errorMessage.value != [] then rest + [last.errorMessage.value] else rest
  }

  /**
   * `InvoiceProcessingPipeline._build_result`: the best attempt (see
   * `IsBest`) becomes a successful result with a low-confidence warning; when
   * no attempt is usable the result fails with the attempts' error messages,
   * or a generic one when none gave any. The elapsed time is a parameter.
   */
  method BuildResult(filePath: string, fileType: string, attempts: seq<Attempt>, totalTime: int)
    returns (r: PipelineResult)
    ensures r.sourceFile == filePath && r.fileType == fileType && r.allAttempts == attempts
    ensures r.totalProcessingTimeMs == Some(totalTime)
    ensures r.success <==> exists j :: 0 <= j < |attempts| && Usable(attempts[j])
    ensures r.success ==> (exists b :: (IsBest(attempts, b)
      && r.invoiceData == attempts[b].data && r.bestMethod == Some(attempts[b].methodName)))
    ensures r.success ==> r.errors == [] && r.warnings == [LowConfidenceWarning]
    ensures !r.success ==> r.invoiceData == None && r.bestMethod == None && r.warnings == []
    ensures !r.success ==> r.errors != []
    ensures !r.success ==> (r.errors == (if ErrorMessages(attempts) == [] then [AllFailedError] else ErrorMessages(attempts)))
  {
    var best: Option<nat> := None;
    var bestConfidence := 0.0;
    var i := 0;
    while i < |attempts|
      invariant 0 <= i <= |attempts|
      invariant best.None? ==> bestConfidence == 0.0 && forall j :: 0 <= j < i ==> !Usable(attempts[j])
      invariant best.Some? ==> (best.value < i && Usable(attempts[best.value])
        && bestConfidence == attempts[best.value].confidence)
      invariant forall j :: 0 <= j < i && attempts[j].success ==> attempts[j].confidence <= bestConfidence
      invariant best.Some? ==> (forall j :: 0 <= j < best.value && attempts[j].success ==>
        attempts[j].confidence < bestConfidence)
    {
      if attempts[i].success && attempts[i].confidence > bestConfidence {
        bestConfidence := attempts[i].confidence;
        best := Some(i);
      }
      i := i + 1;
    }
    if best.Some? {
      var a := attempts[best.value];
      assert IsBest(attempts, best.value);
      r := PipelineResult(true, filePath, fileType, a.data, attempts, Some(a.methodName), Some(totalTime), [], [LowConfidenceWarning]);
    } else {
      var errors := ErrorMessages(attempts);
      r := PipelineResult(false, filePath, fileType, None, attempts, None, Some(totalTime),
                          if errors == [] then [AllFailedError] else errors, []);
    }
  }

  // ---------------------------------------------------------------------------
  // Batch statistics
  // ---------------------------------------------------------------------------

  /** The number of successful results. */
  function SuccessCount(rs: seq<PipelineResult>): (n: nat)
    ensures n <= |rs|
  {
    if rs == [] then 0
    else SuccessCount(rs[..|rs| - 1]) + (if rs[|rs| - 1].success then 1 else 0)
  }

  /** The number of results of file type `ft`. */
  function TypeTotal(rs: seq<PipelineResult>, ft: string): (n: nat)
    ensures n <= |rs|
  {
    if rs == [] then 0
    else TypeTotal(rs[..|rs| - 1], ft) + (if rs[|rs| - 1].fileType == ft then 1 else 0)
  }

  /** The number of successful results of file type `ft`. */
  function TypeSuccess(rs: seq<PipelineResult>, ft: string): (n: nat)
    ensures n <= TypeTotal(rs, ft)
    ensures n <= SuccessCount(rs)
  {
    if rs == [] then 0
    else TypeSuccess(rs[..|rs| - 1], ft) + (if rs[|rs| - 1].fileType == ft && rs[|rs| - 1].success then 1 else 0)
  }

  /** The extraction confidences of the successful results that carry data. */
  function Confidences(rs: seq<PipelineResult>): (cs: seq<real>)
    ensures |cs| <= SuccessCount(rs)
  {
    if rs == [] then []
    else
      var r := rs[|rs| - 1];
      Confidences(rs[..|rs| - 1]) + (if r.success && r.invoiceData.Some? then [r.invoiceData.value.extractionConfidence] else [])
  }

  function Sum(xs: seq<real>): real
  {
    if xs == [] then 0.0 else Sum(xs[..|xs| - 1]) + xs[|xs| - 1]
  }

  /** The processing times, a missing one counting as zero. */
  function TotalTime(rs: seq<PipelineResult>): int
  {
    if rs == [] then 0 else TotalTime(rs[..|rs| - 1]) + rs[|rs| - 1].totalProcessingTimeMs.GetOr(0)
  }

  /** Every successful result's data has a confidence in [0, 1], as the data model enforces. */
  predicate ConfidencesInRange(rs: seq<PipelineResult>)
  {
    forall k :: 0 <= k < |rs| && rs[k].invoiceData.Some? ==>
      0.0 <= rs[k].invoiceData.value.extractionConfidence <= 1.0
  }

  /** The mean of the confidences lies in [0, 1] when each of them does. */
  lemma {:induction false} ConfidenceSumBounded(rs: seq<PipelineResult>)
    requires ConfidencesInRange(rs)
    ensures 0.0 <= Sum(Confidences(rs)) <= |Confidences(rs)| as real
  {
    if rs != [] {
      var init := rs[..|rs| - 1];
      assert ConfidencesInRange(init) by {
        assert forall k :: 0 <= k < |init| ==> init[k] == rs[k];
      }
      ConfidenceSumBounded(init);
      var r := rs[|rs| - 1];
      var cs := Confidences(rs);
      if r.success && r.invoiceData.Some? {
        var x := r.invoiceData.value.extractionConfidence;
        assert cs == Confidences(init) + [x];
        assert cs[..|cs| - 1] == Confidences(init);
        assert 0.0 <= x <= 1.0;
        assert Sum(cs) == Sum(Confidences(init)) + x;
      } else {
        assert cs == Confidences(init);
      }
    }
  }

  datatype TypeCount = TypeCount(total: nat, success: nat)

  /** One more result adds to its own type's counts and to no other's. */
  lemma TypeCountsStep(rs: seq<PipelineResult>, i: nat, ft: string)
    requires i < |rs|
    ensures TypeTotal(rs[..i + 1], ft) == TypeTotal(rs[..i], ft) + (if rs[i].fileType == ft then 1 else 0)
    ensures TypeSuccess(rs[..i + 1], ft) == TypeSuccess(rs[..i], ft) + (if rs[i].fileType == ft && rs[i].success then 1 else 0)
  {
    assert rs[..i + 1][..i] == rs[..i];
  }

  /** The dictionary `get_statistics` returns. */
  datatype Statistics = Statistics(
    totalFiles: nat,
    successful: nat,
    failed: nat,
    successRate: real,
    byFileType: map<string, TypeCount>,
    averageConfidence: real,
    totalProcessingTimeMs: int,
    averageProcessingTimeMs: real)

  /** `a / b`, or 0 when `b` is 0, as `get_statistics` divides. */
  function Ratio(a: real, b: nat): real
  {
    if b > 0 then a / b as real else 0.0
  }

  /** A part of a whole is a fraction in [0, 1]. */
  lemma RatioAtMostOne(a: real, b: nat)
    requires 0.0 <= a <= b as real
    ensures 0.0 <= Ratio(a, b) <= 1.0
  {
    if b > 0 {
      var q := a / b as real;
      assert q * b as real == a;
    }
  }

  /**
   * `InvoiceProcessingPipeline.get_statistics`: counts, per-type counts,
   * rates and averages over a batch; every division guards an empty batch.
   */
  method GetStatistics(rs: seq<PipelineResult>) returns (s: Statistics)
    ensures s.totalFiles == |rs| && s.successful == SuccessCount(rs)
    ensures s.successful + s.failed == s.totalFiles
    ensures |rs| == 0 ==> s.successRate == 0.0 && s.averageProcessingTimeMs == 0.0
    ensures |rs| > 0 ==> s.successRate == s.successful as real / |rs| as real
    ensures 0.0 <= s.successRate <= 1.0
    ensures forall ft :: ft in s.byFileType <==> TypeTotal(rs, ft) > 0
    ensures forall ft :: ft in s.byFileType ==>
      s.byFileType[ft] == TypeCount(TypeTotal(rs, ft), TypeSuccess(rs, ft))
    ensures s.averageConfidence == Ratio(Sum(Confidences(rs)), |Confidences(rs)|)
    ensures s.totalProcessingTimeMs == TotalTime(rs)
    ensures |rs| > 0 ==> s.averageProcessingTimeMs == TotalTime(rs) as real / |rs| as real
  {
    var total := |rs|;
    var successful := SuccessCount(rs);
    var failed := total - successful;
    var byType: map<string, TypeCount> := map[];
    var i := 0;
    while i < |rs|
      invariant 0 <= i <= |rs|
      invariant forall ft :: ft in byType <==> TypeTotal(rs[..i], ft) > 0
      invariant forall ft :: ft in byType ==>
        byType[ft] == TypeCount(TypeTotal(rs[..i], ft), TypeSuccess(rs[..i], ft))
    {
      var r := rs[i];
      var ft := r.fileType;
      var c := if ft in byType then byType[ft] else TypeCount(0, 0);
      var updated := byType[ft := TypeCount(c.total + 1, if r.success then c.success + 1 else c.success)];
      forall g
        ensures g in updated <==> TypeTotal(rs[..i + 1], g) > 0
        ensures g in updated ==> updated[g] == TypeCount(TypeTotal(rs[..i + 1], g), TypeSuccess(rs[..i + 1], g))
      {
        TypeCountsStep(rs, i, g);
      }
      byType := updated;
      i := i + 1;
    }
    assert rs[..|rs|] == rs;
    var cs := Confidences(rs);
    var averageConfidence := Ratio(Sum(cs), |cs|);
    var totalTime := TotalTime(rs);
    var rate := Ratio(successful as real, total);
    RatioAtMostOne(successful as real, total);
    s := Statistics(total, successful, failed, rate, byType, averageConfidence,
                    totalTime, Ratio(totalTime as real, total));
  }

  /** With the data model's confidence range, the batch's average confidence lies in [0, 1]. */
  lemma AverageConfidenceBounded(rs: seq<PipelineResult>)
    requires ConfidencesInRange(rs)
    ensures 0.0 <= Ratio(Sum(Confidences(rs)), |Confidences(rs)|) <= 1.0
  {
    ConfidenceSumBounded(rs);
    RatioAtMostOne(Sum(Confidences(rs)), |Confidences(rs)|);
  }
}
