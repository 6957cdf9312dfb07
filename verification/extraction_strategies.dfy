/**
 * The sandbox extraction strategies (invoice_bot/e2b_agent/strategies.py):
 * the registry of strategies with their cost tiers and packages, and the
 * order in which they are tried for a file type.
 */
module ExtractionStrategies {
  import opened Wrappers
  import opened Sequences

  datatype StrategyType =
    | PYTESSERACT_BASIC
    | PYTESSERACT_ENHANCED
    | PDFPLUMBER_TEXT
    | PDFPLUMBER_TABLES
    | EASYOCR
    | GPT4_VISION

  /**
   * `ExtractionStrategy` without its description and code template, which
   * are text run inside the sandbox.
   */
  datatype ExtractionStrategy = ExtractionStrategy(
    name: StrategyType,
    costTier: nat,
    bestFor: seq<string>,
    requiresPackages: seq<string>)

  /**
   * `STRATEGIES.get(t)`: every strategy but vision has an entry under its
   * own name, in cost tier 1 or 2; vision has none.
   */
  function Strategies(t: StrategyType): (r: Option<ExtractionStrategy>)
    ensures r.Some? <==> t != GPT4_VISION
    ensures r.Some? ==> r.value.name == t && 1 <= r.value.costTier <= 2
  {
    match t
    case PYTESSERACT_BASIC =>
      Some(ExtractionStrategy(PYTESSERACT_BASIC, 1, ["clear_print", "digital_pdf", "high_quality_scan"],
                              ["pytesseract", "Pillow"]))
    case PYTESSERACT_ENHANCED =>
      Some(ExtractionStrategy(PYTESSERACT_ENHANCED, 1, ["low_contrast", "faded_text", "scanned_document"],
                              ["pytesseract", "Pillow"]))
    case PDFPLUMBER_TEXT =>
      Some(ExtractionStrategy(PDFPLUMBER_TEXT, 1, ["digital_pdf", "text_pdf", "native_pdf"], ["pdfplumber"]))
    case PDFPLUMBER_TABLES =>
      Some(ExtractionStrategy(PDFPLUMBER_TABLES, 1, ["invoice_with_tables", "structured_pdf", "itemized_invoice"],
                              ["pdfplumber"]))
    case EASYOCR =>
      Some(ExtractionStrategy(EASYOCR, 2, ["handwritten", "varied_fonts", "complex_backgrounds"], ["easyocr"]))
    case GPT4_VISION => None
  }

  /** The cost tier of a registered strategy. */
  function Tier(t: StrategyType): nat
    requires t != GPT4_VISION
  {
    Strategies(t).value.costTier
  }

  /**
   * `get_strategy_order`: a PDF gets the two PDF readers and then the two
   * OCR passes; anything else gets the three OCR passes; both end with
   * vision, and no strategy is listed twice.
   */
  function StrategyOrder(fileType: string): (r: seq<StrategyType>)
    ensures NoDup(r) && r != [] && r[|r| - 1] == GPT4_VISION
    ensures GPT4_VISION !in r[..|r| - 1]
    ensures PDFPLUMBER_TEXT in r <==> fileType == "pdf"
    ensures PDFPLUMBER_TABLES in r <==> fileType == "pdf"
    ensures EASYOCR in r <==> fileType != "pdf"
    ensures fileType == "pdf" ==> |r| == 5 && r[0] == PDFPLUMBER_TEXT
    ensures fileType != "pdf" ==> |r| == 4 && r[0] == PYTESSERACT_BASIC
  {
    if fileType == "pdf" then
      [PDFPLUMBER_TEXT, PDFPLUMBER_TABLES, PYTESSERACT_BASIC, PYTESSERACT_ENHANCED, GPT4_VISION]
    else
      [PYTESSERACT_BASIC, PYTESSERACT_ENHANCED, EASYOCR, GPT4_VISION]
  }

  /**
   * Cheaper strategies come first: along either order, the cost tiers of
   * the registered strategies never decrease.
   */
  lemma CheaperFirst(fileType: string)
    ensures var r := StrategyOrder(fileType);
      forall i, j :: 0 <= i < j < |r| - 1 ==> Tier(r[i]) <= Tier(r[j])
  {
    var r := StrategyOrder(fileType);
    forall i, j | 0 <= i < j < |r| - 1
      ensures Tier(r[i]) <= Tier(r[j])
    {
      assert r[i] != EASYOCR;
    }
  }

  /** The packages the agent installs in a sandbox before running a strategy. */
  const InstalledPackages: seq<string> := ["pytesseract", "Pillow", "pdfplumber"]

  /**
   * Every strategy of the PDF order and the two OCR passes find their
   * packages installed; EasyOCR's package is not among them, so it relies
   * on the sandbox image providing it.
   */
  lemma PackagesInstalled()
    ensures forall t | t in StrategyOrder("pdf") && t != GPT4_VISION ::
      forall p | p in Strategies(t).value.requiresPackages :: p in InstalledPackages
    ensures "easyocr" in Strategies(EASYOCR).value.requiresPackages && "easyocr" !in InstalledPackages
  {
  }
}
