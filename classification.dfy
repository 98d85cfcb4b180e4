// The rule-based classifier: an extension decides the class and base
// confidence, a generic camera/scanner name raises the confidence by 8
// points (capped at 99), and anything under 60 goes to manual review.
module Classification {
  import opened Wrappers
  import opened Strings
  import opened Paths
  import opened Contracts
  import opened NamePatterns
  import opened Ints

  const ImageExtensions: seq<string> := [".png", ".jpg", ".jpeg", ".webp"]
  const DocumentExtensions: seq<string> := [".pdf", ".docx", ".doc", ".txt", ".csv"]
  const ManualReviewThreshold: int := 60
  const LabelLength: nat := 80

  /** The classifier's base name as written: `path.basename(filename, ext)`
      with `ext` already lower-cased, so an upper-case extension is not removed. */
  function ClassifierBaseAsWritten(filename: string, extension: string): string
  {
    ToLower(BasenameWithout(filename, ToLower(extension)))
  }

  /** The classifier's base name as intended. */
  function ClassifierBase(filename: string, extension: string): string
  {
    ToLower(StripExtensionAnyCase(filename, ToLower(extension)))
  }

  predicate IsInstallerExtension(ext: string) { ext == ".exe" || ext == ".msi" }
  predicate IsArchiveExtension(ext: string) { ext == ".zip" || ext == ".rar" || ext == ".7z" }
  predicate IsImageExtension(ext: string) { ext == ".png" || ext == ".jpg" || ext == ".jpeg" || ext == ".webp" }
  predicate IsDocumentExtension(ext: string)
  {
    ext == ".pdf" || ext == ".docx" || ext == ".doc" || ext == ".txt" || ext == ".csv"
  }

  /** Which branch of the extension if-chain applies, first match wins. */
  datatype RuleKind = InstallerRule | ArchiveRule | ScreenshotRule | ImageRule | DocumentRule | NoRule

  function MatchedRule(ext: string, base: string): RuleKind
  {
    if IsInstallerExtension(ext) then InstallerRule
    else if IsArchiveExtension(ext) then ArchiveRule
    else if IsImageExtension(ext) && IsScreenshotName(base) then ScreenshotRule
    else if IsImageExtension(ext) then ImageRule
    else if IsDocumentExtension(ext) then DocumentRule
    else NoRule
  }

  function RuleClassification(k: RuleKind): string
  {
    match k
    case InstallerRule => "installer"
    case ArchiveRule => "archive_zip"
    case ScreenshotRule => "screenshot_ui"
    case ImageRule => "image_asset"
    case DocumentRule => "document_general"
    case NoRule => "unknown"
  }

  function RuleConfidence(k: RuleKind): int
  {
    match k
    case InstallerRule => 96
    case ArchiveRule => 91
    case ScreenshotRule => 90
    case ImageRule => 70
    case DocumentRule => 76
    case NoRule => 52
  }

  // The rationales the rules give.
  const InstallerRationale: string := "Installer extension detected."
  const ArchiveRationale: string := "Archive extension detected."
  const ScreenshotRationale: string := "Image extension and screenshot naming pattern detected."
  const ImageRationale: string := "Image extension detected."
  const DocumentRationale: string := "Document extension detected."
  const NoRuleRationale: string := "No high-confidence pattern detected."

  function RuleRationale(k: RuleKind): string
  {
    match k
    case InstallerRule => InstallerRationale
    case ArchiveRule => ArchiveRationale
    case ScreenshotRule => ScreenshotRationale
    case ImageRule => ImageRationale
    case DocumentRule => DocumentRationale
    case NoRule => NoRuleRationale
  }

  // The fixed parts of the labels.
  const InstallerPrefix: string := "installer-"
  const InstallerFallback: string := "package"
  const ArchivePrefix: string := "archive-"
  const ScreenshotPrefix: string := "screenshot-"
  const ScreenshotFallback: string := "capture"
  const NoRuleFallback: string := "file"
  const GenericFallback: string := "document"

  /** The label each branch assigns before the generic-name rule. */
  function RuleLabel(k: RuleKind, base: string): string
  {
    match k
    case InstallerRule => InstallerPrefix + OrDefault(Slug(RemoveInstallerWord(base), LabelLength), InstallerFallback)
    case ArchiveRule => ArchivePrefix + Slug(base, LabelLength)
    case ScreenshotRule => ScreenshotPrefix + OrDefault(Slug(RemoveScreenshotWord(base), LabelLength), ScreenshotFallback)
    case ImageRule => Slug(base, LabelLength)
    case DocumentRule => Slug(base, LabelLength)
    case NoRule => Slug(OrDefault(base, NoRuleFallback), LabelLength)
  }

  /** The fields a classification must leave as they were. */
  predicate SameFile(a: ScanCandidate, b: ScanCandidate)
  {
    a.fileId == b.fileId && a.absolutePath == b.absolutePath && a.parentPath == b.parentPath
    && a.filename == b.filename && a.extension == b.extension && a.mimeType == b.mimeType
    && a.sizeBytes == b.sizeBytes && a.createdAtFs == b.createdAtFs && a.modifiedAtFs == b.modifiedAtFs
  }

  // A reference statement of the rules as a table, independent of the
  // if-chain above.
  datatype RuleRow = RuleRow(extensions: seq<string>, needsScreenshotName: bool, classification: string, confidence: int)

  const RuleTable: seq<RuleRow> := [
    RuleRow([".exe", ".msi"], false, "installer", 96),
    RuleRow([".zip", ".rar", ".7z"], false, "archive_zip", 91),
    RuleRow(ImageExtensions, true, "screenshot_ui", 90),
    RuleRow(ImageExtensions, false, "image_asset", 70),
    RuleRow(DocumentExtensions, false, "document_general", 76)
  ]

  predicate RowMatches(row: RuleRow, ext: string, base: string)
  {
    ext in row.extensions && (row.needsScreenshotName ==> IsScreenshotName(base))
  }

  /** Class and base confidence of the first matching row; ("unknown", 52) when none matches. */
  function TableLookup(rows: seq<RuleRow>, ext: string, base: string): (string, int)
  {
    if rows == [] then ("unknown", 52)
    else if RowMatches(rows[0], ext, base) then (rows[0].classification, rows[0].confidence)
    else TableLookup(rows[1..], ext, base)
  }

  function Classify(c: ScanCandidate): (r: ScanCandidate)
    ensures SameFile(r, c)
    ensures var base := ClassifierBase(c.filename, c.extension);
      var row := TableLookup(RuleTable, ToLower(c.extension), base);
      && r.classification == Some(row.0)
      && r.confidence == Some(if IsGenericName(base) then Min(99, row.1 + 8) else row.1)
    ensures r.confidence.Some? && r.manualReview == Some(r.confidence.value < ManualReviewThreshold)
    ensures r.generatedLabel.Some? && r.rationale.Some?
  {
    var ext := ToLower(c.extension);
    var base := ClassifierBase(c.filename, c.extension);
    var k := MatchedRule(ext, base);
    MatchedRuleFollowsTable(ext, base);
    var generic := IsGenericName(base);
    var name := if generic then GenericLabel(base) else RuleLabel(k, base);
    var confidence := if generic then Min(99, RuleConfidence(k) + 8) else RuleConfidence(k);
    c.(classification := Some(RuleClassification(k)), confidence := Some(confidence),
       generatedLabel := Some(name), rationale := Some(RuleRationale(k)),
       manualReview := Some(confidence < ManualReviewThreshold))
  }

  /** The generic-name label: the slug without copy counters, or "document". */
  function GenericLabel(base: string): string
  {
    OrDefault(Slug(RemoveCopyCounters(base), LabelLength), GenericFallback)
  }

  /** Each row of the table matches exactly when its test in the if-chain holds. */
  lemma RuleRowsMatch(ext: string, base: string)
    ensures |RuleTable| == 5
    ensures RowMatches(RuleTable[0], ext, base) <==> IsInstallerExtension(ext)
    ensures RowMatches(RuleTable[1], ext, base) <==> IsArchiveExtension(ext)
    ensures RowMatches(RuleTable[2], ext, base) <==> IsImageExtension(ext) && IsScreenshotName(base)
    ensures RowMatches(RuleTable[3], ext, base) <==> IsImageExtension(ext)
    ensures RowMatches(RuleTable[4], ext, base) <==> IsDocumentExtension(ext)
  {
  }

  /** The if-chain agrees with the rule table. */
  lemma MatchedRuleFollowsTable(ext: string, base: string)
    ensures var k := MatchedRule(ext, base);
      (RuleClassification(k), RuleConfidence(k)) == TableLookup(RuleTable, ext, base)
  {
    var t := RuleTable;
    RuleRowsMatch(ext, base);
    var t1, t2, t3, t4 := t[1..], t[2..], t[3..], t[4..];
    assert t1[0] == t[1] && t1[1..] == t2;
    assert t2[0] == t[2] && t2[1..] == t3;
    assert t3[0] == t[3] && t3[1..] == t4;
    assert t4[0] == t[4] && t4[1..] == [];
    assert TableLookup([], ext, base) == ("unknown", 52);
    var k := MatchedRule(ext, base);
    var d := if IsDocumentExtension(ext) then ("document_general", 76) else ("unknown", 52);
    assert TableLookup(t4, ext, base) == d;
    var i := if IsImageExtension(ext) then ("image_asset", 70) else d;
    assert TableLookup(t3, ext, base) == i;
    var sc := if IsImageExtension(ext) && IsScreenshotName(base) then ("screenshot_ui", 90) else i;
    assert TableLookup(t2, ext, base) == sc;
    var a := if IsArchiveExtension(ext) then ("archive_zip", 91) else sc;
    assert TableLookup(t1, ext, base) == a;
  }

  /** `classifyBatch`: one classified candidate per input, in order. */
  function ClassifyBatch(cs: seq<ScanCandidate>): (r: seq<ScanCandidate>)
    ensures |r| == |cs|
    ensures forall i :: 0 <= i < |cs| ==> r[i] == Classify(cs[i]) && SameFile(r[i], cs[i])
  {
    seq(|cs|, i requires 0 <= i < |cs| => Classify(cs[i]))
  }

  /** Only a file that matches no rule and has no generic name is sent to
      manual review; every other file is confident enough. */
  lemma ManualReviewIffUnrecognised(c: ScanCandidate)
    ensures var base := ClassifierBase(c.filename, c.extension);
      (Classify(c).manualReview == Some(true))
        <==> (Classify(c).classification == Some("unknown") && !IsGenericName(base))
    ensures 52 <= Classify(c).confidence.value <= 99
  {
  }

  /** Labels use the slug alphabet; only an archive whose name slugs to
      nothing ends with a dash ("archive-"). */
  lemma ClassifyLabelShape(c: ScanCandidate)
    ensures SlugAlphabet(Classify(c).generatedLabel.value)
    ensures |Classify(c).generatedLabel.value| <= 11 + LabelLength
    ensures var l := Classify(c).generatedLabel.value;
      l != [] && l[|l| - 1] == '-' ==>
        Classify(c).classification == Some("archive_zip") && l == ArchivePrefix
  {
    var base := ClassifierBase(c.filename, c.extension);
    if IsGenericName(base) {
      GenericLabelShape(base);
    } else {
      RuleLabelShape(MatchedRule(ToLower(c.extension), base), base);
    }
  }

  lemma GenericLabelShape(base: string)
    ensures SlugShaped(GenericLabel(base)) && GenericLabel(base) != []
    ensures |GenericLabel(base)| <= LabelLength
  {
    SlugIsShaped(RemoveCopyCounters(base), LabelLength);
    FallbacksShaped();
  }

  /** What each branch's label looks like. */
  predicate LabelShaped(k: RuleKind, l: string)
  {
    && SlugAlphabet(l) && |l| <= 11 + LabelLength
    && (l != [] && l[|l| - 1] == '-' ==> k == ArchiveRule && l == ArchivePrefix)
  }

  lemma RuleLabelShape(k: RuleKind, base: string)
    ensures LabelShaped(k, RuleLabel(k, base))
  {
    match k
    case InstallerRule => InstallerLabelShape(base);
    case ArchiveRule => ArchiveLabelShape(base);
    case ScreenshotRule => ScreenshotLabelShape(base);
    case ImageRule => SlugIsShaped(base, LabelLength);
    case DocumentRule => SlugIsShaped(base, LabelLength);
    case NoRule => SlugIsShaped(OrDefault(base, NoRuleFallback), LabelLength);
  }

  lemma PrefixesShaped()
    ensures SlugAlphabet(InstallerPrefix) && |InstallerPrefix| <= 11
    ensures SlugAlphabet(ArchivePrefix) && |ArchivePrefix| <= 11
    ensures SlugAlphabet(ScreenshotPrefix) && |ScreenshotPrefix| <= 11
  {
  }

  lemma FallbacksShaped()
    ensures SlugShaped(InstallerFallback) && InstallerFallback != [] && |InstallerFallback| <= LabelLength
    ensures SlugShaped(ScreenshotFallback) && ScreenshotFallback != [] && |ScreenshotFallback| <= LabelLength
    ensures SlugShaped(GenericFallback) && GenericFallback != [] && |GenericFallback| <= LabelLength
  {
  }

  lemma InstallerLabelShape(base: string)
    ensures LabelShaped(InstallerRule, RuleLabel(InstallerRule, base))
  {
    PrefixesShaped();
    FallbacksShaped();
    PrefixedLabelShape(InstallerPrefix, RemoveInstallerWord(base), InstallerFallback);
  }

  lemma ScreenshotLabelShape(base: string)
    ensures LabelShaped(ScreenshotRule, RuleLabel(ScreenshotRule, base))
  {
    PrefixesShaped();
    FallbacksShaped();
    PrefixedLabelShape(ScreenshotPrefix, RemoveScreenshotWord(base), ScreenshotFallback);
  }

  lemma PrefixedLabelShape(p: string, s: string, fallback: string)
    requires SlugAlphabet(p) && |p| <= 11
    requires SlugShaped(fallback) && fallback != [] && |fallback| <= LabelLength
    ensures var l := p + OrDefault(Slug(s, LabelLength), fallback);
      SlugAlphabet(l) && |l| <= 11 + LabelLength && l != [] && l[|l| - 1] != '-'
  {
    FallbackSlugShape(s, fallback);
    PrefixedAlphabet(p, OrDefault(Slug(s, LabelLength), fallback));
  }

  lemma ArchiveLabelShape(base: string)
    ensures LabelShaped(ArchiveRule, RuleLabel(ArchiveRule, base))
  {
    SlugIsShaped(base, LabelLength);
    PrefixesShaped();
    PrefixedAlphabet(ArchivePrefix, Slug(base, LabelLength));
  }

  lemma FallbackSlugShape(s: string, fallback: string)
    requires SlugShaped(fallback) && fallback != [] && |fallback| <= LabelLength
    ensures var l := OrDefault(Slug(s, LabelLength), fallback);
      SlugShaped(l) && l != [] && |l| <= LabelLength
  {
    SlugIsShaped(s, LabelLength);
  }

  lemma PrefixedAlphabet(p: string, s: string)
    requires SlugAlphabet(p) && SlugShaped(s)
    ensures SlugAlphabet(p + s)
    ensures s != [] ==> (p + s)[|p + s| - 1] == s[|s| - 1]
    ensures s == [] ==> p + s == p
  {
    forall i | 0 <= i < |p + s| ensures IsSlugChar((p + s)[i]) || (p + s)[i] == '-' {
      if i < |p| { assert (p + s)[i] == p[i]; } else { assert (p + s)[i] == s[i - |p|]; }
    }
  }

  lemma ToLowerIdempotent(s: string)
    ensures ToLower(ToLower(s)) == ToLower(s)
  {
  }

  /** For a file name already in lower case the intended base name is the
      base name as written. */
  lemma ClassifierBaseAgrees(filename: string, extension: string)
    requires ToLower(BaseName(filename)) == BaseName(filename)
    ensures ClassifierBase(filename, extension) == ClassifierBaseAsWritten(filename, extension)
  {
    ToLowerIdempotent(extension);
  }

  /** The intended base name drops the extension whatever its case. */
  lemma ClassifierBaseDropsAnyCase(stem: string, e: string)
    requires NoSep(stem + e) && e != [] && stem != []
    ensures ClassifierBase(stem + e, e) == ToLower(stem)
  {
    ToLowerIdempotent(e);
    StripDropsAnyCase(stem, e, ToLower(e));
  }

  /** `path.basename` keeps an upper-case extension given in lower case. */
  lemma UpperJpgKept()
    ensures BasenameWithout("IMG_1234.JPG", ".jpg") == "IMG_1234.JPG"
  {
    CameraFileIsName();
    CameraFileKeepsExtension();
  }

  lemma CameraFileIsName()
    ensures BaseName("IMG_1234.JPG") == "IMG_1234.JPG"
  {
    BaseNameOfName("IMG_1234.JPG");
  }

  lemma CameraFileKeepsExtension()
    ensures !EndsWith("IMG_1234.JPG", ".jpg") && "IMG_1234.JPG" != ".jpg"
  {
    assert "IMG_1234.JPG"[8..][1] == 'J';
  }

  lemma CameraNameLower()
    ensures ToLower("IMG_1234.JPG") == "img_1234.jpg"
  {
  }

  lemma AsWrittenKeepsUpperExtension()
    ensures ClassifierBaseAsWritten("IMG_1234.JPG", ".jpg") == "img_1234.jpg"
  {
    calc {
      ClassifierBaseAsWritten("IMG_1234.JPG", ".jpg");
      == { JpgLower(); }
      ToLower(BasenameWithout("IMG_1234.JPG", ".jpg"));
      == { UpperJpgKept(); }
      ToLower("IMG_1234.JPG");
      == { CameraNameLower(); }
      "img_1234.jpg";
    }
  }

  lemma JpgLower()
    ensures ToLower(".jpg") == ".jpg"
  {
  }

  lemma DottedNameIsNotGeneric()
    ensures !IsGenericName("img_1234.jpg")
  {
    var w := "img_1234.jpg";
    assert w[3..] == "_1234.jpg";
    assert !AllDigits("1234.jpg") by { assert "1234.jpg"[4] == '.'; }
    assert !AllDigits("_1234.jpg") by { assert "_1234.jpg"[0] == '_'; }
    assert "_1234.jpg"[1..] == "1234.jpg";
    assert !StartsWith(w, "document") by { assert w[..8][0] == 'i'; }
    assert !StartsWith(w, "untitled") by { assert w[..8][0] == 'i'; }
    assert !StartsWith(w, "new") by { assert w[..3][0] == 'i'; }
    assert !StartsWith(w, "scan") by { assert w[..4][0] == 'i'; }
  }

  lemma CameraNameIsGeneric()
    ensures IsGenericName("img_1234")
  {
    var g := "img_1234";
    assert g[..3] == "img";
    assert g[3..] == "_1234";
    assert "_1234"[1..] == "1234";
    assert AllDigits("1234");
  }

  /** The intended base name depends on the extension's letters only up
      to case. */
  lemma ClassifierBaseCaseBlind(filename: string, e1: string, e2: string)
    requires ToLower(e1) == ToLower(e2)
    ensures ClassifierBase(filename, e1) == ClassifierBase(filename, e2)
  {
  }

  /** The intended base name of a file drops its extension given in any
      case. */
  lemma ClassifierBaseDropsLowered(stem: string, e: string)
    requires NoSep(stem + e) && e != [] && stem != []
    ensures ClassifierBase(stem + e, ToLower(e)) == ToLower(stem)
  {
    ClassifierBaseDropsAnyCase(stem, e);
    ToLowerIdempotent(e);
    ClassifierBaseCaseBlind(stem + e, ToLower(e), e);
  }

  /** The intended base name of the camera file drops its upper-case
      extension. */
  lemma IntendedDropsUpperExtension()
    ensures ClassifierBase("IMG_1234.JPG", ".jpg") == "img_1234"
  {
    assert "IMG_1234" + ".JPG" == "IMG_1234.JPG";
    assert ToLower(".JPG") == ".jpg";
    assert ToLower("IMG_1234") == "img_1234";
    ClassifierBaseDropsLowered("IMG_1234", ".JPG");
  }

  /** A camera file with an upper-case extension: as written its base name
      keeps ".jpg" and misses the generic-name rule; as intended it does not. */
  lemma UpperCaseExtensionMissesGenericRule()
    ensures ClassifierBaseAsWritten("IMG_1234.JPG", ".jpg") == "img_1234.jpg"
    ensures !IsGenericName(ClassifierBaseAsWritten("IMG_1234.JPG", ".jpg"))
    ensures ClassifierBase("IMG_1234.JPG", ".jpg") == "img_1234"
    ensures IsGenericName(ClassifierBase("IMG_1234.JPG", ".jpg"))
  {
    AsWrittenKeepsUpperExtension();
    DottedNameIsNotGeneric();
    IntendedDropsUpperExtension();
    CameraNameIsGeneric();
  }
}
