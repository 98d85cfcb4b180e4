// The file-name patterns the classifier and the proposal generator use
// (their regular expressions, written out as predicates and functions on
// lower-cased ASCII text) and the label slug.
module NamePatterns {
  import opened Strings

  // ---------------------------------------------------------------------
  // Generic camera / scanner / editor names:
  // ^(img[_-]?\d+|document( ?\(\d+\))?|untitled( ?\(\d+\))?|new[-_ ]?document|scan( ?\(\d+\))?)$

  /** "(" digits ")" with at least one digit. */
  predicate ParenNumber(s: string)
  {
    |s| >= 3 && s[0] == '(' && s[|s| - 1] == ')' && AllDigits(s[1..|s| - 1])
  }

  /** The optional copy counter ` ?\(\d+\)`. */
  predicate OptCopySuffix(s: string)
  {
    s == [] || ParenNumber(s) || (s[0] == ' ' && ParenNumber(s[1..]))
  }

  predicate ImgRest(r: string)
  {
    (|r| >= 1 && AllDigits(r)) || (|r| >= 2 && (r[0] == '_' || r[0] == '-') && AllDigits(r[1..]))
  }

  predicate NewDocumentRest(r: string)
  {
    r == "document" || (|r| == 9 && (r[0] == '-' || r[0] == '_' || r[0] == ' ') && r[1..] == "document")
  }

  /** Whole-string match of the generic-name pattern on lower-cased text. */
  predicate IsGenericName(s: string)
  {
    (StartsWith(s, "img") && ImgRest(s[3..]))
    || (StartsWith(s, "document") && OptCopySuffix(s[8..]))
    || (StartsWith(s, "untitled") && OptCopySuffix(s[8..]))
    || (StartsWith(s, "new") && NewDocumentRest(s[3..]))
    || (StartsWith(s, "scan") && OptCopySuffix(s[4..]))
  }

  // ---------------------------------------------------------------------
  // Screenshot names: (screenshot|screen[-_ ]?shot|snip|capture), unanchored.

  /** Length of the first alternative matching at `i`, 0 when none does. */
  function ScreenshotMatchAt(s: string, i: nat): (n: nat)
    requires i <= |s|
    ensures n == 0 || (n >= 4 && i + n <= |s|)
  {
    var t := s[i..];
    if StartsWith(t, "screenshot") then 10
    else if |t| >= 11 && t[..6] == "screen" && (t[6] == '-' || t[6] == '_' || t[6] == ' ') && t[7..11] == "shot" then 11
    else if StartsWith(t, "snip") then 4
    else if StartsWith(t, "capture") then 7
    else 0
  }

  /** Leftmost match at or after `i`: its position and length. */
  function FirstScreenshotMatch(s: string, i: nat): (m: Option2)
    requires i <= |s|
    ensures m.Found? ==> i <= m.pos && m.pos + m.len <= |s| && m.len > 0 && ScreenshotMatchAt(s, m.pos) == m.len
    ensures m.Found? ==> forall j :: i <= j < m.pos ==> ScreenshotMatchAt(s, j) == 0
    ensures m.NotFound? ==> forall j :: i <= j <= |s| ==> ScreenshotMatchAt(s, j) == 0
    decreases |s| - i
  {
    if ScreenshotMatchAt(s, i) > 0 then Found(i, ScreenshotMatchAt(s, i))
    else if i == |s| then NotFound
    else FirstScreenshotMatch(s, i + 1)
  }

  /** A match position and length, or none. */
  datatype Option2 = NotFound | Found(pos: nat, len: nat)

  predicate IsScreenshotName(s: string)
  {
    FirstScreenshotMatch(s, 0).Found?
  }

  /** `s.replace(SCREENSHOT_NAME_RE, "")`: removes the first match only. */
  function RemoveScreenshotWord(s: string): string
  {
    match FirstScreenshotMatch(s, 0)
    case NotFound => s
    case Found(p, n) => s[..p] + s[p + n..]
  }

  // ---------------------------------------------------------------------
  // Installer suffix: [_\s]+installer, first match removed.

  /** `[_\s]`: an underscore or a character JavaScript's `\s` matches (the
      ASCII spaces, the Unicode space separators, the line and paragraph
      separators and the byte-order mark). */
  predicate IsSpaceOrUnderscore(c: char)
  {
    c == '_' || c == ' ' || c == '\t' || c == '\n' || c == '\r' || c == '\U{B}' || c == '\U{C}'
    || c == '\U{A0}' || c == '\U{1680}' || ('\U{2000}' <= c <= '\U{200A}') || c == '\U{2028}' || c == '\U{2029}'
    || c == '\U{202F}' || c == '\U{205F}' || c == '\U{3000}' || c == '\U{FEFF}'
  }

  /** End of the run of spaces and underscores that starts at `i`. */
  function RunEnd(s: string, i: nat): (j: nat)
    requires i <= |s|
    ensures i <= j <= |s|
    ensures forall k :: i <= k < j ==> IsSpaceOrUnderscore(s[k])
    ensures j == |s| || !IsSpaceOrUnderscore(s[j])
    decreases |s| - i
  {
    if i < |s| && IsSpaceOrUnderscore(s[i]) then RunEnd(s, i + 1) else i
  }

  /** `[_\s]+installer` matches at `i`: the greedy run of spaces and
      underscores from `i` is non-empty and "installer" follows it (no
      backtracking can help, since 'i' is not in the run's class). */
  predicate InstallerMatchAt(s: string, i: nat)
    requires i <= |s|
  {
    i < |s| && IsSpaceOrUnderscore(s[i]) && StartsWith(s[RunEnd(s, i)..], "installer")
  }

  /** Leftmost match at or after `i`: its position, and the length of the
      run plus "installer". */
  function FirstInstallerMatch(s: string, i: nat): (m: Option2)
    requires i <= |s|
    ensures m.Found? ==> i <= m.pos && m.pos + m.len <= |s| && InstallerMatchAt(s, m.pos)
                         && m.len == RunEnd(s, m.pos) - m.pos + |"installer"|
    ensures m.Found? ==> forall j :: i <= j < m.pos ==> !InstallerMatchAt(s, j)
    ensures m.NotFound? ==> forall j :: i <= j <= |s| ==> !InstallerMatchAt(s, j)
    decreases |s| - i
  {
    if i == |s| then NotFound
    else if InstallerMatchAt(s, i) then Found(i, RunEnd(s, i) + 9 - i)
    else FirstInstallerMatch(s, i + 1)
  }

  function RemoveInstallerWord(s: string): string
  {
    match FirstInstallerMatch(s, 0)
    case NotFound => s
    case Found(p, n) => s[..p] + s[p + n..]
  }

  // ---------------------------------------------------------------------
  // Copy counters: s.replace(/\(\d+\)/g, "").

  /** Length of a "(digits)" group at the front of `s`, 0 when there is none. */
  function ParenGroupLength(s: string): (n: nat)
    ensures n == 0 || (3 <= n <= |s| && ParenNumber(s[..n]))
  {
    if s == [] || s[0] != '(' then 0
    else
      var j := DigitRunEnd(s, 1);
      if j > 1 && j < |s| && s[j] == ')' then
        assert s[..j + 1][1..j] == s[1..j];
        j + 1
      else 0
  }

  function DigitRunEnd(s: string, i: nat): (j: nat)
    requires i <= |s|
    ensures i <= j <= |s|
    ensures AllDigits(s[i..j])
    ensures j == |s| || !IsDigit(s[j])
    decreases |s| - i
  {
    if i < |s| && IsDigit(s[i]) then
      var j := DigitRunEnd(s, i + 1);
      assert s[i..j] == [s[i]] + s[i + 1..j];
      j
    else i
  }

  function RemoveCopyCounters(s: string): (r: string)
    ensures |r| <= |s|
    decreases |s|
  {
    if s == [] then []
    else if ParenGroupLength(s) > 0 then RemoveCopyCounters(s[ParenGroupLength(s)..])
    else [s[0]] + RemoveCopyCounters(s[1..])
  }

  // ---------------------------------------------------------------------
  // Slug: lower-case, runs of [^a-z0-9] become "-", leading and trailing "-"
  // removed, then cut to a maximum length.

  predicate IsSlugChar(c: char)
  {
    'a' <= c <= 'z' || '0' <= c <= '9'
  }

  /** Only slug characters and dashes. */
  predicate SlugAlphabet(s: string)
  {
    forall i :: 0 <= i < |s| ==> IsSlugChar(s[i]) || s[i] == '-'
  }

  /** What a label is meant to be: slug alphabet, no dash at either end. */
  predicate SlugShaped(s: string)
  {
    SlugAlphabet(s) && (s != [] ==> s[0] != '-' && s[|s| - 1] != '-')
  }

  function DropNonSlug(s: string): (r: string)
    ensures |r| <= |s| && r == s[|s| - |r|..]
    ensures r == [] || IsSlugChar(r[0])
    ensures s != [] && !IsSlugChar(s[0]) ==> |r| < |s|
  {
    if s == [] || IsSlugChar(s[0]) then s else DropNonSlug(s[1..])
  }

  /** `replace(/[^a-z0-9]+/g, "-")` */
  function Dashify(s: string): string
    decreases |s|
  {
    if s == [] then []
    else if IsSlugChar(s[0]) then [s[0]] + Dashify(s[1..])
    else "-" + Dashify(DropNonSlug(s))
  }

  function DropLeadingDashes(s: string): (r: string)
    ensures |r| <= |s| && r == s[|s| - |r|..]
    ensures r == [] || r[0] != '-'
  {
    if s != [] && s[0] == '-' then DropLeadingDashes(s[1..]) else s
  }

  function DropTrailingDashes(s: string): (r: string)
    ensures |r| <= |s| && r == s[..|r|]
    ensures r == [] || r[|r| - 1] != '-'
  {
    if s != [] && s[|s| - 1] == '-' then DropTrailingDashes(s[..|s| - 1]) else s
  }

  /** The source's slug, as written: the cut comes after the dashes are trimmed. */
  function SlugAsWritten(input: string, maxLen: nat): string
  {
    Take(DropTrailingDashes(DropLeadingDashes(Dashify(ToLower(input)))), maxLen)
  }

  /** The slug as intended: trailing dashes are trimmed again after the cut. */
  function Slug(input: string, maxLen: nat): string
  {
    DropTrailingDashes(SlugAsWritten(input, maxLen))
  }

  lemma {:induction false} DashifyAlphabet(s: string)
    ensures SlugAlphabet(Dashify(s))
    decreases |s|
  {
    if s == [] {
    } else if IsSlugChar(s[0]) {
      DashifyAlphabet(s[1..]);
    } else {
      DashifyAlphabet(DropNonSlug(s));
    }
  }

  lemma SubstringAlphabet(s: string, i: nat, j: nat)
    requires SlugAlphabet(s) && i <= j <= |s|
    ensures SlugAlphabet(s[i..j])
  {
    forall k | 0 <= k < j - i ensures IsSlugChar(s[i..j][k]) || s[i..j][k] == '-' {
      assert s[i..j][k] == s[i + k];
    }
  }

  /** Every slug is within the length cap, uses only [a-z0-9-], and has no
      dash at either end. */
  lemma SlugIsShaped(input: string, maxLen: nat)
    ensures SlugShaped(Slug(input, maxLen))
    ensures |Slug(input, maxLen)| <= maxLen
  {
    var d := Dashify(ToLower(input));
    DashifyAlphabet(ToLower(input));
    var a := DropLeadingDashes(d);
    SubstringAlphabet(d, |d| - |a|, |d|);
    var b := DropTrailingDashes(a);
    SubstringAlphabet(a, 0, |b|);
    var c := Take(b, maxLen);
    SubstringAlphabet(b, 0, |c|);
    var r := DropTrailingDashes(c);
    SubstringAlphabet(c, 0, |r|);
    if r != [] {
      assert r[0] == c[0] == b[0] == a[0];
    }
  }

  lemma {:induction false} DashifyKeepsSlugPrefix(x: string, y: string)
    requires forall i :: 0 <= i < |x| ==> IsSlugChar(x[i])
    ensures Dashify(x + y) == x + Dashify(y)
    decreases |x|
  {
    if x != [] {
      assert Dashify(x + y) == [x[0]] + Dashify(x[1..] + y) by {
        var z := x + y;
        assert z[0] == x[0] && z[1..] == x[1..] + y;
      }
      assert forall i :: 0 <= i < |x[1..]| ==> IsSlugChar(x[1..][i]) by {
        forall i | 0 <= i < |x[1..]| ensures IsSlugChar(x[1..][i]) {
          assert x[1..][i] == x[i + 1];
        }
      }
      DashifyKeepsSlugPrefix(x[1..], y);
      assert [x[0]] + (x[1..] + Dashify(y)) == x + Dashify(y) by {
        assert x == [x[0]] + x[1..];
      }
    } else {
      assert x + y == y;
    }
  }

  /** Slug characters are already in lower case. */
  lemma SlugCharsAreLower(x: string)
    requires forall i :: 0 <= i < |x| ==> IsSlugChar(x[i])
    ensures ToLower(x) == x
  {
  }

  lemma DashifySpaceLetter()
    ensures Dashify(" b") == "-b"
  {
    assert DropNonSlug(" b") == "b";
    assert Dashify("b") == "b" by { assert "b"[1..] == []; }
  }

  lemma NoLeadingDash(d: string)
    requires d != [] && d[0] != '-'
    ensures DropLeadingDashes(d) == d
  {
  }

  lemma NoTrailingDash(d: string)
    requires d != [] && d[|d| - 1] != '-'
    ensures DropTrailingDashes(d) == d
  {
  }

  lemma DashifyPrefixSpaceLetter(x: string)
    requires forall i :: 0 <= i < |x| ==> IsSlugChar(x[i])
    ensures Dashify(ToLower(x + " b")) == x + "-b"
  {
    SlugCharsAreLower(x);
    assert ToLower(" b") == " b";
    assert ToLower(x + " b") == x + " b";
    DashifySpaceLetter();
    DashifyKeepsSlugPrefix(x, " b");
  }

  /** The cut after trimming can leave a trailing dash: a name of n slug
      characters, a space and one more letter, cut at n + 1, keeps the dash
      the space became. */
  lemma SlugAsWrittenCanEndWithDash(x: string)
    requires |x| >= 1 && forall i :: 0 <= i < |x| ==> IsSlugChar(x[i])
    ensures SlugAsWritten(x + " b", |x| + 1) == x + "-"
  {
    var d := x + "-b";
    assert Dashify(ToLower(x + " b")) == d by {
      DashifyPrefixSpaceLetter(x);
    }
    assert DropLeadingDashes(d) == d by {
      assert d[0] == x[0];
      NoLeadingDash(d);
    }
    assert DropTrailingDashes(d) == d by {
      assert d[|d| - 1] == 'b';
      NoTrailingDash(d);
    }
    assert Take(d, |x| + 1) == x + "-" by {
      assert d[..|x| + 1] == x + "-";
    }
  }

  lemma OneTrailingDash(x: string)
    requires |x| >= 1 && IsSlugChar(x[|x| - 1])
    ensures DropTrailingDashes(x + "-") == x
  {
    var w := x + "-";
    assert w[..|w| - 1] == x;
    NoTrailingDash(x);
  }

  /** The intended slug of that same input ends in the last slug character. */
  lemma SlugTrimsAfterCut(x: string)
    requires |x| >= 1 && forall i :: 0 <= i < |x| ==> IsSlugChar(x[i])
    ensures Slug(x + " b", |x| + 1) == x
  {
    SlugAsWrittenCanEndWithDash(x);
    OneTrailingDash(x);
  }

  /** Both label caps the core uses are affected: 79 (or 69) letters, a
      space and a letter. */
  lemma SlugAsWrittenEndsWithDashAtBothCaps()
    ensures EndsWith(SlugAsWritten(seq(79, _ => 'a') + " b", 80), "-")
    ensures EndsWith(SlugAsWritten(seq(69, _ => 'a') + " b", 70), "-")
  {
    var a79: string := seq(79, _ => 'a');
    var a69: string := seq(69, _ => 'a');
    SlugAsWrittenCanEndWithDash(a79);
    SlugAsWrittenCanEndWithDash(a69);
    assert (a79 + "-")[80 - 1..] == "-";
    assert (a69 + "-")[70 - 1..] == "-";
  }
}
