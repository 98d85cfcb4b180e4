// `_vN` collision resolution of proposal targets against the set of paths
// that exist (proposal-service.ts, resolveCollision).
module Collisions {
  import opened Strings
  import opened Paths

  /** Start of the maximal run of digits that ends `s`. */
  function DigitRunStart(s: string): (j: nat)
    ensures j <= |s| && AllDigits(s[j..])
    ensures j > 0 ==> !IsDigit(s[j - 1])
  {
    if s != [] && IsDigit(s[|s| - 1]) then
      var j := DigitRunStart(s[..|s| - 1]);
      assert s[j..] == s[..|s| - 1][j..] + [s[|s| - 1]];
      j
    else |s|
  }

  /** `/_v(\d+)$/i` matches the name without its extension. */
  predicate HasVersionSuffix(w: string)
  {
    var j := DigitRunStart(w);
    2 <= j < |w| && w[j - 2] == '_' && (w[j - 1] == 'v' || w[j - 1] == 'V')
  }

  /** The name with a matched `_vN` suffix removed. */
  function CollisionBase(w: string): (r: string)
    ensures |r| <= |w| && r == w[..|r|]
  {
    if HasVersionSuffix(w) then w[..DigitRunStart(w) - 2] else w
  }

  /** The number of a matched `_vN` suffix, 1 when there is none. */
  function StartVersion(w: string): nat
  {
    if HasVersionSuffix(w) then DigitsValue(w[DigitRunStart(w)..]) else 1
  }

  /** The name of the target without its extension. */
  function Stem(t: string): string
  {
    BasenameWithout(t, Extname(t))
  }

  /** The path tried for version `v`. */
  function Candidate(t: string, v: nat): string
  {
    Join(Dirname(t), CollisionBase(Stem(t)) + "_v" + NatToString(v) + Extname(t))
  }

  lemma DirnameNonEmpty(p: string)
    ensures Dirname(p) != []
  {
  }

  /** Different versions give different paths. */
  lemma CandidateInjective(t: string, a: nat, b: nat)
    requires Candidate(t, a) == Candidate(t, b)
    ensures a == b
  {
    var base, ext := CollisionBase(Stem(t)), Extname(t);
    DirnameNonEmpty(t);
    JoinInjective(Dirname(t), base + "_v" + NatToString(a) + ext, base + "_v" + NatToString(b) + ext);
    ConcatCancel(base + "_v", NatToString(a), NatToString(b), ext);
    NatToStringInjective(a, b);
  }

  /** The candidates for versions `v` and above that are taken. */
  ghost function LaterTaken(t: string, taken: set<string>, v: nat): set<string>
  {
    set p | p in taken && exists k: nat :: k >= v && p == Candidate(t, k)
  }

  lemma {:induction false} SubsetCard(a: set<string>, b: set<string>)
    requires a <= b
    ensures |a| <= |b|
    ensures a < b ==> |a| < |b|
    decreases |a|
  {
    if a != {} {
      var x :| x in a;
      if a < b {
        var y :| y in b && y !in a;
        assert y in b - {x} && y !in a - {x};
      }
      SubsetCard(a - {x}, b - {x});
    } else if a < b {
      var y :| y in b;
      assert |b - {y}| == |b| - 1;
    }
  }

  lemma LaterTakenShrinks(t: string, taken: set<string>, v: nat)
    requires Candidate(t, v) in taken
    ensures LaterTaken(t, taken, v + 1) < LaterTaken(t, taken, v)
    ensures |LaterTaken(t, taken, v + 1)| < |LaterTaken(t, taken, v)|
  {
    var c := Candidate(t, v);
    assert c in LaterTaken(t, taken, v);
    if c in LaterTaken(t, taken, v + 1) {
      var k: nat :| k >= v + 1 && c == Candidate(t, k);
      CandidateInjective(t, k, v);
    }
    SubsetCard(LaterTaken(t, taken, v + 1), LaterTaken(t, taken, v));
  }

  lemma LaterTakenMonotone(t: string, taken: set<string>, v: nat)
    ensures |LaterTaken(t, taken, v + 1)| <= |LaterTaken(t, taken, v)|
  {
    SubsetCard(LaterTaken(t, taken, v + 1), LaterTaken(t, taken, v));
  }

  /** The least version from `v` on whose candidate is free. */
  function FirstFreeVersion(t: string, taken: set<string>, v: nat): (r: nat)
    ensures r >= v && Candidate(t, r) !in taken
    ensures forall k :: v <= k < r ==> Candidate(t, k) in taken
    decreases |LaterTaken(t, taken, v)|
  {
    if Candidate(t, v) !in taken then v
    else
      LaterTakenShrinks(t, taken, v);
      FirstFreeVersion(t, taken, v + 1)
  }

  /** The path `resolveCollision` settles on. */
  function ResolvedTarget(t: string, taken: set<string>): string
  {
    if t !in taken then t
    else Candidate(t, FirstFreeVersion(t, taken, StartVersion(Stem(t)) + 1))
  }

  /** The source's loop: bump the version until the candidate is free. */
  method ResolveCollision(t: string, taken: set<string>) returns (r: string)
    ensures r == ResolvedTarget(t, taken)
  {
    if t !in taken {
      return t;
    }
    var start := StartVersion(Stem(t));
    var version := start;
    var candidate := t;
    while candidate in taken
      invariant (version == start && candidate == t) || (version > start && candidate == Candidate(t, version))
      invariant version > start ==> FirstFreeVersion(t, taken, start + 1) == FirstFreeVersion(t, taken, version)
      decreases |LaterTaken(t, taken, version)| + (if version == start then 1 else 0)
    {
      if version > start {
        LaterTakenShrinks(t, taken, version);
        assert FirstFreeVersion(t, taken, version) == FirstFreeVersion(t, taken, version + 1);
      } else {
        LaterTakenMonotone(t, taken, version);
      }
      version := version + 1;
      candidate := Candidate(t, version);
    }
    assert FirstFreeVersion(t, taken, version) == version;
    return candidate;
  }

  /** The result never exists; it is the input when the input is free, and
      otherwise the first free candidate above the starting version. */
  lemma ResolvedTargetIsFree(t: string, taken: set<string>)
    ensures ResolvedTarget(t, taken) !in taken
    ensures t !in taken ==> ResolvedTarget(t, taken) == t
    ensures t in taken ==>
      exists v: nat :: (v > StartVersion(Stem(t))
        && ResolvedTarget(t, taken) == Candidate(t, v)
        && forall k :: StartVersion(Stem(t)) < k < v ==> Candidate(t, k) in taken)
  {
    if t in taken {
      var v := FirstFreeVersion(t, taken, StartVersion(Stem(t)) + 1);
      assert ResolvedTarget(t, taken) == Candidate(t, v);
    }
  }

  /** A resolved target stays in the target's directory. */
  lemma ResolvedKeepsDirectory(t: string, taken: set<string>)
    requires PlainDir(Dirname(t))
    ensures Dirname(ResolvedTarget(t, taken)) == Dirname(t)
  {
    if t in taken {
      var v := FirstFreeVersion(t, taken, StartVersion(Stem(t)) + 1);
      var name := CollisionBase(Stem(t)) + "_v" + NatToString(v) + Extname(t);
      NoSepName(CollisionBase(Stem(t)), NatToString(v), Extname(t));
      DirnameOfJoin(Dirname(t), name);
    }
  }

  lemma NoSepName(base: string, digits: string, ext: string)
    requires NoSep(base) && AllDigits(digits) && NoSep(ext)
    ensures NoSep(base + "_v" + digits + ext)
  {
    var name := base + "_v" + digits + ext;
    forall i | 0 <= i < |name| ensures name[i] != Sep {
      if i < |base| {
        assert name[i] == base[i];
      } else if i < |base| + 2 + |digits| {
        if i >= |base| + 2 { assert name[i] == digits[i - |base| - 2]; }
      } else {
        assert name[i] == ext[i - |base| - 2 - |digits|];
      }
    }
  }

  lemma CollisionBaseNoSep(w: string)
    requires NoSep(w)
    ensures NoSep(CollisionBase(w))
  {
    var r := CollisionBase(w);
    forall i | 0 <= i < |r| ensures r[i] != Sep {
      assert r[i] == w[i];
    }
  }

  /** The candidate name for version `v` holds no separator. */
  lemma CandidateName(t: string, v: nat)
    ensures var name := CollisionBase(Stem(t)) + "_v" + NatToString(v) + Extname(t);
      NoSep(name) && BaseName(Candidate(t, v)) == name
  {
    var name := CollisionBase(Stem(t)) + "_v" + NatToString(v) + Extname(t);
    CollisionBaseNoSep(Stem(t));
    NoSepName(CollisionBase(Stem(t)), NatToString(v), Extname(t));
    DirnameNonEmpty(t);
    BaseNameOfJoin(Dirname(t), name);
  }

  /** No '.' after the first character. */
  predicate NoLaterDot(s: string)
  {
    forall j :: 0 < j < |s| ==> s[j] != '.'
  }

  lemma NoExtensionNoLaterDot(p: string)
    requires Extname(p) == []
    ensures NoLaterDot(BaseName(p))
  {
    var b := BaseName(p);
    assert LastIndexOf(b, '.') <= 0;
  }

  lemma NoLaterDotNoExtension(p: string)
    requires NoLaterDot(BaseName(p))
    ensures Extname(p) == []
  {
    var b := BaseName(p);
    assert LastIndexOf(b, '.') <= 0;
  }

  /** `base + "_v" + digits` has no later dot when `base` has none. */
  lemma VersionedNoLaterDot(base: string, digits: string)
    requires NoLaterDot(base) && AllDigits(digits)
    ensures NoLaterDot(base + "_v" + digits)
  {
    var name := base + "_v" + digits;
    forall j | 0 < j < |name| ensures name[j] != '.' {
      if j < |base| {
        assert name[j] == base[j];
      } else if j >= |base| + 2 {
        assert name[j] == digits[j - |base| - 2];
      }
    }
  }

  lemma PrefixNoLaterDot(w: string, r: string)
    requires NoLaterDot(w) && |r| <= |w| && r == w[..|r|]
    ensures NoLaterDot(r)
  {
    forall j | 0 < j < |r| ensures r[j] != '.' {
      assert r[j] == w[j];
    }
  }

  /** A candidate of a target without an extension has none either. */
  lemma CandidateWithoutExtension(t: string, v: nat)
    requires Extname(t) == []
    ensures Extname(Candidate(t, v)) == []
  {
    var base, digits := CollisionBase(Stem(t)), NatToString(v);
    CandidateName(t, v);
    NoExtensionNoLaterDot(t);
    assert Stem(t) == BaseName(t);
    PrefixNoLaterDot(Stem(t), base);
    VersionedNoLaterDot(base, digits);
    assert base + "_v" + digits + Extname(t) == base + "_v" + digits;
    NoLaterDotNoExtension(Candidate(t, v));
  }

  /** A candidate keeps the target's non-empty extension. */
  lemma CandidateWithExtension(t: string, v: nat)
    requires Extname(t) != []
    ensures Extname(Candidate(t, v)) == Extname(t)
  {
    var ext := Extname(t);
    var name := CollisionBase(Stem(t)) + "_v" + NatToString(v) + ext;
    CandidateName(t, v);
    var k := |name| - |ext|;
    assert name[k..] == ext;
    assert name[k] == '.';
    forall j | k < j < |name| ensures name[j] != '.' {
      assert name[j] == ext[j - k];
    }
    LastIndexOfIs(name, '.', k);
  }

  /** A resolved target keeps the target's extension, and stays without
      one when the target has none. */
  lemma ResolvedKeepsExtension(t: string, taken: set<string>)
    ensures Extname(ResolvedTarget(t, taken)) == Extname(t)
  {
    if t in taken {
      var v := FirstFreeVersion(t, taken, StartVersion(Stem(t)) + 1);
      assert ResolvedTarget(t, taken) == Candidate(t, v);
      if Extname(t) == [] {
        CandidateWithoutExtension(t, v);
      } else {
        CandidateWithExtension(t, v);
      }
    }
  }

  lemma DigitRunStartOfDigits(p: string, d: string)
    requires AllDigits(d) && (p == [] || !IsDigit(p[|p| - 1]))
    ensures DigitRunStart(p + d) == |p|
    decreases |d|
  {
    if d == [] {
      assert p + d == p;
    } else {
      var s := p + d;
      assert s[..|s| - 1] == p + d[..|d| - 1];
      DigitRunStartOfDigits(p, d[..|d| - 1]);
    }
  }

  /** Parsing back a generated name: its base and `_vN` number come back. */
  lemma {:induction false} VersionSuffixRoundTrip(base: string, v: nat)
    ensures HasVersionSuffix(base + "_v" + NatToString(v))
    ensures CollisionBase(base + "_v" + NatToString(v)) == base
    ensures StartVersion(base + "_v" + NatToString(v)) == v
  {
    var p := base + "_v";
    var w := p + NatToString(v);
    assert base + "_v" + NatToString(v) == w;
    DigitRunStartOfDigits(p, NatToString(v));
    assert w[|p|..] == NatToString(v);
    assert w[..|base|] == base;
    DigitsValueOfNatToString(v);
  }
}
