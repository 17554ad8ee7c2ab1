/**
 * The five shapes of regular expression the advisor's pattern tables use,
 * matched as Python's `re.search` matches them: the first start position at
 * which the pattern matches wins, `(.+)` and `.*` are greedy and never cross
 * a line break, and literal text must occur exactly.
 */
module Patterns {
  import opened Wrappers
  import opened Text

  datatype Pattern =
    /** `prefix(.+)` */
    | Rest(prefix: string)
    /** `prefix(.+)suffix` */
    | Enclosed(prefix: string, suffix: string)
    /** `prefix(.+)sep(.+)` */
    | Pair(prefix: string, sep: string)
    /** `prefix.*sep(.+)` */
    | Skip(prefix: string, sep: string)
    /** `(.+)sep(.+)suffix` */
    | PairThen(sep: string, suffix: string)

  /** The index of the first line break at or after `i`, or `|s|`. */
  function LineEnd(s: string, i: nat): (e: nat)
    requires i <= |s|
    ensures i <= e <= |s|
    ensures forall k :: i <= k < e ==> s[k] != '\n'
    ensures e == |s| || s[e] == '\n'
    decreases |s| - i
  {
    if i == |s| || s[i] == '\n' then i else LineEnd(s, i + 1)
  }

  /** Position `k` is where a line ends. */
  predicate EndsLine(s: string, k: int) {
    k == |s| || (0 <= k < |s| && s[k] == '\n')
  }

  /** The last occurrence of `t` that starts at or after `lo` and ends at or before `hi`. */
  function LastAt(s: string, lo: nat, hi: int, t: string): (r: Option<nat>)
    ensures r.Some? ==> lo <= r.value && r.value + |t| <= hi && IsAt(s, r.value, t)
    ensures r.Some? ==> forall i :: r.value < i && i + |t| <= hi ==> !IsAt(s, i, t)
    ensures r.None? ==> forall i :: lo <= i && i + |t| <= hi ==> !IsAt(s, i, t)
    decreases hi - lo
  {
    var i := hi - |t|;
    if i < lo then None
    else if IsAt(s, i, t) then Some(i)
    else LastAt(s, lo, hi - 1, t)
  }

  lemma SliceSplit(s: string, a: int, b: int, c: int)
    requires 0 <= a <= b <= c <= |s|
    ensures s[a..c] == s[a..b] + s[b..c]
  {
  }

  /** A slice that stays within the line starting at `a` has no line break. */
  lemma LineSlice(s: string, a: nat, lo: nat, hi: nat)
    requires a <= lo <= hi && a <= |s| && hi <= LineEnd(s, a)
    ensures SingleLine(s[lo..hi])
  {
    forall k | 0 <= k < hi - lo ensures s[lo..hi][k] != '\n' {
      assert s[lo..hi][k] == s[lo + k];
    }
  }

  /** `prefix(.+)` tried at position `p`: the rest of the line after the prefix, if it is not empty. */
  function MatchRest(s: string, p: nat, prefix: string): (r: Option<seq<string>>)
    requires p <= |s|
    ensures r.Some? <==> IsAt(s, p, prefix) && p + |prefix| < |s| && s[p + |prefix|] != '\n'
    ensures r.Some? ==> (
      && |r.value| == 1 && |r.value[0]| > 0 && SingleLine(r.value[0])
      && IsAt(s, p, prefix + r.value[0]) && EndsLine(s, p + |prefix| + |r.value[0]|))
  {
    if !IsAt(s, p, prefix) then None
    else
      var a := p + |prefix|;
      var e := LineEnd(s, a);
      if a < e then
        SliceSplit(s, p, a, e);
        LineSlice(s, a, a, e);
        Some([s[a..e]])
      else None
  }

  /** `prefix(.+)suffix` tried at `p`: the group ends at the last `suffix` of the line. */
  function MatchEnclosed(s: string, p: nat, prefix: string, suffix: string): (r: Option<seq<string>>)
    requires p <= |s|
    ensures r.Some? <==> (
      && IsAt(s, p, prefix)
      && exists q :: p + |prefix| < q && q + |suffix| <= LineEnd(s, p + |prefix|) && IsAt(s, q, suffix))
    ensures r.Some? ==> (
      && |r.value| == 1 && |r.value[0]| > 0 && SingleLine(r.value[0])
      && IsAt(s, p, prefix + r.value[0] + suffix)
      && forall q :: p + |prefix| + |r.value[0]| < q && q + |suffix| <= LineEnd(s, p + |prefix|) ==> !IsAt(s, q, suffix))
  {
    if !IsAt(s, p, prefix) then None
    else
      var a := p + |prefix|;
      var e := LineEnd(s, a);
      match LastAt(s, a + 1, e, suffix)
      case None => None
      case Some(q) =>
        SliceSplit(s, p, a, q);
        SliceSplit(s, p, q, q + |suffix|);
        assert s[p..q + |suffix|] == prefix + s[a..q] + suffix;
        LineSlice(s, a, a, q);
        Some([s[a..q]])
  }

  /** The groups of `(.+)sep(.+)` from `p` to a fixed end `j`: the split is at the last `sep` before `j`. */
  function SplitBefore(s: string, p: nat, sep: string, j: nat): (r: Option<seq<string>>)
    requires p <= |s|
    requires p < j <= LineEnd(s, p)
    ensures r.Some? <==> exists i :: p < i && i + |sep| < j && IsAt(s, i, sep)
    ensures r.Some? ==> |r.value| == 2 && |r.value[0]| > 0 && |r.value[1]| > 0
    ensures r.Some? ==> SingleLine(r.value[0]) && SingleLine(r.value[1])
    ensures r.Some? ==> p + |r.value[0]| + |sep| + |r.value[1]| == j
    ensures r.Some? ==> IsAt(s, p, r.value[0] + sep + r.value[1])
    ensures r.Some? ==> forall k :: p + |r.value[0]| < k && k + |sep| < j ==> !IsAt(s, k, sep)
  {
    match LastAt(s, p + 1, j - 1, sep)
    case None => None
    case Some(i) =>
      var g0, g1 := s[p..i], s[i + |sep|..j];
      LineSlice(s, p, p, i);
      LineSlice(s, p, i + |sep|, j);
      SliceSplit(s, p, i, i + |sep|);
      SliceSplit(s, p, i + |sep|, j);
      assert s[p..j] == g0 + sep + g1;
      Some([g0, g1])
  }

  lemma PairText(s: string, p: nat, prefix: string, sep: string, g0: string, g1: string)
    requires IsAt(s, p, prefix) && IsAt(s, p + |prefix|, g0 + sep + g1)
    ensures IsAt(s, p, prefix + g0 + sep + g1)
  {
    IsAtConcat(s, p, prefix, g0 + sep + g1);
    assert prefix + (g0 + sep + g1) == prefix + g0 + sep + g1;
  }

  /** `prefix(.+)sep(.+)` tried at `p`: the split is at the last `sep` of the line that leaves a non-empty second group. */
  function MatchPair(s: string, p: nat, prefix: string, sep: string): (r: Option<seq<string>>)
    requires p <= |s|
    ensures r.Some? <==> (
      && IsAt(s, p, prefix)
      && exists i :: p + |prefix| < i && i + |sep| < LineEnd(s, p + |prefix|) && IsAt(s, i, sep))
    ensures r.Some? ==> (
      && |r.value| == 2
      && |r.value[0]| > 0 && |r.value[1]| > 0 && SingleLine(r.value[0]) && SingleLine(r.value[1])
      && IsAt(s, p, prefix + r.value[0] + sep + r.value[1])
      && EndsLine(s, p + |prefix| + |r.value[0]| + |sep| + |r.value[1]|)
      && forall i :: p + |prefix| + |r.value[0]| < i && i + |sep| < LineEnd(s, p + |prefix|) ==> !IsAt(s, i, sep))
  {
    if !IsAt(s, p, prefix) then None
    else
      var a := p + |prefix|;
      var e := LineEnd(s, a);
      if a == e then None
      else
        match SplitBefore(s, a, sep, e)
        case None => None
        case Some(gs) =>
          PairText(s, p, prefix, sep, gs[0], gs[1]);
          Some(gs)
  }

  /** `g` is what follows the last `sep` that starts at or after `a` on the line of `a`. */
  predicate AfterLastSep(s: string, a: nat, sep: string, g: string)
    requires a <= |s|
  {
    var e := LineEnd(s, a);
    var i := e - |g| - |sep|;
    && a <= i && IsAt(s, i, sep + g)
    && forall k :: i < k && k + |sep| < e ==> !IsAt(s, k, sep)
  }

  /** The text after the last `sep` that starts at or after `a` and leaves a non-empty rest of the line. */
  function SkipFrom(s: string, a: nat, sep: string): (r: Option<string>)
    requires a <= |s|
    ensures r.Some? <==> exists i :: a <= i && i + |sep| < LineEnd(s, a) && IsAt(s, i, sep)
    ensures r.Some? ==> |r.value| > 0 && SingleLine(r.value) && AfterLastSep(s, a, sep, r.value)
  {
    var e := LineEnd(s, a);
    match LastAt(s, a, e - 1, sep)
    case None => None
    case Some(i) =>
      var g := s[i + |sep|..e];
      LineSlice(s, a, i + |sep|, e);
      SliceSplit(s, i, i + |sep|, e);
      assert IsAt(s, i, sep + g);
      assert e - |g| - |sep| == i;
      Some(g)
  }

  /** `prefix.*sep(.+)` tried at `p`: only the text after the last usable `sep` of the line is captured. */
  function MatchSkip(s: string, p: nat, prefix: string, sep: string): (r: Option<seq<string>>)
    requires p <= |s|
    ensures r.Some? <==> (
      && IsAt(s, p, prefix)
      && exists i :: p + |prefix| <= i && i + |sep| < LineEnd(s, p + |prefix|) && IsAt(s, i, sep))
    ensures r.Some? ==> |r.value| == 1 && |r.value[0]| > 0 && SingleLine(r.value[0])
    ensures r.Some? ==> IsAt(s, p, prefix) && AfterLastSep(s, p + |prefix|, sep, r.value[0])
  {
    if !IsAt(s, p, prefix) then None
    else
      match SkipFrom(s, p + |prefix|, sep)
      case None => None
      case Some(g) => Some([g])
  }

  /** Groups `g0`, `g1` from `p` end at the last `suffix` of the line and split at the last `sep` before it. */
  predicate LastSplit(s: string, p: nat, sep: string, suffix: string, g0: string, g1: string)
    requires p <= |s|
  {
    var j := p + |g0| + |sep| + |g1|;
    && (forall k :: j < k && k + |suffix| <= LineEnd(s, p) ==> !IsAt(s, k, suffix))
    && (forall k :: p + |g0| < k && k + |sep| < j ==> !IsAt(s, k, sep))
  }

  lemma PairThenText(s: string, p: nat, sep: string, suffix: string, j: nat, g: seq<string>)
    requires p <= |s| && p < j && IsAt(s, j, suffix)
    requires |g| == 2 && p + |g[0]| + |sep| + |g[1]| == j && IsAt(s, p, g[0] + sep + g[1])
    ensures IsAt(s, p, g[0] + sep + g[1] + suffix)
  {
    SliceSplit(s, p, j, j + |suffix|);
  }

  /** With no `sep` before the last `suffix`, there is none before any earlier `suffix` either. */
  lemma PairThenMissing(s: string, p: nat, sep: string, suffix: string, j: nat)
    requires p <= |s| && p < j <= LineEnd(s, p)
    requires forall k :: j < k && k + |suffix| <= LineEnd(s, p) ==> !IsAt(s, k, suffix)
    requires forall k :: p < k && k + |sep| < j ==> !IsAt(s, k, sep)
    ensures forall i, j' :: p < i && i + |sep| < j' && j' + |suffix| <= LineEnd(s, p) && IsAt(s, j', suffix) ==> !IsAt(s, i, sep)
  {
    forall i, j' | p < i && i + |sep| < j' && j' + |suffix| <= LineEnd(s, p) && IsAt(s, j', suffix)
      ensures !IsAt(s, i, sep)
    {
      assert j' <= j;
    }
  }

  /** `(.+)sep(.+)suffix` tried at `p`: the last `suffix` of the line ends the second group, the last `sep` before it splits. */
  function MatchPairThen(s: string, p: nat, sep: string, suffix: string): (r: Option<seq<string>>)
    requires p <= |s|
    ensures r.Some? <==> exists i, j :: (
      && p < i && i + |sep| < j && j + |suffix| <= LineEnd(s, p)
      && IsAt(s, i, sep) && IsAt(s, j, suffix))
    ensures r.Some? ==> |r.value| == 2 && |r.value[0]| > 0 && |r.value[1]| > 0
    ensures r.Some? ==> SingleLine(r.value[0]) && SingleLine(r.value[1])
    ensures r.Some? ==> IsAt(s, p, r.value[0] + sep + r.value[1] + suffix)
    ensures r.Some? ==> LastSplit(s, p, sep, suffix, r.value[0], r.value[1])
  {
    var e := LineEnd(s, p);
    match LastAt(s, p + |sep| + 2, e, suffix)
    case None => None
    case Some(j) =>
      var r := SplitBefore(s, p, sep, j);
      if r.Some? then (
        PairThenText(s, p, sep, suffix, j, r.value);
        r
      ) else (
        PairThenMissing(s, p, sep, suffix, j);
        r
      )
  }

  /** The number of capturing groups of a pattern. */
  function GroupCount(pat: Pattern): nat {
    match pat
    case Rest(_) => 1
    case Enclosed(_, _) => 1
    case Pair(_, _) => 2
    case Skip(_, _) => 1
    case PairThen(_, _) => 2
  }

  /** Every group is a non-empty piece of one line. */
  predicate Groups(pat: Pattern, gs: seq<string>) {
    |gs| == GroupCount(pat) && forall k :: 0 <= k < |gs| ==> |gs[k]| > 0 && SingleLine(gs[k])
  }

  /** The pattern tried at start position `p`, with its groups on success. */
  function MatchAt(pat: Pattern, s: string, p: nat): (r: Option<seq<string>>)
    requires p <= |s|
    ensures r.Some? ==> Groups(pat, r.value)
  {
    match pat
    case Rest(prefix) => MatchRest(s, p, prefix)
    case Enclosed(prefix, suffix) => MatchEnclosed(s, p, prefix, suffix)
    case Pair(prefix, sep) => MatchPair(s, p, prefix, sep)
    case Skip(prefix, sep) => MatchSkip(s, p, prefix, sep)
    case PairThen(sep, suffix) => MatchPairThen(s, p, sep, suffix)
  }

  /** The first start position at or after `p` where the pattern matches. */
  function FirstStart(pat: Pattern, s: string, p: nat): (r: Option<nat>)
    requires p <= |s|
    ensures r.Some? ==> (
      && p <= r.value <= |s| && MatchAt(pat, s, r.value).Some?
      && forall q :: p <= q < r.value ==> MatchAt(pat, s, q).None?)
    ensures r.None? ==> forall q :: p <= q <= |s| ==> MatchAt(pat, s, q).None?
    decreases |s| - p
  {
    if MatchAt(pat, s, p).Some? then Some(p)
    else if p == |s| then None
    else FirstStart(pat, s, p + 1)
  }

  /** `re.search(pat, s)`, as the list of its groups. */
  function Search(pat: Pattern, s: string): (r: Option<seq<string>>)
    ensures r.Some? ==> Groups(pat, r.value)
    ensures r.None? <==> forall p :: 0 <= p <= |s| ==> MatchAt(pat, s, p).None?
    ensures r.Some? ==> exists p :: (
      && 0 <= p <= |s| && MatchAt(pat, s, p) == r
      && forall q :: 0 <= q < p ==> MatchAt(pat, s, q).None?)
  {
    match FirstStart(pat, s, 0)
    case None => None
    case Some(p) => MatchAt(pat, s, p)
  }

  /** The index of the first present entry of `rs` at or after `n`, or `|rs|`. */
  function FirstSome<T>(rs: seq<Option<T>>, n: nat): (k: nat)
    requires n <= |rs|
    ensures n <= k <= |rs|
    ensures k < |rs| ==> rs[k].Some?
    ensures forall j :: n <= j < k ==> rs[j].None?
    decreases |rs| - n
  {
    if n == |rs| || rs[n].Some? then n else FirstSome(rs, n + 1)
  }

  /** `re.search` of every pattern of `pats`, in order. */
  function Searches(pats: seq<Pattern>, s: string): (rs: seq<Option<seq<string>>>)
    ensures |rs| == |pats|
    ensures forall k :: 0 <= k < |pats| ==> rs[k] == Search(pats[k], s)
  {
    seq(|pats|, k requires 0 <= k < |pats| => Search(pats[k], s))
  }

  /** The groups of the first pattern of `pats` that `s` matches. */
  function FirstMatch(pats: seq<Pattern>, s: string): (r: Option<seq<string>>)
    ensures r.None? <==> forall k :: 0 <= k < |pats| ==> Search(pats[k], s).None?
    ensures r.Some? ==> exists k :: (
      && 0 <= k < |pats| && Search(pats[k], s) == r
      && forall j :: 0 <= j < k ==> Search(pats[j], s).None?)
  {
    var rs := Searches(pats, s);
    var k := FirstSome(rs, 0);
    if k < |rs| then rs[k] else None
  }

  /** A pattern that matches at the very start is what `re.search` reports. */
  lemma SearchAtStart(pat: Pattern, s: string)
    requires MatchAt(pat, s, 0).Some?
    ensures Search(pat, s) == MatchAt(pat, s, 0)
  {
  }

  /** The first pattern of a table decides whenever it matches. */
  lemma FirstMatchHead(pats: seq<Pattern>, s: string)
    requires pats != [] && Search(pats[0], s).Some?
    ensures FirstMatch(pats, s) == Search(pats[0], s)
  {
  }

  /** Where the pieces of `prefix + g0 + sep + g1` lie. */
  lemma PairLayout(prefix: string, sep: string, g0: string, g1: string)
    requires SingleLine(g0 + sep + g1)
    ensures var s := prefix + g0 + sep + g1;
      && LineEnd(s, |prefix|) == |s|
      && IsAt(s, 0, prefix)
      && IsAt(s, |prefix| + |g0|, sep)
      && s[|prefix| + |g0|..] == sep + g1
  {
    var s := prefix + g0 + sep + g1;
    var tail := g0 + sep + g1;
    assert s == prefix + tail;
    assert forall k :: |prefix| <= k < |s| ==> s[k] == tail[k - |prefix|];
    assert s[..|prefix|] == prefix;
    assert s == (prefix + g0) + (sep + g1);
    assert s[|prefix| + |g0|..] == sep + g1;
  }

  /** Two splittings of one text with pieces of equal lengths agree. */
  lemma PairCancel(prefix: string, sep: string, g0: string, g1: string, h0: string, h1: string)
    requires prefix + g0 + sep + g1 == prefix + h0 + sep + h1 && |g0| == |h0|
    ensures g0 == h0 && g1 == h1
  {
    var s := prefix + g0 + sep + g1;
    assert s[|prefix|..|prefix| + |g0|] == g0;
    assert (prefix + h0 + sep + h1)[|prefix|..|prefix| + |h0|] == h0;
    assert s[|prefix| + |g0| + |sep|..] == g1;
    assert (prefix + h0 + sep + h1)[|prefix| + |h0| + |sep|..] == h1;
  }

  /** A text holding `u` from its start to its end is `u`. */
  lemma IsAtWhole(s: string, u: string)
    requires IsAt(s, 0, u) && |u| == |s|
    ensures s == u
  {
    assert s[..|u|] == s;
  }

  /**
   * `prefix(.+)sep(.+)` on `prefix + g0 + sep + g1` splits at the separator
   * between `g0` and `g1` when that is the last one on the line: no later
   * occurrence of `sep` starts inside `sep + g1`.
   */
  lemma MatchPairExact(prefix: string, sep: string, g0: string, g1: string)
    requires |g0| > 0 && |g1| > 0 && SingleLine(g0 + sep + g1)
    requires forall k :: 0 < k ==> !IsAt(sep + g1, k, sep)
    ensures MatchPair(prefix + g0 + sep + g1, 0, prefix, sep) == Some([g0, g1])
  {
    var s := prefix + g0 + sep + g1;
    var a, i0 := |prefix|, |prefix| + |g0|;
    PairLayout(prefix, sep, g0, g1);
    assert IsAt(s, i0, sep) && a < i0 && i0 + |sep| < LineEnd(s, a);
    var r := MatchPair(s, 0, prefix, sep);
    assert r.Some?;
    var h0, h1 := r.value[0], r.value[1];
    var j := a + |h0|;
    assert j + |sep| + |h1| == |s|;
    assert |h0| >= |g0|;
    if |h0| > |g0| {
      IsAtEnd(prefix + h0, sep);
      IsAtExtend(prefix + h0 + sep, h1, j, sep);
      IsAtWithin(s, 0, prefix + h0 + sep + h1, j, sep);
      IsAtShift(s, i0, j, sep);
      assert false;
    }
    IsAtWhole(s, prefix + h0 + sep + h1);
    PairCancel(prefix, sep, g0, g1, h0, h1);
    assert r.value == [h0, h1];
  }
}
