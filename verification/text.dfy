/**
 * The string operations the advisor applies to a question before matching it:
 * `str.lower()`, `str.strip()`, `str.rstrip(chars)` and the substring test `t in s`.
 */
module Text {

  /** The characters that Python's `str.isspace()` accepts, restricted to Latin-1. */
  const Whitespace: set<char> := {
    ' ', '\t', '\n', '\U{0B}', '\U{0C}', '\r', '\U{1C}', '\U{1D}', '\U{1E}', '\U{1F}', '\U{85}', '\U{A0}'}

  predicate IsSpace(c: char) {
    c in Whitespace
  }

  predicate AllSpace(s: string) {
    forall i :: 0 <= i < |s| ==> IsSpace(s[i])
  }

  predicate IsUpper(c: char) {
    'A' <= c <= 'Z'
  }

  function LowerChar(c: char): (d: char)
    ensures !IsUpper(d)
    ensures IsUpper(c) ==> 'a' <= d <= 'z' && d as int - c as int == 32
    ensures !IsUpper(c) ==> d == c
  {
    if IsUpper(c) then (c as int + 32) as char else c
  }

  /** `s.lower()` on ASCII letters; every other character is kept. */
  function Lower(s: string): (r: string)
    ensures |r| == |s|
    ensures forall i :: 0 <= i < |s| ==> r[i] == LowerChar(s[i])
    ensures forall i :: 0 <= i < |s| && IsUpper(s[i]) ==> 'a' <= r[i] <= 'z' && r[i] as int - s[i] as int == 32
    ensures forall i :: 0 <= i < |s| && !IsUpper(s[i]) ==> r[i] == s[i]
  {
    seq(|s|, i requires 0 <= i < |s| => LowerChar(s[i]))
  }

  /** `s.rstrip(chars)`: the longest prefix of `s` that does not end in a dropped character. */
  function TrimEnd(s: string, drop: set<char>): (r: string)
    ensures |r| <= |s| && r == s[..|r|]
    ensures forall i :: |r| <= i < |s| ==> s[i] in drop
    ensures |r| == 0 || r[|r| - 1] !in drop
    decreases |s|
  {
    if |s| > 0 && s[|s| - 1] in drop then TrimEnd(s[..|s| - 1], drop) else s
  }

  /** `s.lstrip(chars)`: the longest suffix of `s` that does not start with a dropped character. */
  function TrimStart(s: string, drop: set<char>): (r: string)
    ensures |r| <= |s| && r == s[|s| - |r|..]
    ensures forall i :: 0 <= i < |s| - |r| ==> s[i] in drop
    ensures |r| == 0 || r[0] !in drop
    decreases |s|
  {
    if |s| > 0 && s[0] in drop then TrimStart(s[1..], drop) else s
  }

  /** `s.strip()`. */
  function Strip(s: string): (r: string)
    ensures |r| <= |s|
    ensures |r| == 0 || (!IsSpace(r[0]) && !IsSpace(r[|r| - 1]))
  {
    TrimEnd(TrimStart(s, Whitespace), Whitespace)
  }

  /** `r` sits in `s` at `i` with only whitespace before and after it. */
  predicate PaddedAt(s: string, r: string, i: int) {
    0 <= i <= |s| - |r| && AllSpace(s[..i]) && s[i..i + |r|] == r && AllSpace(s[i + |r|..])
  }

  /** `strip()` keeps a contiguous middle of `s` and removes only whitespace around it. */
  lemma StripMiddle(s: string)
    ensures exists i :: PaddedAt(s, Strip(s), i)
  {
    var t := TrimStart(s, Whitespace);
    var r := TrimEnd(t, Whitespace);
    DroppedHead(s, t, Whitespace);
    DroppedTail(t, r, Whitespace);
    StripParts(s, t, r);
    assert PaddedAt(s, Strip(s), |s| - |t|);
  }

  /** The pieces `strip()` removes from either end are whitespace. */
  lemma StripParts(s: string, t: string, r: string)
    requires |t| <= |s| && t == s[|s| - |t|..] && |r| <= |t| && r == t[..|r|]
    requires AllIn(s[..|s| - |t|], Whitespace) && AllIn(t[|r|..], Whitespace)
    ensures PaddedAt(s, r, |s| - |t|)
  {
    SuffixSlices(s, t, |r|);
  }

  /** `strip()` is empty exactly for an all-whitespace string. */
  lemma StripEmpty(s: string)
    ensures Strip(s) == [] <==> AllSpace(s)
  {
    if AllSpace(s) {
      TrimStartAllDropped(s, Whitespace);
    }
    if Strip(s) == [] {
      StripMiddle(s);
      var i :| PaddedAt(s, Strip(s), i);
      forall k | 0 <= k < |s| ensures IsSpace(s[k]) {
        if k < i {
          assert s[..i][k] == s[k];
        } else {
          assert s[i..][k - i] == s[k];
        }
      }
    }
  }

  lemma SuffixSlices(s: string, t: string, n: nat)
    requires |t| <= |s| && t == s[|s| - |t|..] && n <= |t|
    ensures s[|s| - |t| + n..] == t[n..] && s[|s| - |t|..|s| - |t| + n] == t[..n]
  {
  }

  predicate AllIn(x: string, drop: set<char>) {
    forall k :: 0 <= k < |x| ==> x[k] in drop
  }

  lemma DroppedHead(s: string, t: string, drop: set<char>)
    requires t == TrimStart(s, drop)
    ensures AllIn(s[..|s| - |t|], drop)
  {
    var head := s[..|s| - |t|];
    forall k | 0 <= k < |head|
      ensures head[k] in drop
    {
      assert head[k] == s[k];
    }
  }

  lemma DroppedTail(t: string, r: string, drop: set<char>)
    requires r == TrimEnd(t, drop)
    ensures AllIn(t[|r|..], drop)
  {
    var tail := t[|r|..];
    forall k | 0 <= k < |tail|
      ensures tail[k] in drop
    {
      assert tail[k] == t[|r| + k];
    }
  }

  /** `s[i:i+len(t)] == t`, with the bounds checked. */
  predicate IsAt(s: string, i: int, t: string) {
    0 <= i && i + |t| <= |s| && s[i..i + |t|] == t
  }

  /** Python's `t in s`. */
  predicate Contains(s: string, t: string) {
    exists i | 0 <= i <= |s| :: IsAt(s, i, t)
  }

  /** No line break: the text a `.` of a regular expression may span. */
  predicate SingleLine(s: string) {
    forall i :: 0 <= i < |s| ==> s[i] != '\n'
  }

  lemma LowerIdempotent(s: string)
    ensures Lower(Lower(s)) == Lower(s)
  {
  }

  lemma {:induction false} TrimStartAppend(s: string, t: string, drop: set<char>)
    ensures TrimStart(s + t, drop) == if TrimStart(s, drop) == [] then TrimStart(t, drop) else TrimStart(s, drop) + t
    decreases |s|
  {
    if |s| > 0 && s[0] in drop {
      assert (s + t)[1..] == s[1..] + t;
      TrimStartAppend(s[1..], t, drop);
    } else if |s| == 0 {
      assert s + t == t;
    }
  }

  lemma {:induction false} TrimEndAppendDropped(s: string, t: string, drop: set<char>)
    requires forall i :: 0 <= i < |t| ==> t[i] in drop
    ensures TrimEnd(s + t, drop) == TrimEnd(s, drop)
    decreases |t|
  {
    if |t| == 0 {
      assert s + t == s;
    } else {
      assert (s + t)[..|s + t| - 1] == s + t[..|t| - 1];
      TrimEndAppendDropped(s, t[..|t| - 1], drop);
    }
  }

  lemma {:induction false} TrimStartAllDropped(t: string, drop: set<char>)
    requires forall i :: 0 <= i < |t| ==> t[i] in drop
    ensures TrimStart(t, drop) == []
    decreases |t|
  {
    if |t| > 0 {
      TrimStartAllDropped(t[1..], drop);
    }
  }

  lemma {:induction false} TrimStartDroppedPrefix(ws: string, t: string, drop: set<char>)
    requires forall i :: 0 <= i < |ws| ==> ws[i] in drop
    ensures TrimStart(ws + t, drop) == TrimStart(t, drop)
    decreases |ws|
  {
    if ws == [] {
      assert ws + t == t;
    } else {
      assert (ws + t)[0] == ws[0];
      assert (ws + t)[1..] == ws[1..] + t;
      TrimStartDroppedPrefix(ws[1..], t, drop);
    }
  }

  /** Trailing whitespace never changes the result of `strip()`. */
  lemma StripIgnoresTrailing(s: string, ws: string)
    requires AllSpace(ws)
    ensures Strip(s + ws) == Strip(s)
  {
    var t := TrimStart(s, Whitespace);
    TrimStartAppend(s, ws, Whitespace);
    if t == [] {
      TrimStartAllDropped(ws, Whitespace);
    } else {
      TrimEndAppendDropped(t, ws, Whitespace);
    }
  }

  /** Surrounding whitespace never changes the result of `strip()`. */
  lemma StripIgnoresPadding(ws1: string, s: string, ws2: string)
    requires AllSpace(ws1) && AllSpace(ws2)
    ensures Strip(ws1 + s + ws2) == Strip(s)
  {
    assert ws1 + s + ws2 == ws1 + (s + ws2);
    TrimStartDroppedPrefix(ws1, s + ws2, Whitespace);
    StripIgnoresTrailing(s, ws2);
  }

  /** Lower-casing leaves whitespace alone and distributes over concatenation. */
  lemma LowerAppend(a: string, b: string)
    ensures Lower(a + b) == Lower(a) + Lower(b)
  {
  }

  lemma LowerSpace(ws: string)
    requires AllSpace(ws)
    ensures Lower(ws) == ws
  {
  }

  lemma IsAtEnd(a: string, b: string)
    ensures IsAt(a + b, |a|, b)
  {
    assert (a + b)[|a|..|a| + |b|] == b;
  }

  lemma IsAtConcat(s: string, p: nat, x: string, y: string)
    requires IsAt(s, p, x) && IsAt(s, p + |x|, y)
    ensures IsAt(s, p, x + y)
  {
    assert s[p..p + |x| + |y|] == s[p..p + |x|] + s[p + |x|..p + |x| + |y|];
  }

  /** An occurrence inside an occurrence. */
  lemma IsAtWithin(s: string, p: nat, u: string, off: nat, t: string)
    requires IsAt(s, p, u) && IsAt(u, off, t)
    ensures IsAt(s, p + off, t)
  {
    forall k | 0 <= k < |t|
      ensures s[p + off + k] == t[k]
    {
      assert s[p..p + |u|][off + k] == s[p + off + k];
      assert u[off..off + |t|][k] == u[off + k];
    }
    assert s[p + off..p + off + |t|] == t;
  }

  lemma IsAtExtend(x: string, y: string, k: nat, t: string)
    requires IsAt(x, k, t)
    ensures IsAt(x + y, k, t)
  {
    assert (x + y)[k..k + |t|] == x[k..k + |t|];
  }

  /** An occurrence at `j` is at `j - i` in the suffix from `i`. */
  lemma IsAtShift(s: string, i: nat, j: nat, t: string)
    requires i <= j && IsAt(s, j, t)
    ensures IsAt(s[i..], j - i, t)
  {
    assert s[i..][j - i..j - i + |t|] == s[j..j + |t|];
  }

  /** A text containing `u` contains every piece of `u`. */
  lemma ContainsWithin(s: string, u: string, t: string, off: nat)
    requires Contains(s, u) && IsAt(u, off, t)
    ensures Contains(s, t)
  {
    var i :| 0 <= i <= |s| && IsAt(s, i, u);
    forall k | 0 <= k < |t|
      ensures s[i + off + k] == t[k]
    {
      assert s[i..i + |u|][off + k] == s[i + off + k];
      assert u[off..off + |t|][k] == u[off + k];
    }
    assert s[i + off..i + off + |t|] == t;
    assert IsAt(s, i + off, t);
  }
}
