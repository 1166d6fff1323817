/** Whitespace trimming of column names, as Python's str.strip() with no argument does it. */
module Text {

  /** The code points up to U+0020 for which Python's str.isspace() holds. */
  const ASCII_SPACE_CODES: seq<int> := [0x09, 0x0A, 0x0B, 0x0C, 0x0D, 0x1C, 0x1D, 0x1E, 0x1F, 0x20]

  /** The code points above U+0020 for which str.isspace() holds; the smallest is U+0085. */
  const OTHER_SPACE_CODES: seq<int> := [
    0x85, 0xA0, 0x1680, 0x2000, 0x2001, 0x2002, 0x2003, 0x2004, 0x2005, 0x2006, 0x2007,
    0x2008, 0x2009, 0x200A, 0x2028, 0x2029, 0x202F, 0x205F, 0x3000
  ]

  /** Looks x up in codes one entry at a time. */
  predicate Listed(x: int, codes: seq<int>)
  {
    codes != [] && (codes[0] == x || Listed(x, codes[1..]))
  }

  /** The characters str.strip() removes. */
  predicate IsSpace(c: char)
  {
    if c <= ' ' then Listed(c as int, ASCII_SPACE_CODES)
    else c as int >= 0x85 && Listed(c as int, OTHER_SPACE_CODES)
  }

  predicate AllSpace(s: string)
  {
    forall i :: 0 <= i < |s| ==> IsSpace(s[i])
  }

  /** s is an empty string or begins and ends with a non-space character */
  predicate Tight(s: string)
  {
    s == [] || (!IsSpace(s[0]) && !IsSpace(s[|s| - 1]))
  }

  /** Drops leading whitespace: the result is the suffix of s after its longest all-space prefix. */
  function TrimStart(s: string): (r: string)
    ensures |r| <= |s| && r == s[|s| - |r|..]
    ensures AllSpace(s[..|s| - |r|])
    ensures r == [] || !IsSpace(r[0])
  {
    if |s| > 0 && IsSpace(s[0]) then
      var r := TrimStart(s[1..]);
      SpaceBeforeCut(s, s[1..], r);
      r
    else s
  }

  /** A space followed by an all-space run is an all-space run. */
  lemma SpaceBeforeCut(s: string, t: string, r: string)
    requires |s| > 0 && IsSpace(s[0]) && t == s[1..]
    requires |r| <= |t| && r == t[|t| - |r|..] && AllSpace(t[..|t| - |r|])
    ensures r == s[|s| - |r|..] && AllSpace(s[..|s| - |r|])
  {
    var k := |s| - |r|;
    forall i | 0 < i < k ensures IsSpace(s[..k][i]) {
      assert s[..k][i] == t[..k - 1][i - 1];
    }
  }

  /** Drops trailing whitespace: the result is the prefix of s before its longest all-space suffix. */
  function TrimEnd(s: string): (r: string)
    ensures |r| <= |s| && r == s[..|r|]
    ensures AllSpace(s[|r|..])
    ensures r == [] || !IsSpace(r[|r| - 1])
  {
    if |s| > 0 && IsSpace(s[|s| - 1]) then
      var r := TrimEnd(s[..|s| - 1]);
      SpaceAfterCut(s, s[..|s| - 1], r);
      r
    else s
  }

  /** An all-space run followed by a space is an all-space run. */
  lemma SpaceAfterCut(s: string, t: string, r: string)
    requires |s| > 0 && IsSpace(s[|s| - 1]) && t == s[..|s| - 1]
    requires |r| <= |t| && r == t[..|r|] && AllSpace(t[|r|..])
    ensures r == s[..|r|] && AllSpace(s[|r|..])
  {
    var k := |r|;
    forall i | 0 <= i < |s| - 1 - k ensures IsSpace(s[k..][i]) {
      assert s[k..][i] == t[k..][i];
    }
  }

  /** str.strip(): both ends. The result is the middle of s once an all-space prefix and suffix are cut off. */
  function Strip(s: string): (r: string)
    ensures |r| <= |s|
    ensures Tight(r)
    ensures exists p, q :: AllSpace(p) && AllSpace(q) && s == p + r + q
  {
    var t := TrimStart(s);
    var m := TrimEnd(t);
    var p := s[..|s| - |t|];
    var q := t[|m|..];
    LeadingSpace(s, t);
    TrailingSpace(t, m);
    Regroup(p, m, q);
    m
  }

  lemma LeadingSpace(s: string, t: string)
    requires t == TrimStart(s)
    ensures s == s[..|s| - |t|] + t && AllSpace(s[..|s| - |t|])
  {
    SplitAt(s, |s| - |t|);
  }

  lemma TrailingSpace(t: string, m: string)
    requires m == TrimEnd(t)
    ensures t == m + t[|m|..] && AllSpace(t[|m|..])
  {
    SplitAt(t, |m|);
  }

  lemma SplitAt(s: string, k: nat)
    requires k <= |s|
    ensures s == s[..k] + s[k..]
  {
  }

  lemma Regroup(a: string, b: string, c: string)
    ensures a + (b + c) == a + b + c
  {
  }

  lemma {:induction false} TrimStartSkipsSpaces(p: string, t: string)
    requires AllSpace(p)
    ensures TrimStart(p + t) == TrimStart(t)
    decreases |p|
  {
    if p != [] {
      assert (p + t)[0] == p[0] && IsSpace(p[0]);
      assert (p + t)[1..] == p[1..] + t;
      assert AllSpace(p[1..]) by {
        forall i | 0 <= i < |p[1..]| ensures IsSpace(p[1..][i]) { assert p[1..][i] == p[i + 1]; }
      }
      TrimStartSkipsSpaces(p[1..], t);
    } else {
      assert p + t == t;
    }
  }

  lemma {:induction false} TrimEndSkipsSpaces(t: string, q: string)
    requires AllSpace(q)
    ensures TrimEnd(t + q) == TrimEnd(t)
    decreases |q|
  {
    if q != [] {
      assert (t + q)[|t + q| - 1] == q[|q| - 1] && IsSpace(q[|q| - 1]);
      assert (t + q)[..|t + q| - 1] == t + q[..|q| - 1];
      var rest := q[..|q| - 1];
      assert AllSpace(rest) by {
        forall i | 0 <= i < |rest| ensures IsSpace(rest[i]) { assert rest[i] == q[i]; }
      }
      TrimEndSkipsSpaces(t, q[..|q| - 1]);
    } else {
      assert t + q == t;
    }
  }

  /** Strip is determined by its result: whatever tight text is padded with whitespace, Strip recovers it. */
  lemma StripUnique(p: string, m: string, q: string)
    requires AllSpace(p) && AllSpace(q) && Tight(m)
    ensures Strip(p + m + q) == m
  {
    var x := m + q;
    assert p + m + q == p + x;
    TrimStartSkipsSpaces(p, x);
    if m == [] {
      assert x == q + [];
      TrimStartSkipsSpaces(q, []);
      assert TrimStart(x) == [];
    } else {
      assert x[0] == m[0];
      assert TrimStart(x) == x;
      TrimEndSkipsSpaces(m, q);
      assert TrimEnd(m) == m;
    }
  }

  /** Stripping twice is stripping once. */
  lemma StripIdempotent(s: string)
    ensures Strip(Strip(s)) == Strip(s)
  {
    StripUnique([], Strip(s), []);
    assert [] + Strip(s) + [] == Strip(s);
  }
}
