/** The Python string builtins the outreach code relies on: `str.isspace`,
    `str.strip`, `str.lower` and the substring test `needle in hay`. */
module Text {

  /** `c.isspace()` in Python: the characters whose bidirectional class is
      WS, B or S, or whose general category is Zs. */
  predicate IsSpace(c: char)
    ensures c < '\U{80}' ==> (IsSpace(c) <==> c == ' ' || '\t' <= c <= '\r' || '\U{1C}' <= c <= '\U{1F}')
    ensures IsSpace(c) ==> c <= '\U{3000}'
  {
    || ('\t' <= c <= '\r')
    || ('\U{1C}' <= c <= '\U{1F}')
    || c == ' ' || c == '\U{85}' || c == '\U{A0}' || c == '\U{1680}'
    || ('\U{2000}' <= c <= '\U{200A}')
    || c == '\U{2028}' || c == '\U{2029}' || c == '\U{202F}' || c == '\U{205F}' || c == '\U{3000}'
  }

  predicate AllSpace(s: string)
  {
    forall i :: 0 <= i < |s| ==> IsSpace(s[i])
  }

  /** Neither end of `s` is whitespace. */
  predicate Stripped(s: string)
  {
    s == [] || (!IsSpace(s[0]) && !IsSpace(s[|s| - 1]))
  }

  /** `s.lstrip()`: the longest suffix of `s` that does not start with whitespace. */
  function TrimLeft(s: string): (r: string)
    ensures |r| <= |s| && r == s[|s| - |r|..]
    ensures AllSpace(s[..|s| - |r|])
    ensures r != [] ==> !IsSpace(r[0])
  {
    if s != [] && IsSpace(s[0]) then
      var r := TrimLeft(s[1..]);
      var cut := s[..|s| - |r|];
      assert AllSpace(cut) by {
        forall i | 0 <= i < |cut| ensures IsSpace(cut[i]) {
          if i > 0 {
            assert cut[i] == s[1..][..|s| - 1 - |r|][i - 1];
          }
        }
      }
      r
    else
      s
  }

  /** `s.rstrip()`: the longest prefix of `s` that does not end with whitespace. */
  function TrimRight(s: string): (r: string)
    ensures |r| <= |s| && r == s[..|r|]
    ensures AllSpace(s[|r|..])
    ensures r != [] ==> !IsSpace(r[|r| - 1])
  {
    if s != [] && IsSpace(s[|s| - 1]) then
      var r := TrimRight(s[..|s| - 1]);
      var cut := s[|r|..];
      assert AllSpace(cut) by {
        forall i | 0 <= i < |cut| ensures IsSpace(cut[i]) {
          if i < |cut| - 1 {
            assert cut[i] == s[..|s| - 1][|r|..][i];
          }
        }
      }
      r
    else
      s
  }

  /** `r` is `s[i..i + |r|]` and everything of `s` outside that slice is whitespace. */
  ghost predicate SliceBetweenSpace(s: string, r: string, i: int)
  {
    && 0 <= i <= |s| - |r|
    && r == s[i..i + |r|]
    && AllSpace(s[..i])
    && AllSpace(s[i + |r|..])
  }

  /** `s.strip()`: `s` with its leading and trailing whitespace removed;
      neither end of the result is whitespace. */
  function Strip(s: string): (r: string)
    ensures Stripped(r) && |r| <= |s|
  {
    TrimRight(TrimLeft(s))
  }

  /** The stripped string is a slice of `s` and everything cut away is
      whitespace. */
  lemma StripIsSlice(s: string)
    ensures exists i :: SliceBetweenSpace(s, Strip(s), i)
  {
    var left := TrimLeft(s);
    var r := TrimRight(left);
    var i := |s| - |left|;
    assert s[i + |r|..] == left[|r|..];
    assert r == Strip(s);
    assert SliceBetweenSpace(s, Strip(s), i);
  }

  /** `s.lower()`, restricted to the ASCII letters. */
  function LowerChar(c: char): (d: char)
    ensures 'A' <= c <= 'Z' ==> d as int == c as int + 32
    ensures !('A' <= c <= 'Z') ==> d == c
  {
    if 'A' <= c <= 'Z' then (c as int + 32) as char else c
  }

  function Lower(s: string): (r: string)
    ensures |r| == |s|
    ensures forall i :: 0 <= i < |s| ==> r[i] == LowerChar(s[i])
  {
    seq(|s|, i requires 0 <= i < |s| => LowerChar(s[i]))
  }

  /** `s.startswith(prefix)`. */
  predicate StartsWith(s: string, prefix: string)
  {
    |prefix| <= |s| && s[..|prefix|] == prefix
  }

  /** `needle in hay` for two strings: `needle` occurs in `hay` as a contiguous slice. */
  predicate Contains(hay: string, needle: string)
    ensures needle == [] ==> Contains(hay, needle)
    ensures Contains(hay, needle) ==> |needle| <= |hay|
  {
    assert needle == [] ==> OccursAt(hay, needle, 0);
    exists k | 0 <= k <= |hay| - |needle| :: OccursAt(hay, needle, k)
  }

  predicate OccursAt(hay: string, needle: string, k: int)
  {
    0 <= k <= |hay| - |needle| && hay[k..k + |needle|] == needle
  }

  /** Stripping is complete: whatever it returns is a fixed point. */
  lemma StripIdempotent(s: string)
    ensures Strip(Strip(s)) == Strip(s)
  {
    var r := Strip(s);
    if r != [] {
      assert !IsSpace(r[0]);
      assert TrimLeft(r) == r;
      assert !IsSpace(r[|r| - 1]);
    }
  }

  /** A string strips to nothing exactly when it is all whitespace. */
  lemma StripEmptyIffBlank(s: string)
    ensures Strip(s) == [] <==> AllSpace(s)
  {
    var left := TrimLeft(s);
    if Strip(s) == [] {
      assert TrimRight(left) == [];
      assert AllSpace(left);
      assert s == s[..|s| - |left|] + left;
    } else {
      assert left != [] && !IsSpace(left[0]);
      assert s[|s| - |left|] == left[0];
    }
  }
}
