/**
  The few pieces of Python string and list behaviour the daemon relies on:
  `str.strip()`, `str.lower()`, `sep.join(parts)`, `s[:n]` and `s[start:]`
  with Python's clamping of out-of-range and negative indices.
 */
module Text {

  /** The characters for which Python's `str.isspace()` holds; `str.strip()`
      with no argument removes exactly these from both ends. */
  predicate IsSpace(c: char)
  {
    c == ' ' || ('\t' <= c <= '\r') || ('\U{1C}' <= c <= '\U{1F}') ||
    c == '\U{85}' || c == '\U{A0}' || c == '\U{1680}' ||
    ('\U{2000}' <= c <= '\U{200A}') || c == '\U{2028}' || c == '\U{2029}' ||
    c == '\U{202F}' || c == '\U{205F}' || c == '\U{3000}'
  }

  predicate AllSpace(s: string)
  {
    forall i :: 0 <= i < |s| ==> IsSpace(s[i])
  }

  /** Python's `s.lstrip()`: the longest all-space prefix is dropped. */
  function TrimStart(s: string): (r: string)
    ensures |r| <= |s| && r == s[|s| - |r|..]
    ensures AllSpace(s[..|s| - |r|])
    ensures r == [] || !IsSpace(r[0])
  {
    if s != [] && IsSpace(s[0]) then
      var r := TrimStart(s[1..]);
      assert s[..|s| - |r|] == [s[0]] + s[1..][..|s| - 1 - |r|];
      r
    else s
  }

  /** Python's `s.rstrip()`: the longest all-space suffix is dropped. */
  function TrimEnd(s: string): (r: string)
    ensures |r| <= |s| && r == s[..|r|]
    ensures AllSpace(s[|r|..])
    ensures r == [] || !IsSpace(r[|r| - 1])
  {
    if s != [] && IsSpace(s[|s| - 1]) then
      var r := TrimEnd(s[..|s| - 1]);
      assert s[|r|..] == s[..|s| - 1][|r|..] + [s[|s| - 1]];
      r
    else s
  }

  /** Python's `s.strip()`. */
  function Strip(s: string): string
  {
    TrimStart(TrimEnd(s))
  }

  /** `Strip` removes an all-space prefix and an all-space suffix and keeps
      the infix between them, which neither starts nor ends with a space. */
  lemma StripBounds(s: string) returns (i: nat, j: nat)
    ensures i <= j <= |s| && Strip(s) == s[i..j]
    ensures AllSpace(s[..i]) && AllSpace(s[j..])
    ensures i < j ==> !IsSpace(s[i]) && !IsSpace(s[j - 1])
  {
    var e := TrimEnd(s);
    var r := TrimStart(e);
    i, j := |e| - |r|, |e|;
    assert e == s[..j];
    assert r == e[i..] == s[i..j];
    assert AllSpace(e[..i]);
    assert s[..i] == e[..i];
    assert AllSpace(s[j..]);
    if i < j {
      assert s[i] == r[0];
      assert s[j - 1] == e[j - 1] == r[|r| - 1];
    }
  }

  /** Once the suffix from `j` is all space and `s[j - 1]` is not,
      `TrimEnd` cuts exactly at `j`. */
  lemma {:induction false} TrimEndAt(s: string, j: nat)
    requires j <= |s| && AllSpace(s[j..]) && (j == 0 || !IsSpace(s[j - 1]))
    ensures TrimEnd(s) == s[..j]
    decreases |s|
  {
    if |s| > j {
      var t := s[..|s| - 1];
      assert IsSpace(s[j..][|s| - 1 - j]);
      assert t[j..] == s[j..][..|s| - 1 - j];
      TrimEndAt(t, j);
      assert t[..j] == s[..j];
    }
  }

  /** Once the prefix before `i` is all space and `s[i]` is not, `TrimStart`
      cuts exactly at `i`. */
  lemma {:induction false} TrimStartAt(s: string, i: nat)
    requires i <= |s| && AllSpace(s[..i]) && (i == |s| || !IsSpace(s[i]))
    ensures TrimStart(s) == s[i..]
    decreases |s|
  {
    if i > 0 {
      var t := s[1..];
      assert IsSpace(s[..i][0]);
      assert t[..i - 1] == s[..i][1..];
      TrimStartAt(t, i - 1);
      assert t[i - 1..] == s[i..];
    }
  }

  /** Any split of `s` into an all-space prefix, an infix that neither starts
      nor ends with a space, and an all-space suffix is the one `Strip` makes. */
  lemma StripUnique(s: string, i: nat, j: nat)
    requires i <= j <= |s| && AllSpace(s[..i]) && AllSpace(s[j..])
    requires i < j ==> !IsSpace(s[i]) && !IsSpace(s[j - 1])
    ensures Strip(s) == s[i..j]
  {
    if i < j {
      TrimEndAt(s, j);
      var e := s[..j];
      assert e[..i] == s[..i];
      TrimStartAt(e, i);
      assert e[i..] == s[i..j];
    } else {
      assert AllSpace(s) by {
        forall k | 0 <= k < |s| ensures IsSpace(s[k]) {
          if k < i { assert s[k] == s[..i][k]; } else { assert s[k] == s[j..][k - j]; }
        }
      }
      assert s[0..] == s;
      TrimEndAt(s, 0);
    }
  }

  /** Python's `c.lower()` on the ASCII letters; every other character is
      returned unchanged. */
  function LowerChar(c: char): char
  {
    if 'A' <= c <= 'Z' then (c as int + 32) as char else c
  }

  /** Python's `s.lower()`, restricted to the ASCII letters. */
  function Lower(s: string): string
  {
    seq(|s|, i requires 0 <= i < |s| => LowerChar(s[i]))
  }

  /** Python's `sep.join(parts)`. */
  function Join(parts: seq<string>, sep: string): string
  {
    if |parts| == 0 then ""
    else if |parts| == 1 then parts[0]
    else Join(parts[..|parts| - 1], sep) + sep + parts[|parts| - 1]
  }

  /** Python's `s[start:]` for any integer `start`: a negative start counts
      from the end, and both ends are clamped to the sequence. */
  function SliceFrom<T>(s: seq<T>, start: int): (r: seq<T>)
    ensures |r| <= |s| && r == s[|s| - |r|..]
    ensures start >= 0 ==> |r| == if start <= |s| then |s| - start else 0
    ensures start < 0 ==> |r| == if -start <= |s| then -start else |s|
  {
    if start < 0 then (if -start > |s| then s else s[|s| + start..])
    else if start > |s| then [] else s[start..]
  }

  /** Python's `s[:n]` for a non-negative `n`. */
  function Prefix<T>(s: seq<T>, n: nat): (r: seq<T>)
    ensures |r| == if n <= |s| then n else |s|
    ensures r == s[..|r|]
  {
    if n <= |s| then s[..n] else s
  }
}
