/** String operations the backend and the renderer rely on, written out the way
    Python's `str` methods behave (`strip`, `lower`, `split`, `in`, slicing,
    `join`, `replace`, `split(c)[0]`). */
module Text {

  datatype Option<+T> = None | Some(value: T)

  /** Python truthiness of an optional string: `None` and `""` are falsy. */
  predicate Truthy(s: Option<string>) {
    s.Some? && s.value != ""
  }

  /** The characters Python's `str.isspace` accepts, which `strip()` and `split()` remove. */
  predicate IsSpace(c: char) {
    ('\t' <= c <= '\r') || ('\U{1c}' <= c <= '\U{1f}') || c == ' '
    || c == '\U{85}' || c == '\U{a0}' || c == '\U{1680}'
    || ('\U{2000}' <= c <= '\U{200a}') || c == '\U{2028}' || c == '\U{2029}'
    || c == '\U{202f}' || c == '\U{205f}' || c == '\U{3000}'
  }

  /** No whitespace at either end: what `strip()` leaves. */
  predicate IsStripped(s: string) {
    s == [] || (!IsSpace(s[0]) && !IsSpace(s[|s| - 1]))
  }

  function TrimStart(s: string): (r: string)
    ensures |r| <= |s|
    ensures r == [] || !IsSpace(r[0])
  {
    if s != [] && IsSpace(s[0]) then TrimStart(s[1..]) else s
  }

  function TrimEnd(s: string): (r: string)
    ensures |r| <= |s|
    ensures r == [] || !IsSpace(r[|r| - 1])
    ensures r != [] ==> r[0] == s[0]
  {
    if s != [] && IsSpace(s[|s| - 1]) then TrimEnd(s[..|s| - 1]) else s
  }

  /** `TrimStart` keeps a suffix and cuts only whitespace. */
  lemma {:induction false} TrimStartCutsSpace(s: string)
    ensures TrimStart(s) == s[|s| - |TrimStart(s)|..]
    ensures forall i :: 0 <= i < |s| - |TrimStart(s)| ==> IsSpace(s[i])
  {
    if s != [] && IsSpace(s[0]) {
      TrimStartCutsSpace(s[1..]);
      assert forall i :: 1 <= i < |s| ==> s[1..][i - 1] == s[i];
      assert s[1..][|s[1..]| - |TrimStart(s[1..])|..] == s[|s| - |TrimStart(s)|..];
    }
  }

  /** `TrimEnd` keeps a prefix and cuts only whitespace. */
  lemma {:induction false} TrimEndCutsSpace(s: string)
    ensures TrimEnd(s) == s[..|TrimEnd(s)|]
    ensures forall i :: |TrimEnd(s)| <= i < |s| ==> IsSpace(s[i])
  {
    if s != [] && IsSpace(s[|s| - 1]) {
      TrimEndCutsSpace(s[..|s| - 1]);
    }
  }

  /** Python `s.strip()`. */
  function Strip(s: string): (r: string)
    ensures |r| <= |s| && IsStripped(r)
  {
    TrimEnd(TrimStart(s))
  }

  lemma StripBody(s: string)
    ensures var lo := |s| - |TrimStart(s)|;
            lo + |Strip(s)| <= |s| && Strip(s) == s[lo..][..|Strip(s)|]
  {
    var t := TrimStart(s);
    var r := TrimEnd(t);
    var lo := |s| - |t|;
    TrimStartCutsSpace(s);
    TrimEndCutsSpace(t);
    assert t == s[lo..];
    assert r == t[..|r|];
  }

  lemma StripTrailingCut(s: string)
    ensures forall i :: |s| - |TrimStart(s)| + |Strip(s)| <= i < |s| ==> IsSpace(s[i])
  {
    var t := TrimStart(s);
    var lo := |s| - |t|;
    var r := TrimEnd(t);
    assert Strip(s) == r;
    TrimStartCutsSpace(s);
    TrimEndCutsSpace(t);
    forall i | lo + |r| <= i < |s|
      ensures IsSpace(s[i])
    {
      assert s[i] == t[i - lo];
      assert IsSpace(t[i - lo]);
    }
  }

  /** What `strip()` returns is the infix of `s` left after cutting whitespace,
      and nothing but whitespace, from both ends; `lo` is the length of the
      leading cut. */
  lemma StripIsInfix(s: string)
    ensures var lo := |s| - |TrimStart(s)|;
            lo + |Strip(s)| <= |s| && Strip(s) == s[lo..][..|Strip(s)|]
            && (forall i :: 0 <= i < lo ==> IsSpace(s[i]))
            && (forall i :: lo + |Strip(s)| <= i < |s| ==> IsSpace(s[i]))
  {
    StripBody(s);
    TrimStartCutsSpace(s);
    StripTrailingCut(s);
  }

  function LowerChar(c: char): char {
    if 'A' <= c <= 'Z' then (c as int + 32) as char else c
  }

  /** Python `s.lower()` on the ASCII letters. */
  function Lower(s: string): (r: string)
    ensures |r| == |s|
    ensures forall i :: 0 <= i < |s| ==> r[i] == LowerChar(s[i])
  {
    seq(|s|, i requires 0 <= i < |s| => LowerChar(s[i]))
  }

  lemma LowerAppend(a: string, b: string)
    ensures Lower(a + b) == Lower(a) + Lower(b)
  {
    assert forall i :: 0 <= i < |a + b| ==> Lower(a + b)[i] == (Lower(a) + Lower(b))[i];
  }

  /** Python `t in s` for strings: `t` occurs in `s` at some offset. */
  predicate Contains(s: string, t: string) {
    exists i :: 0 <= i <= |s| - |t| && t <= s[i..]
  }

  lemma {:induction false} ContainsInRight(a: string, b: string, t: string)
    requires Contains(b, t)
    ensures Contains(a + b, t)
    ensures Contains(b + a, t)
  {
    var i :| 0 <= i <= |b| - |t| && t <= b[i..];
    assert (a + b)[|a| + i..] == b[i..];
    assert t <= (b + a)[i..] by {
      assert forall k :: i <= k < i + |t| ==> (b + a)[k] == b[k];
    }
  }

  /** Python slicing `s[:n]`. */
  function Take<T>(s: seq<T>, n: nat): (r: seq<T>)
    ensures |r| == if |s| <= n then |s| else n
    ensures r <= s
  {
    if |s| <= n then s else s[..n]
  }

  /** Python `sep.join(parts)`. */
  function Join(parts: seq<string>, sep: string): string {
    if parts == [] then []
    else if |parts| == 1 then parts[0]
    else parts[0] + sep + Join(parts[1..], sep)
  }

  /** Python `s.replace(pat, '')`: every non-overlapping occurrence of `pat`,
      scanned from the left, is dropped. */
  function RemoveAll(s: string, pat: string): (r: string)
    requires pat != []
    ensures |r| <= |s|
    decreases |s|
  {
    if |pat| <= |s| && s[..|pat|] == pat then RemoveAll(s[|pat|..], pat)
    else if s == [] then []
    else [s[0]] + RemoveAll(s[1..], pat)
  }

  /** A string without an occurrence of `pat` is left as it is. */
  lemma {:induction false} RemoveAllAbsent(s: string, pat: string)
    requires pat != []
    ensures !Contains(s, pat) ==> RemoveAll(s, pat) == s
    decreases |s|
  {
    if |pat| <= |s| && s[..|pat|] == pat {
      assert pat <= s[0..];
    } else if s != [] {
      RemoveAllAbsent(s[1..], pat);
      if Contains(s[1..], pat) {
        var i :| 0 <= i <= |s[1..]| - |pat| && pat <= s[1..][i..];
        assert s[1..][i..] == s[i + 1..];
      }
    }
  }

  /** A leading occurrence of `pat` is dropped. */
  lemma RemoveAllLeading(pat: string, t: string)
    requires pat != []
    ensures RemoveAll(pat + t, pat) == RemoveAll(t, pat)
  {
    assert (pat + t)[..|pat|] == pat;
    assert (pat + t)[|pat|..] == t;
  }

  /** Python `s.split(c)[0]`: everything before the first `c`. */
  function BeforeFirst(s: string, c: char): (r: string)
    ensures r <= s && c !in r
    ensures c in s <==> |r| < |s|
    ensures |r| < |s| ==> s[|r|] == c
  {
    if s == [] then []
    else if s[0] == c then []
    else [s[0]] + BeforeFirst(s[1..], c)
  }

  /** A word of `split()`: non-empty and without whitespace. */
  predicate IsWord(w: string) {
    w != [] && forall i :: 0 <= i < |w| ==> !IsSpace(w[i])
  }

  /** The longest prefix of `s` without whitespace. */
  function LeadingWord(s: string): (w: string)
    ensures w <= s
    ensures forall i :: 0 <= i < |w| ==> !IsSpace(w[i])
    ensures |w| < |s| ==> IsSpace(s[|w|])
  {
    if s == [] || IsSpace(s[0]) then [] else [s[0]] + LeadingWord(s[1..])
  }

  /** Python `s.split()` with no separator: the maximal runs of non-whitespace. */
  function Words(s: string): seq<string>
    decreases |s|
  {
    if s == [] then []
    else if IsSpace(s[0]) then Words(s[1..])
    else
      var w := LeadingWord(s);
      assert w[0] == s[0];
      [w] + Words(s[|w|..])
  }

  /** `split()` yields only words, and yields none exactly for a blank string. */
  lemma {:induction false} WordsAreWords(s: string)
    ensures forall k :: 0 <= k < |Words(s)| ==> IsWord(Words(s)[k])
    ensures Words(s) == [] <==> forall i :: 0 <= i < |s| ==> IsSpace(s[i])
    decreases |s|
  {
    if s == [] {
    } else if IsSpace(s[0]) {
      WordsAreWords(s[1..]);
      assert forall i :: 0 <= i < |s[1..]| ==> s[1..][i] == s[i + 1];
    } else {
      var w := LeadingWord(s);
      assert w[0] == s[0];
      WordsAreWords(s[|w|..]);
    }
  }
}
