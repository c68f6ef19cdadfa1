/** The Python string operations the core relies on, on `seq<char>`:
    `str.strip()`, ASCII `str.lower()`, `str.rfind(sub, start, end)`,
    slicing with clamped bounds, `sub in s`, `str(n)` for `n >= 0`,
    `sep.join(parts)` and the truthiness of an optional string. */
module Text {
  import opened Common

  /** Python's `str.isspace()` for one character: the Unicode
      White_Space characters with bidirectional class WS, B or S. */
  predicate IsSpace(c: char) {
    || ('\t' <= c <= '\r')
    || ('\U{1C}' <= c <= '\U{1F}')
    || c == ' ' || c == '\U{85}' || c == '\U{A0}' || c == '\U{1680}'
    || ('\U{2000}' <= c <= '\U{200A}')
    || c == '\U{2028}' || c == '\U{2029}' || c == '\U{202F}'
    || c == '\U{205F}' || c == '\U{3000}'
  }

  /** `not s.strip()`: the string is empty or only whitespace. */
  predicate IsBlank(s: string) {
    forall i :: 0 <= i < |s| ==> IsSpace(s[i])
  }

  /** The first index at or after `i` that does not hold whitespace, or
      `|s|`. */
  function SkipSpaces(s: string, i: nat): (k: nat)
    requires i <= |s|
    ensures i <= k <= |s|
    decreases |s| - i
  {
    if i == |s| || !IsSpace(s[i]) then i else SkipSpaces(s, i + 1)
  }

  /** The index just after the last non-whitespace character before `j`,
      or 0. */
  function SkipSpacesBack(s: string, j: nat): (k: nat)
    requires j <= |s|
    ensures k <= j
  {
    if j == 0 || !IsSpace(s[j - 1]) then j else SkipSpacesBack(s, j - 1)
  }

  lemma {:induction false} SkipSpacesFacts(s: string, i: nat)
    requires i <= |s|
    ensures var k := SkipSpaces(s, i);
      (forall j :: i <= j < k ==> IsSpace(s[j])) && (k < |s| ==> !IsSpace(s[k]))
    decreases |s| - i
  {
    if i < |s| && IsSpace(s[i]) {
      SkipSpacesFacts(s, i + 1);
    }
  }

  lemma {:induction false} SkipSpacesBackFacts(s: string, j: nat)
    requires j <= |s|
    ensures var k := SkipSpacesBack(s, j);
      (forall i :: k <= i < j ==> IsSpace(s[i])) && (k > 0 ==> !IsSpace(s[k - 1]))
  {
    if j > 0 && IsSpace(s[j - 1]) {
      SkipSpacesBackFacts(s, j - 1);
    }
  }

  /** Where the stripped text starts and ends: the first non-whitespace
      character, when there is one, lies before the end of the last. */
  lemma StripBounds(s: string)
    ensures SkipSpaces(s, 0) < |s| ==> SkipSpaces(s, 0) < SkipSpacesBack(s, |s|)
    ensures SkipSpaces(s, 0) == |s| <==> IsBlank(s)
  {
    SkipSpacesFacts(s, 0);
    SkipSpacesBackFacts(s, |s|);
  }

  /** Python's `s.strip()`: `s` without its leading and trailing
      whitespace. */
  function Strip(s: string): string {
    var a := SkipSpaces(s, 0);
    if a == |s| then []
    else
      var b := SkipSpacesBack(s, |s|);
      assert a < b by { StripBounds(s); }
      s[a..b]
  }

  /** The stripped text is empty exactly when the text is blank; when it
      is not, it is a slice of the text that neither starts nor ends with
      whitespace, and everything cut off around it, before
      `SkipSpaces(s, 0)` and after, is whitespace. */
  lemma StripFacts(s: string)
    ensures Strip(s) == [] <==> IsBlank(s)
    ensures var r := Strip(s);
      r != [] ==>
        && !IsSpace(r[0]) && !IsSpace(r[|r| - 1])
        && var a := SkipSpaces(s, 0);
        && a + |r| <= |s| && r == s[a..a + |r|]
        && (forall i :: 0 <= i < a ==> IsSpace(s[i]))
        && (forall i :: a + |r| <= i < |s| ==> IsSpace(s[i]))
  {
    StripBounds(s);
    SkipSpacesFacts(s, 0);
    SkipSpacesBackFacts(s, |s|);
    if !IsBlank(s) {
      var a := SkipSpaces(s, 0);
      var b := SkipSpacesBack(s, |s|);
      assert Strip(s) == s[a..b];
      assert Strip(s) == s[a..a + |Strip(s)|];
    }
  }

  /** Python's `str.lower()` on one character, for ASCII letters. */
  function LowerChar(c: char): (d: char)
    ensures IsSpace(d) == IsSpace(c)
    ensures (d == '.') == (c == '.')
    ensures 'A' <= c <= 'Z' ==> d as int == c as int + 32
    ensures !('A' <= c <= 'Z') ==> d == c
  {
    if 'A' <= c <= 'Z' then (c as int + 32) as char else c
  }

  /** Python's `s.lower()`, character by character. */
  function Lower(s: string): (r: string)
    ensures |r| == |s|
    ensures forall i :: 0 <= i < |s| ==> r[i] == LowerChar(s[i])
  {
    seq(|s|, i requires 0 <= i < |s| => LowerChar(s[i]))
  }

  /** The normalisation both cache-key derivations apply:
      `query.lower().strip()`. */
  function Normalize(q: string): string {
    Strip(Lower(q))
  }

  lemma {:induction false} LowerIdempotent(s: string)
    ensures Lower(Lower(s)) == Lower(s)
  {
    assert forall i :: 0 <= i < |s| ==> LowerChar(LowerChar(s[i])) == LowerChar(s[i]);
  }

  lemma {:induction false} SkipSpacesOfLower(s: string, i: nat)
    requires i <= |s|
    ensures SkipSpaces(Lower(s), i) == SkipSpaces(s, i)
    decreases |s| - i
  {
    if i < |s| {
      assert Lower(s)[i] == LowerChar(s[i]);
      SkipSpacesOfLower(s, i + 1);
    }
  }

  lemma {:induction false} SkipSpacesBackOfLower(s: string, j: nat)
    requires j <= |s|
    ensures SkipSpacesBack(Lower(s), j) == SkipSpacesBack(s, j)
  {
    if j > 0 {
      assert Lower(s)[j - 1] == LowerChar(s[j - 1]);
      SkipSpacesBackOfLower(s, j - 1);
    }
  }

  lemma LowerSlice(s: string, lo: nat, hi: nat)
    requires lo <= hi <= |s|
    ensures Lower(s)[lo..hi] == Lower(s[lo..hi])
  {
  }

  /** Lower-casing and stripping commute, so `q.lower().strip()` is also
      `q.strip().lower()`. */
  lemma {:induction false} StripLowerCommute(s: string)
    ensures Strip(Lower(s)) == Lower(Strip(s))
  {
    SkipSpacesOfLower(s, 0);
    SkipSpacesBackOfLower(s, |s|);
    var a := SkipSpaces(s, 0);
    if a < |s| {
      StripBounds(s);
      LowerSlice(s, a, SkipSpacesBack(s, |s|));
    }
  }

  lemma {:induction false} StripIdempotent(s: string)
    ensures Strip(Strip(s)) == Strip(s)
  {
    var r := Strip(s);
    if r != [] {
      StripFacts(s);
      assert SkipSpaces(r, 0) == 0;
      assert SkipSpacesBack(r, |r|) == |r|;
      assert r[0..|r|] == r;
    }
  }

  /** Normalising an already normalised query changes nothing, so a
      question and its normalised form share every cache key. */
  lemma {:induction false} NormalizeIdempotent(q: string)
    ensures Normalize(Normalize(q)) == Normalize(q)
  {
    StripLowerCommute(q);
    StripLowerCommute(Strip(Lower(q)));
    LowerIdempotent(Strip(q));
    StripIdempotent(Lower(Strip(q)));
    calc {
      Normalize(Normalize(q));
      Strip(Lower(Strip(Lower(q))));
      Lower(Strip(Strip(Lower(q))));
      { StripIdempotent(Lower(q)); }
      Lower(Strip(Lower(q)));
      { StripLowerCommute(q); }
      Lower(Lower(Strip(q)));
      Lower(Strip(q));
      Strip(Lower(q));
    }
  }

  /** `sub` occurs in `s` starting at index `i`. */
  predicate IsAt(s: string, sub: string, i: int) {
    0 <= i && i + |sub| <= |s| && s[i..i + |sub|] == sub
  }

  /** An occurrence inside a part is an occurrence in the whole. */
  lemma IsAtInside(pre: string, s: string, post: string, sub: string, k: int)
    requires IsAt(s, sub, k)
    ensures IsAt(pre + s + post, sub, |pre| + k)
  {
    assert (pre + s + post)[|pre| + k..|pre| + k + |sub|] == s[k..k + |sub|];
  }

  /** An occurrence inside an occurrence is an occurrence. */
  lemma IsAtWithin(s: string, mid: string, sub: string, j: int, k: int)
    requires IsAt(s, mid, j) && IsAt(mid, sub, k)
    ensures IsAt(s, sub, j + k)
  {
    forall i | 0 <= i < |sub|
      ensures s[j + k..j + k + |sub|][i] == sub[i]
    {
      assert sub[i] == mid[k + i] == s[j + k + i];
    }
  }

  /** The highest occurrence of `sub` in `s` at or after `lo` and at or
      before `i`, or -1. */
  function RFindDown(s: string, sub: string, lo: int, i: int): (r: int)
    requires 0 <= lo
    ensures r == -1 || (lo <= r <= i && IsAt(s, sub, r))
    ensures r == -1 ==> forall j :: lo <= j <= i ==> !IsAt(s, sub, j)
    ensures r != -1 ==> forall j :: r < j <= i ==> !IsAt(s, sub, j)
    decreases i - lo
  {
    if i < lo then -1
    else if IsAt(s, sub, i) then i
    else RFindDown(s, sub, lo, i - 1)
  }

  /** Python's `s.rfind(sub, lo, hi)` for non-negative bounds: the
      highest index `r >= lo` with `s[r:r+len(sub)] == sub` and
      `r + len(sub) <= min(hi, len(s))`, or -1 when there is none. */
  function RFind(s: string, sub: string, lo: int, hi: int): (r: int)
    requires 0 <= lo && 0 <= hi
    ensures r == -1 || (lo <= r && r + |sub| <= Min(hi, |s|) && IsAt(s, sub, r))
    ensures r == -1 <==> forall j :: lo <= j && j + |sub| <= Min(hi, |s|) ==> !IsAt(s, sub, j)
    ensures r != -1 ==> forall j :: r < j && j + |sub| <= Min(hi, |s|) ==> !IsAt(s, sub, j)
  {
    RFindDown(s, sub, lo, Min(hi, |s|) - |sub|)
  }

  /** `s.rfind(c)` for one character: -1 when `c` does not occur,
      otherwise the index of its last occurrence. */
  lemma RFindCharFacts(s: string, c: char)
    ensures var r := RFind(s, [c], 0, |s|);
      && (r == -1 ==> c !in s)
      && (r != -1 ==> 0 <= r < |s| && s[r] == c && forall j :: r < j < |s| ==> s[j] != c)
  {
    var r := RFind(s, [c], 0, |s|);
    if r != -1 {
      assert s[r..r + 1] == [c];
    }
    forall j | 0 <= j < |s| && s[j] == c
      ensures IsAt(s, [c], j)
    {
      assert s[j..j + 1] == [c];
    }
  }

  /** Python's `s[lo:hi]` for non-negative bounds. */
  function Slice<T>(s: seq<T>, lo: int, hi: int): (r: seq<T>)
    requires 0 <= lo && 0 <= hi
    ensures lo < Min(hi, |s|) ==> r == s[lo..Min(hi, |s|)]
    ensures lo >= Min(hi, |s|) ==> r == []
  {
    if lo >= Min(hi, |s|) then [] else s[lo..Min(hi, |s|)]
  }

  /** Python's `s[:n]` for `n >= 0`. */
  function Prefix<T>(s: seq<T>, n: nat): (r: seq<T>)
    ensures |r| == Min(n, |s|)
    ensures r == s[..|r|]
  {
    s[..Min(n, |s|)]
  }

  /** Python's `sub in s`. */
  predicate Contains(s: string, sub: string)
    decreases |s|
  {
    |sub| <= |s| && (s[..|sub|] == sub || Contains(s[1..], sub))
  }

  lemma {:induction false} ContainsIsAt(s: string, sub: string, i: int)
    requires IsAt(s, sub, i)
    ensures Contains(s, sub)
    decreases i
  {
    if i > 0 {
      assert IsAt(s[1..], sub, i - 1) by {
        assert s[1..][i - 1..i - 1 + |sub|] == s[i..i + |sub|];
      }
      ContainsIsAt(s[1..], sub, i - 1);
    }
  }

  predicate IsDigit(c: char) {
    '0' <= c <= '9'
  }

  function DigitChar(d: nat): (c: char)
    requires d < 10
    ensures IsDigit(c)
  {
    ('0' as int + d) as char
  }

  /** Python's `str(n)` for `n >= 0`: decimal digits, no leading zero. */
  function NatToString(n: nat): (r: string)
    ensures |r| > 0
    ensures forall i :: 0 <= i < |r| ==> IsDigit(r[i])
    ensures |r| > 1 ==> r[0] != '0'
  {
    if n < 10 then [DigitChar(n)] else NatToString(n / 10) + [DigitChar(n % 10)]
  }

  /** Python truthiness of an optional string: present and non-empty. */
  predicate Truthy(s: Option<string>) {
    s.Some? && s.value != ""
  }

  /** Python's `sep.join(parts)`. */
  function Join(sep: string, parts: seq<string>): string {
    if parts == [] then ""
    else if |parts| == 1 then parts[0]
    else parts[0] + sep + Join(sep, parts[1..])
  }
}
