/**
 * The JavaScript string operations the application relies on:
 * `String.prototype.trim`, `indexOf`/`replace` with a string pattern,
 * `split(c).pop()`, number-to-string conversion and the `x || fallback`
 * idiom on optional strings.
 */
module JsText {
  import opened Wrappers

  /** The characters `String.prototype.trim` strips: ECMAScript WhiteSpace and LineTerminator. */
  predicate IsSpace(c: char) {
    || c == '\t' || c == '\n' || c == '\U{B}' || c == '\U{C}' || c == '\r' || c == ' '
    || c == '\U{A0}' || c == '\U{1680}' || ('\U{2000}' <= c <= '\U{200A}')
    || c == '\U{2028}' || c == '\U{2029}' || c == '\U{202F}' || c == '\U{205F}'
    || c == '\U{3000}' || c == '\U{FEFF}'
  }

  predicate AllSpace(s: string) {
    forall k :: 0 <= k < |s| ==> IsSpace(s[k])
  }

  /** No whitespace at either end: what `trim` leaves behind. */
  predicate IsTrimmed(s: string) {
    s == [] || (!IsSpace(s[0]) && !IsSpace(s[|s| - 1]))
  }

  /** The first index at or after `i` that does not hold whitespace (or `|s|`). */
  function SkipSpace(s: string, i: nat): (j: nat)
    requires i <= |s|
    decreases |s| - i
    ensures i <= j <= |s|
    ensures forall k :: i <= k < j ==> IsSpace(s[k])
    ensures j < |s| ==> !IsSpace(s[j])
  {
    if i < |s| && IsSpace(s[i]) then SkipSpace(s, i + 1) else i
  }

  /** Walking back from `j` but not below `lo`: the end of the last non-whitespace character. */
  function SkipSpaceBack(s: string, lo: nat, j: nat): (e: nat)
    requires lo <= j <= |s|
    ensures lo <= e <= j
    ensures forall k :: e <= k < j ==> IsSpace(s[k])
    ensures e > lo ==> !IsSpace(s[e - 1])
  {
    if j > lo && IsSpace(s[j - 1]) then SkipSpaceBack(s, lo, j - 1) else j
  }

  /** `s.trim()`: both ends are stripped of whitespace. */
  function Trim(s: string): (r: string)
    ensures |r| <= |s|
    ensures IsTrimmed(r)
  {
    var a := SkipSpace(s, 0);
    s[a..SkipSpaceBack(s, a, |s|)]
  }

  /**
   * What `trim` removes is whitespace only: `s` is the trimmed value
   * with a run of whitespace on each side, the left one `i` long.
   */
  lemma TrimSurroundings(s: string) returns (i: nat)
    ensures i + |Trim(s)| <= |s|
    ensures s == s[..i] + Trim(s) + s[i + |Trim(s)|..]
    ensures AllSpace(s[..i]) && AllSpace(s[i + |Trim(s)|..])
  {
    i := SkipSpace(s, 0);
    var b := SkipSpaceBack(s, i, |s|);
    assert Trim(s) == s[i..b];
    assert s == s[..i] + s[i..b] + s[b..];
  }

  /** Trimming changes nothing on a value without surrounding whitespace. */
  lemma TrimOfTrimmed(s: string)
    requires IsTrimmed(s)
    ensures Trim(s) == s
  {
  }

  /** `trim` is idempotent. */
  lemma TrimIdempotent(s: string)
    ensures Trim(Trim(s)) == Trim(s)
  {
    TrimOfTrimmed(Trim(s));
  }

  /** The trimmed value is empty exactly when the input is whitespace only. */
  lemma TrimEmptyIff(s: string)
    ensures Trim(s) == [] <==> AllSpace(s)
  {
    var i := TrimSurroundings(s);
    if Trim(s) == [] {
      forall k | 0 <= k < |s| ensures IsSpace(s[k]) {
        if k < i { assert s[k] == s[..i][k]; } else { assert s[k] == s[i..][k - i]; }
      }
    }
  }

  /** A value that trims to a non-empty string is itself non-empty. */
  lemma TrimNonEmpty(s: string)
    requires Trim(s) != []
    ensures s != []
  {
  }

  /** `pat` occurs in `s` starting at index `j`. */
  predicate OccursAt(s: string, pat: string, j: int) {
    0 <= j && j + |pat| <= |s| && s[j..j + |pat|] == pat
  }

  /**
   * `s.indexOf(pat, from)`: the first occurrence at or after `from`, or -1
   * when there is none. JavaScript clamps a `from` beyond the end, so an
   * empty pattern is found at `|s|` there, where this returns -1; every use
   * here starts at 0 with a non-empty pattern, so that case never arises.
   */
  function IndexOfFrom(s: string, pat: string, from: nat): (r: int)
    decreases |s| - from
    ensures r == -1 || (from <= r && OccursAt(s, pat, r))
    ensures r == -1 ==> forall j :: from <= j ==> !OccursAt(s, pat, j)
    ensures r != -1 ==> forall j :: from <= j < r ==> !OccursAt(s, pat, j)
  {
    if from + |pat| > |s| then -1
    else if s[from..from + |pat|] == pat then from
    else IndexOfFrom(s, pat, from + 1)
  }

  function IndexOf(s: string, pat: string): int {
    IndexOfFrom(s, pat, 0)
  }

  /** `s.replace(pat, rep)` with a string pattern: only the first occurrence is replaced. */
  function ReplaceFirst(s: string, pat: string, rep: string): string {
    var i := IndexOf(s, pat);
    if i == -1 then s else s[..i] + rep + s[i + |pat|..]
  }

  /** The last index of `c` in `s` below `j`, or -1 when there is none. */
  function LastIndexBelow(s: string, c: char, j: nat): (r: int)
    requires j <= |s|
    ensures -1 <= r < j
  {
    if j == 0 then -1
    else if s[j - 1] == c then j - 1
    else LastIndexBelow(s, c, j - 1)
  }

  /** `LastIndexBelow` finds an occurrence of `c`, and none lies between it and `j`. */
  lemma {:induction false} LastIndexBelowFound(s: string, c: char, j: nat)
    requires j <= |s|
    ensures var r := LastIndexBelow(s, c, j);
            && (r >= 0 ==> s[r] == c)
            && forall k :: r < k < j ==> s[k] != c
  {
    if j > 0 && s[j - 1] != c {
      LastIndexBelowFound(s, c, j - 1);
    }
  }

  /** `s.lastIndexOf(c)` for a one-character pattern. */
  function LastIndexOf(s: string, c: char): (r: int)
    ensures -1 <= r < |s|
  {
    LastIndexBelow(s, c, |s|)
  }

  /** `lastIndexOf` finds the last occurrence: an index holding `c` with no `c` after it, or -1 when `c` does not occur. */
  lemma LastIndexOfIsLast(s: string, c: char)
    ensures var r := LastIndexOf(s, c);
            && (r >= 0 ==> s[r] == c)
            && c !in s[r + 1..]
            && (r == -1 <==> c !in s)
  {
    LastIndexBelowFound(s, c, |s|);
    var r := LastIndexOf(s, c);
    if r >= 0 {
      assert s[r] == c;
    } else {
      assert s[r + 1..] == s;
    }
  }

  /**
   * `s.split(c).pop()`: the last piece, that is the text after the last `c`,
   * or the whole of `s` when it holds no `c`.
   */
  function LastPiece(s: string, c: char): (r: string)
    ensures |r| <= |s|
  {
    s[LastIndexOf(s, c) + 1..]
  }

  /** The last piece is a suffix without `c`, and it is either all of `s` or preceded by a `c`. */
  lemma LastPieceIsSuffix(s: string, c: char)
    ensures var r := LastPiece(s, c);
            && c !in r
            && r == s[|s| - |r|..]
            && (r == s <==> c !in s)
            && (r != s ==> s[|s| - |r| - 1] == c)
  {
    LastIndexOfIsLast(s, c);
    var i := LastIndexOf(s, c);
    var r := s[i + 1..];
    assert LastPiece(s, c) == r;
    assert |s| - |r| == i + 1;
    if i == -1 {
      assert r == s;
    } else {
      assert |r| < |s| && s[i] == c;
    }
  }

  predicate IsDigit(c: char) {
    '0' <= c <= '9'
  }

  function DigitChar(d: nat): (c: char)
    requires d < 10
    ensures IsDigit(c)
  {
    ('0' as int + d) as char
  }

  /** The number a string of decimal digits denotes. */
  function DigitsValue(s: string): nat
    requires forall k :: 0 <= k < |s| ==> IsDigit(s[k])
  {
    if s == [] then 0
    else
      assert IsDigit(s[|s| - 1]);
      DigitsValue(s[..|s| - 1]) * 10 + (s[|s| - 1] as int - '0' as int)
  }

  /** `String(n)` for a non-negative integer: a non-empty string of digits that denotes `n`. */
  function Decimal(n: nat): (r: string)
    ensures |r| > 0 && forall k :: 0 <= k < |r| ==> IsDigit(r[k])
    ensures DigitsValue(r) == n
  {
    if n < 10 then
      assert [DigitChar(n)][..0] == [];
      [DigitChar(n)]
    else
      var p := Decimal(n / 10);
      var r := p + [DigitChar(n % 10)];
      assert r[..|r| - 1] == p;
      r
  }

  /** A present, non-empty string: JavaScript truthiness on an optional string. */
  predicate Truthy(v: Option<string>) {
    v.Some? && v.value != ""
  }

  /** `v || fallback` on an optional string. */
  function OrElse(v: Option<string>, fallback: string): (r: string)
    ensures Truthy(v) ==> r == v.value
    ensures !Truthy(v) ==> r == fallback
  {
    if Truthy(v) then v.value else fallback
  }
}
