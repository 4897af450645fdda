/**
 * The JavaScript string primitives the front end relies on, written out on `seq<char>`:
 * decimal rendering of integers, `padStart(2, '0')`, `trim`, `includes`, `indexOf`,
 * `replace` with a string pattern, and the concatenation of the pieces a message is built from.
 */
module Text {
  import opened Wrappers

  predicate IsDigit(c: char) {
    '0' <= c <= '9'
  }

  predicate AllDigits(s: string) {
    forall i :: 0 <= i < |s| ==> IsDigit(s[i])
  }

  function DigitValue(c: char): (d: nat)
    requires IsDigit(c)
    ensures d < 10
  {
    c as int - '0' as int
  }

  function DigitChar(d: nat): (c: char)
    requires d < 10
    ensures IsDigit(c) && DigitValue(c) == d
  {
    ('0' as int + d) as char
  }

  /** Decimal rendering of a natural number, most significant digit first, no leading zero. */
  function NatToString(n: nat): (s: string)
    ensures |s| > 0 && AllDigits(s)
    ensures n < 10 <==> |s| == 1
    decreases n
  {
    if n < 10 then [DigitChar(n)] else NatToString(n / 10) + [DigitChar(n % 10)]
  }

  /** Decimal rendering of an integer: a minus sign in front of a negative one. */
  function IntToString(i: int): string {
    if i < 0 then "-" + NatToString(-i) else NatToString(i)
  }

  /** The number a string of decimal digits denotes. */
  function ParseNat(s: string): nat
    requires AllDigits(s)
  {
    if s == [] then 0 else ParseNat(s[..|s| - 1]) * 10 + DigitValue(s[|s| - 1])
  }

  /** Reading back the decimal rendering gives the number: the rendering loses nothing. */
  lemma {:induction false} NatToStringRoundTrip(n: nat)
    ensures ParseNat(NatToString(n)) == n
    decreases n
  {
    if n >= 10 {
      var a := NatToString(n / 10);
      var s := NatToString(n);
      assert s == a + [DigitChar(n % 10)];
      assert s[..|s| - 1] == a;
      NatToStringRoundTrip(n / 10);
    }
  }

  /** `String(n).padStart(2, '0')`: a one-digit rendering gets a leading zero. */
  function Pad2(n: nat): string {
    var s := NatToString(n);
    if |s| >= 2 then s else "0" + s
  }

  /** A number below 100 pads to exactly two digits, and reading them back gives the number. */
  lemma Pad2RoundTrip(n: nat)
    requires n < 100
    ensures |Pad2(n)| == 2 && AllDigits(Pad2(n)) && ParseNat(Pad2(n)) == n
  {
    var s := NatToString(n);
    NatToStringRoundTrip(n);
    if n < 10 {
      var p := Pad2(n);
      assert p == "0" + s;
      assert p[..1] == "0";
      assert ParseNat(p) == ParseNat(p[..1]) * 10 + DigitValue(p[1]);
      assert p[..1][..0] == [];
    } else {
      assert NatToString(n / 10) == [DigitChar(n / 10)];
    }
  }

  /** The characters JavaScript's `trim` and the regular-expression class `\s` treat as blank. */
  predicate IsWhitespace(c: char) {
    || c == ' ' || c == '\t' || c == '\n' || c == '\r'
    || c == '\U{000B}' || c == '\U{000C}' || c == '\U{00A0}' || c == '\U{1680}'
    || ('\U{2000}' <= c <= '\U{200A}')
    || c == '\U{2028}' || c == '\U{2029}' || c == '\U{202F}' || c == '\U{205F}'
    || c == '\U{3000}' || c == '\U{FEFF}'
  }

  predicate IsBlank(s: string) {
    forall i :: 0 <= i < |s| ==> IsWhitespace(s[i])
  }

  /** The number of whitespace characters `s` starts with. */
  function LeadingSpace(s: string): (k: nat)
    ensures k <= |s|
    ensures IsBlank(s[..k])
    ensures k < |s| ==> !IsWhitespace(s[k])
  {
    if s == [] || !IsWhitespace(s[0]) then 0
    else
      var k := 1 + LeadingSpace(s[1..]);
      assert s[..k] == [s[0]] + s[1..][..k - 1];
      k
  }

  /** The number of whitespace characters `s` ends with. */
  function TrailingSpace(s: string): (k: nat)
    ensures k <= |s|
    ensures IsBlank(s[|s| - k..])
    ensures k < |s| ==> !IsWhitespace(s[|s| - 1 - k])
  {
    if s == [] || !IsWhitespace(s[|s| - 1]) then 0
    else
      var front := s[..|s| - 1];
      var k := 1 + TrailingSpace(front);
      forall i | |s| - k <= i < |s| ensures IsWhitespace(s[i]) {
        if i < |s| - 1 {
          assert front[|front| - (k - 1)..][i - (|s| - k)] == s[i];
        }
      }
      k
  }

  /** `s.trim()`. */
  function Trim(s: string): string {
    var t := s[LeadingSpace(s)..];
    t[..|t| - TrailingSpace(t)]
  }

  /** Trimming leaves nothing exactly when the text is all whitespace. */
  lemma TrimEmptyIffBlank(s: string)
    ensures Trim(s) == "" <==> IsBlank(s)
  {
    var k := LeadingSpace(s);
    var t := s[k..];
    if k < |s| {
      assert !IsWhitespace(t[0]);
      assert TrailingSpace(t) < |t|;
    } else {
      assert s == s[..k];
    }
  }

  /** Trimming neither starts nor ends on whitespace. */
  lemma TrimHasNoOuterSpace(s: string)
    ensures Trim(s) != "" ==> !IsWhitespace(Trim(s)[0]) && !IsWhitespace(Trim(s)[|Trim(s)| - 1])
  {
    var t := s[LeadingSpace(s)..];
    var r := Trim(s);
    if r != "" {
      assert r[0] == t[0];
    }
  }

  predicate OccursAt(s: string, p: string, j: nat) {
    j + |p| <= |s| && s[j..j + |p|] == p
  }

  /** The first position at or after `i` where `p` occurs in `s`. */
  function FindFrom(s: string, p: string, i: nat): (r: Option<nat>)
    ensures r.Some? ==> i <= r.value && OccursAt(s, p, r.value)
    ensures r.Some? ==> forall j :: i <= j < r.value ==> !OccursAt(s, p, j)
    ensures r.None? ==> forall j :: i <= j ==> !OccursAt(s, p, j)
    decreases |s| - i
  {
    if i + |p| > |s| then None
    else if s[i..i + |p|] == p then Some(i)
    else FindFrom(s, p, i + 1)
  }

  /** `s.indexOf(p)`, with `None` for -1. */
  function IndexOf(s: string, p: string): Option<nat> {
    FindFrom(s, p, 0)
  }

  /** `s.includes(p)`. */
  predicate Contains(s: string, p: string) {
    IndexOf(s, p).Some?
  }

  lemma ContainsAt(s: string, p: string, j: nat)
    requires OccursAt(s, p, j)
    ensures Contains(s, p)
  {
  }

  /**
   * `s.replace(p, r)` with a string pattern: only the first occurrence is replaced; without
   * one the text is unchanged.
   */
  function ReplaceFirst(s: string, p: string, r: string): (x: string)
    ensures !Contains(s, p) ==> x == s
    ensures Contains(s, p) ==> var i := IndexOf(s, p).value;
      (forall j :: 0 <= j < i ==> !OccursAt(s, p, j))
      && OccursAt(s, p, i) && |x| == |s| - |p| + |r|
      && x[..i] == s[..i] && x[i..i + |r|] == r && x[i + |r|..] == s[i + |p|..]
  {
    match IndexOf(s, p)
    case None => s
    case Some(i) => s[..i] + r + s[i + |p|..]
  }

  /** Concatenation regrouped, for gluing pieces built separately. */
  lemma Regroup<T>(a: seq<T>, b: seq<T>, c: seq<T>)
    ensures a + b + c == a + (b + c)
  {
  }

  /** The text built by appending `chunks` one after another with `+=`. */
  function Concat<T>(chunks: seq<seq<T>>): seq<T> {
    if chunks == [] then [] else Concat(chunks[..|chunks| - 1]) + chunks[|chunks| - 1]
  }

  /** One more `+=`. */
  lemma ConcatSnoc<T>(chunks: seq<seq<T>>, x: seq<T>)
    ensures Concat(chunks + [x]) == Concat(chunks) + x
  {
    assert (chunks + [x])[..|chunks|] == chunks;
  }

  lemma {:induction false} ConcatAppend<T>(a: seq<seq<T>>, b: seq<seq<T>>)
    ensures Concat(a + b) == Concat(a) + Concat(b)
    decreases |b|
  {
    if b == [] {
      assert a + b == a;
    } else {
      var b' := b[..|b| - 1];
      assert (a + b)[..|a + b| - 1] == a + b';
      ConcatAppend(a, b');
    }
  }

  /** The first `k + 1` chunks are the first `k` followed by the next one. */
  lemma ConcatTake<T>(chunks: seq<seq<T>>, k: nat)
    requires k < |chunks|
    ensures Concat(chunks[..k + 1]) == Concat(chunks[..k]) + chunks[k]
  {
    assert chunks[..k + 1][..k] == chunks[..k];
  }

  /** Splitting the chunks at `k` splits their concatenation. */
  lemma ConcatSplit<T>(chunks: seq<seq<T>>, k: nat)
    requires k <= |chunks|
    ensures Concat(chunks) == Concat(chunks[..k]) + Concat(chunks[k..])
  {
    assert chunks == chunks[..k] + chunks[k..];
    ConcatAppend(chunks[..k], chunks[k..]);
  }

  /** `p` is a prefix of `s`. */
  predicate StartsWith(s: string, p: string) {
    |p| <= |s| && s[..|p|] == p
  }

  /** `q` is a suffix of `s`. */
  predicate EndsWith(s: string, q: string) {
    |q| <= |s| && s[|s| - |q|..] == q
  }

  lemma StartsWithAppend(a: string, b: string)
    ensures StartsWith(a + b, a)
  {
    assert (a + b)[..|a|] == a;
  }

  lemma EndsWithAppend(a: string, b: string)
    ensures EndsWith(a + b, b)
  {
    assert (a + b)[|a|..] == b;
  }

  lemma StartsWithTrans(s: string, p: string, q: string)
    requires StartsWith(s, p) && StartsWith(p, q)
    ensures StartsWith(s, q)
  {
    assert s[..|q|] == s[..|p|][..|q|];
  }

  /** Appending the same text to both keeps a suffix a suffix. */
  lemma EndsWithExtend(s: string, q: string, x: string)
    requires EndsWith(s, q)
    ensures EndsWith(s + x, q + x)
  {
    assert (s + x)[|s + x| - |q + x|..] == s[|s| - |q|..] + x;
  }

  /** A message starts with its first chunk and ends with its last one. */
  lemma ConcatEnds<T>(chunks: seq<seq<T>>)
    requires |chunks| > 0
    ensures Concat(chunks) == chunks[0] + Concat(chunks[1..])
    ensures Concat(chunks) == Concat(chunks[..|chunks| - 1]) + chunks[|chunks| - 1]
  {
    ConcatAppend([chunks[0]], chunks[1..]);
    assert [chunks[0]] + chunks[1..] == chunks;
    assert Concat([chunks[0]]) == chunks[0] by {
      assert [chunks[0]][..0] == [];
    }
  }
}
