/**
 * String helpers standing in for the JavaScript string built-ins the routes use:
 * `indexOf`/`includes`, `replace` with a string pattern, `split("/").pop()`,
 * `toLowerCase`/`toUpperCase`, `trim`, decimal number printing and `BigInt` parsing, `join`.
 */
module Text {
  import opened Wrappers

  /** A JSON string field is truthy when present and non-empty (an absent, null or "" field is not). */
  predicate Truthy(f: Option<string>) {
    f.Some? && f.value != ""
  }

  /** `p` occurs in `s` starting at index `i`. */
  predicate OccursAt(p: string, s: string, i: nat) {
    i + |p| <= |s| && s[i..i + |p|] == p
  }

  predicate StartsWith(s: string, p: string) {
    OccursAt(p, s, 0)
  }

  /** First index `>= from` at which `p` occurs in `s` (`s.indexOf(p, from)`). */
  function IndexOfFrom(s: string, p: string, from: nat): (r: Option<nat>)
    decreases |s| - from
    ensures r.Some? ==> from <= r.value && OccursAt(p, s, r.value)
    ensures r.Some? ==> forall j :: from <= j < r.value ==> !OccursAt(p, s, j)
    ensures r.None? ==> forall j :: from <= j ==> !OccursAt(p, s, j)
  {
    if from + |p| > |s| then None
    else if OccursAt(p, s, from) then Some(from)
    else IndexOfFrom(s, p, from + 1)
  }

  function IndexOf(s: string, p: string): Option<nat> {
    IndexOfFrom(s, p, 0)
  }

  /** `s.includes(p)` */
  predicate Contains(s: string, p: string) {
    IndexOf(s, p).Some?
  }

  lemma ContainsAt(s: string, p: string, i: nat)
    requires OccursAt(p, s, i)
    ensures Contains(s, p)
  {
  }

  /** When the pattern's first character does not occur in `a`, the first occurrence of `p` in `a + p + b` is right after `a`. */
  lemma FirstOccurrenceAfter(a: string, p: string, b: string)
    requires |p| > 0 && forall i :: 0 <= i < |a| ==> a[i] != p[0]
    ensures IndexOf(a + p + b, p) == Some(|a|)
  {
    var s := a + p + b;
    assert s[|a|..|a| + |p|] == p;
    assert OccursAt(p, s, |a|);
    assert forall j :: 0 <= j < |a| ==> s[j] == a[j];
  }

  /** Likewise a string without the pattern's first character has no occurrence of it. */
  lemma NoOccurrence(a: string, p: string)
    requires |p| > 0 && forall i :: 0 <= i < |a| ==> a[i] != p[0]
    ensures IndexOf(a, p).None?
  {
  }

  /** A prefix free of the pattern's first character shifts the first occurrence by its length. */
  lemma IndexOfAfterPrefix(a: string, b: string, p: string)
    requires |p| > 0 && forall i :: 0 <= i < |a| ==> a[i] != p[0]
    ensures IndexOf(a + b, p) == (match IndexOf(b, p) case None => None case Some(j) => Some(|a| + j))
  {
    var s := a + b;
    forall j | 0 <= j < |a|
      ensures !OccursAt(p, s, j)
    {
      assert s[j] == a[j];
    }
    forall k: nat | |a| <= k
      ensures OccursAt(p, s, k) <==> OccursAt(p, b, k - |a|)
    {
      if k + |p| <= |s| {
        assert s[k..k + |p|] == b[k - |a|..k - |a| + |p|];
      }
    }
    if IndexOf(b, p).Some? {
      var j := IndexOf(b, p).value;
      assert OccursAt(p, s, |a| + j);
    }
  }

  /** `s.replace(p, v)` with a string pattern: only the first occurrence is replaced. */
  function ReplaceFirst(s: string, p: string, v: string): (r: string)
    ensures IndexOf(s, p).None? ==> r == s
    ensures IndexOf(s, p).Some? ==>
      var i := IndexOf(s, p).value;
      i + |p| <= |s| && r == s[..i] + v + s[i + |p|..]
  {
    match IndexOf(s, p)
    case None => s
    case Some(i) => s[..i] + v + s[i + |p|..]
  }

  /** `s.split(sep).pop()`: the text after the last `sep`, or all of `s` when there is none. */
  function LastSegment(s: string, sep: char): (r: string)
    ensures sep !in r
    ensures |r| <= |s| && r == s[|s| - |r|..]
    ensures |r| < |s| ==> s[|s| - |r| - 1] == sep
  {
    if |s| == 0 then ""
    else if s[|s| - 1] == sep then ""
    else
      var prefix := LastSegment(s[..|s| - 1], sep);
      assert s[..|s| - 1][|s| - 1 - |prefix|..] + [s[|s| - 1]] == s[|s| - 1 - |prefix|..];
      prefix + [s[|s| - 1]]
  }

  /** Lower-casing of the ASCII capitals. */
  function LowerChar(c: char): char {
    if 'A' <= c <= 'Z' then (c as int - 'A' as int + 'a' as int) as char else c
  }

  function Lower(s: string): (r: string)
    ensures |r| == |s| && forall i :: 0 <= i < |s| ==> r[i] == LowerChar(s[i])
  {
    seq(|s|, i requires 0 <= i < |s| => LowerChar(s[i]))
  }

  /** Upper-casing of the ASCII small letters. */
  function UpperChar(c: char): char {
    if 'a' <= c <= 'z' then (c as int - 'a' as int + 'A' as int) as char else c
  }

  function Upper(s: string): (r: string)
    ensures |r| == |s| && forall i :: 0 <= i < |s| ==> r[i] == UpperChar(s[i])
  {
    seq(|s|, i requires 0 <= i < |s| => UpperChar(s[i]))
  }

  /** JavaScript's WhiteSpace and LineTerminator code points, the ones `trim` removes. */
  predicate IsSpace(c: char) {
    c == ' ' || c == '\t' || c == '\n' || c == '\r' || c == '\U{B}' || c == '\U{C}'
    || c == '\U{A0}' || c == '\U{1680}' || ('\U{2000}' <= c <= '\U{200A}') || c == '\U{2028}'
    || c == '\U{2029}' || c == '\U{202F}' || c == '\U{205F}' || c == '\U{3000}' || c == '\U{FEFF}'
  }

  function TrimStart(s: string): (r: string)
    ensures |r| <= |s| && r == s[|s| - |r|..]
    ensures forall i :: 0 <= i < |s| - |r| ==> IsSpace(s[i])
    ensures r != [] ==> !IsSpace(r[0])
  {
    if s != [] && IsSpace(s[0]) then TrimStart(s[1..]) else s
  }

  function TrimEnd(s: string): (r: string)
    ensures |r| <= |s| && r == s[..|r|]
    ensures forall i :: |r| <= i < |s| ==> IsSpace(s[i])
    ensures r != [] ==> !IsSpace(r[|r| - 1])
  {
    if s != [] && IsSpace(s[|s| - 1]) then TrimEnd(s[..|s| - 1]) else s
  }

  /** `s.trim()` */
  function Trim(s: string): string {
    TrimEnd(TrimStart(s))
  }

  /** A string is empty after `trim()` exactly when it is made of spaces only. */
  lemma TrimEmptyIffBlank(s: string)
    ensures Trim(s) == [] <==> forall i :: 0 <= i < |s| ==> IsSpace(s[i])
  {
  }

  predicate IsDigit(c: char) {
    '0' <= c <= '9'
  }

  function DigitChar(d: nat): char
    requires d < 10
  {
    ('0' as int + d) as char
  }

  /** Decimal text of a natural number, as `String(n)` prints it. */
  function NatToString(n: nat): (r: string)
    ensures r != [] && forall i :: 0 <= i < |r| ==> IsDigit(r[i])
    ensures |r| > 1 ==> r[0] != '0'
  {
    if n < 10 then [DigitChar(n)] else NatToString(n / 10) + [DigitChar(n % 10)]
  }

  /** Value of a string of decimal digits. */
  function DigitsValue(s: string): nat
    requires forall i :: 0 <= i < |s| ==> IsDigit(s[i])
  {
    if s == [] then 0
    else
      assert IsDigit(s[|s| - 1]);
      10 * DigitsValue(s[..|s| - 1]) + (s[|s| - 1] as int - '0' as int)
  }

  /** `BigInt(s)` on a decimal string; anything else makes `BigInt` throw (`None`). */
  function ParseNat(s: string): (r: Option<nat>)
    ensures r.Some? <==> s != [] && forall i :: 0 <= i < |s| ==> IsDigit(s[i])
  {
    if s != [] && forall i :: 0 <= i < |s| ==> IsDigit(s[i]) then Some(DigitsValue(s)) else None
  }

  /** Printing a number and parsing the text gives the number back. */
  lemma {:induction false} ParsePrinted(n: nat)
    ensures ParseNat(NatToString(n)) == Some(n)
  {
    ValueOfPrinted(n);
  }

  lemma {:induction false} ValueOfPrinted(n: nat)
    ensures DigitsValue(NatToString(n)) == n
  {
    if n >= 10 {
      var s := NatToString(n);
      assert s[..|s| - 1] == NatToString(n / 10);
      ValueOfPrinted(n / 10);
    }
  }

  /** `parts.join(sep)` */
  function Join(parts: seq<string>, sep: string): (r: string)
    ensures |parts| == 1 ==> r == parts[0]
  {
    if parts == [] then ""
    else if |parts| == 1 then parts[0]
    else parts[0] + sep + Join(parts[1..], sep)
  }
}
