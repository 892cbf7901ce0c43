/** Character and string helpers: ASCII case mapping, decimal rendering of
    integers (`String(n)`, `n.toString()`, f-strings) and its inverse,
    `String.prototype.replace` with a plain-string pattern, and `Array.join`. */
module Strings {

  import opened Json

  predicate IsDigit(c: char) { '0' <= c <= '9' }

  predicate IsLowerAlnum(c: char) { 'a' <= c <= 'z' || IsDigit(c) }

  predicate AllDigits(s: string) {
    forall i :: 0 <= i < |s| ==> IsDigit(s[i])
  }

  /** `toLowerCase` on one character; only ASCII letters are mapped. */
  function LowerChar(c: char): (r: char)
    ensures 'A' <= c <= 'Z' ==> 'a' <= r <= 'z'
    ensures !('A' <= c <= 'Z') ==> r == c
  {
    if 'A' <= c <= 'Z' then (c as int + 32) as char else c
  }

  /** `toUpperCase` on one character; only ASCII letters are mapped. */
  function UpperChar(c: char): (r: char)
    ensures 'a' <= c <= 'z' ==> 'A' <= r <= 'Z'
    ensures !('a' <= c <= 'z') ==> r == c
  {
    if 'a' <= c <= 'z' then (c as int - 32) as char else c
  }

  /** `s.toUpperCase()` over ASCII. */
  function Upper(s: string): (r: string)
    ensures |r| == |s|
    ensures forall i :: 0 <= i < |s| ==> r[i] == UpperChar(s[i])
  {
    if s == [] then [] else [UpperChar(s[0])] + Upper(s[1..])
  }

  /** Upper-casing works character by character, so it distributes over concatenation. */
  lemma UpperAppend(x: string, y: string)
    ensures Upper(x + y) == Upper(x) + Upper(y)
  {
    var l := Upper(x + y);
    var r := Upper(x) + Upper(y);
    forall i | 0 <= i < |l|
      ensures l[i] == r[i]
    {
      if i < |x| {
        assert (x + y)[i] == x[i];
      } else {
        assert (x + y)[i] == y[i - |x|];
      }
    }
  }

  /** `s.toLowerCase()` / `s.lower()` over ASCII. */
  function Lower(s: string): (r: string)
    ensures |r| == |s|
    ensures forall i :: 0 <= i < |s| ==> r[i] == LowerChar(s[i])
  {
    if s == [] then [] else [LowerChar(s[0])] + Lower(s[1..])
  }

  function DigitChar(d: nat): (c: char)
    requires d < 10
    ensures IsDigit(c)
  {
    ('0' as int + d) as char
  }

  function DigitValue(c: char): (d: nat)
    requires IsDigit(c)
    ensures d < 10
  {
    c as int - '0' as int
  }

  /** Decimal rendering of a natural number, without leading zeros. */
  function NatToString(n: nat): (s: string)
    ensures |s| > 0
    ensures AllDigits(s)
  {
    if n < 10 then [DigitChar(n)] else NatToString(n / 10) + [DigitChar(n % 10)]
  }

  /** Reads a non-empty string of decimal digits. */
  function ParseNat(s: string): nat
    requires |s| > 0 && AllDigits(s)
  {
    if |s| == 1 then DigitValue(s[0])
    else ParseNat(s[..|s| - 1]) * 10 + DigitValue(s[|s| - 1])
  }

  /** `String(i)` for an integer: a minus sign, then the digits of the magnitude. */
  function IntToString(i: int): (s: string)
    ensures |s| > 0
  {
    if i < 0 then "-" + NatToString(-i) else NatToString(i)
  }

  /** Reads what `IntToString` writes; anything else is rejected. */
  function ParseInt(s: string): Option<int> {
    if |s| > 0 && AllDigits(s) then Some(ParseNat(s))
    else if |s| > 1 && s[0] == '-' && AllDigits(s[1..]) then Some(0 - ParseNat(s[1..]))
    else None
  }

  lemma {:induction false} NatToStringRoundTrip(n: nat)
    ensures ParseNat(NatToString(n)) == n
  {
    if n >= 10 {
      var s := NatToString(n);
      assert s[..|s| - 1] == NatToString(n / 10);
      NatToStringRoundTrip(n / 10);
    }
  }

  /** Round trip: the decimal text of any integer reads back as that integer. */
  lemma IntToStringRoundTrip(i: int)
    ensures ParseInt(IntToString(i)) == Some(i)
  {
    if i < 0 {
      var s := IntToString(i);
      NatToStringRoundTrip(-i);
      assert s[1..] == NatToString(-i);
      assert !AllDigits(s) by { assert !IsDigit(s[0]); }
    } else {
      NatToStringRoundTrip(i);
    }
  }

  lemma NatToStringInjective(a: nat, b: nat)
    requires NatToString(a) == NatToString(b)
    ensures a == b
  {
    NatToStringRoundTrip(a);
    NatToStringRoundTrip(b);
  }

  /** In a digit string followed by a non-digit separator, the separator is the
      first occurrence of that character. */
  lemma SeparatorIsFirst(a: string, b: string, sep: char)
    requires AllDigits(a) && !IsDigit(sep)
    ensures FirstIndex(a + [sep] + b, sep) == Some(|a|)
  {
    var l := a + [sep] + b;
    assert l[|a|] == sep;
    assert forall j :: 0 <= j < |a| ==> l[j] == a[j];
  }

  /** A separator character that is not a digit splits two digit strings uniquely. */
  lemma SplitAtSeparator(a: string, b: string, c: string, d: string, sep: char)
    requires AllDigits(a) && AllDigits(c) && !IsDigit(sep)
    requires a + [sep] + b == c + [sep] + d
    ensures a == c && b == d
  {
    var l := a + [sep] + b;
    SeparatorIsFirst(a, b, sep);
    SeparatorIsFirst(c, d, sep);
    assert a == l[..|a|] == c;
    assert b == l[|a| + 1..] == d;
  }

  /** Index of the first occurrence of `c` in `s`, if any. */
  function FirstIndex(s: string, c: char): (r: Option<nat>)
    ensures r.Some? ==> r.value < |s| && s[r.value] == c
    ensures r.Some? ==> forall j :: 0 <= j < r.value ==> s[j] != c
    ensures r.None? ==> forall j :: 0 <= j < |s| ==> s[j] != c
  {
    if s == [] then None
    else if s[0] == c then Some(0)
    else match FirstIndex(s[1..], c)
      case None => None
      case Some(k) => Some(k + 1)
  }

  /** `s.replace(from, to)` with a one-character string pattern: only the first
      occurrence is replaced. */
  function ReplaceFirst(s: string, from: char, to: char): (r: string)
    ensures |r| == |s|
    ensures FirstIndex(s, from).None? ==> r == s
    ensures FirstIndex(s, from).Some? ==>
      var k := FirstIndex(s, from).value;
      r[k] == to && forall j :: 0 <= j < |s| && j != k ==> r[j] == s[j]
  {
    match FirstIndex(s, from)
    case None => s
    case Some(k) => s[k := to]
  }

  /** `s.replace('_', ' ')`: the first underscore becomes a space and every
      other character is kept. */
  function SpaceFirstUnderscore(s: string): (r: string)
    ensures |r| == |s|
    ensures FirstIndex(s, '_').None? ==> r == s
    ensures FirstIndex(s, '_').Some? ==>
      var p := FirstIndex(s, '_').value;
      r[p] == ' ' && forall i :: 0 <= i < |s| && i != p ==> r[i] == s[i]
  {
    ReplaceFirst(s, '_', ' ')
  }

  /** A text with an underscore reads as the part before it, a space, and the
      rest; later underscores stay. */
  lemma SpaceFirstUnderscoreSplits(a: string, b: string)
    requires '_' !in a
    ensures SpaceFirstUnderscore(a + "_" + b) == a + " " + b
  {
    var s := a + "_" + b;
    assert s[|a|] == '_';
    assert forall j :: 0 <= j < |a| ==> s[j] == a[j];
    assert FirstIndex(s, '_') == Some(|a|);
    var l := SpaceFirstUnderscore(s);
    forall i | 0 <= i < |l| ensures l[i] == (a + " " + b)[i] {
      if i < |a| { assert l[i] == s[i]; }
      else if i > |a| { assert l[i] == s[i]; }
    }
  }

  /** A three-part text: each part can be read back at its offset. */
  function Concat3(head: string, mid: string, tail: string): (r: string)
    ensures |r| == |head| + |mid| + |tail|
    ensures r[..|head|] == head
    ensures r[|head|..|head| + |mid|] == mid
    ensures r[|head| + |mid|..] == tail
  {
    head + mid + tail
  }

  /** `xs.join(sep)`. */
  function Join(xs: seq<string>, sep: string): string {
    if xs == [] then ""
    else if |xs| == 1 then xs[0]
    else xs[0] + sep + Join(xs[1..], sep)
  }

  /** `String(v)`, as a template literal or `join` renders a value; inside an
      array a `null` renders as the empty string. */
  function Text(v: Value): (r: string)
    ensures v.Str? ==> r == v.s
    ensures v.Num? ==> ParseInt(r) == Some(v.n)
    decreases v
  {
    match v
    case Null => "null"
    case Bool(b) => if b then "true" else "false"
    case Num(n) => IntToStringRoundTrip(n); IntToString(n)
    case Str(s) => s
    case Arr(items) => Join(seq(|items|, i requires 0 <= i < |items| => if items[i].Null? then "" else Text(items[i])), ",")
    case Obj(_) => "[object Object]"
  }

  /** `${o[k]}`: a missing field renders as "undefined". */
  function FieldText(o: Object, k: string): (r: string)
    ensures k in o ==> r == Text(o[k])
    ensures k !in o ==> r == "undefined"
  {
    if k in o then Text(o[k]) else "undefined"
  }
}
