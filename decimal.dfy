/**
 * The numeral base the serializers use by default, BASE10: signed decimal text
 * for 32- and 64-bit integers, and the Java standard `Long.toString` /
 * `Long.parseLong` pair used by the long-keyed map codecs.
 *
 * Reading is total here: text that is not a decimal numeral within the target
 * width reads as `None`.
 */
module Decimal {
  import opened Wrappers

  newtype i64 = x: int | -0x8000_0000_0000_0000 <= x < 0x8000_0000_0000_0000
  newtype i32 = x: int | -0x8000_0000 <= x < 0x8000_0000

  predicate IsDigit(c: char) {
    '0' <= c <= '9'
  }

  predicate AllDigits(s: string) {
    forall i :: 0 <= i < |s| ==> IsDigit(s[i])
  }

  function DigitChar(d: int): (c: char)
    requires 0 <= d < 10
    ensures IsDigit(c) && c as int - '0' as int == d
  {
    (d + '0' as int) as char
  }

  /** The decimal digits of `n`, most significant first, without leading zeros. */
  function Digits(n: nat): (s: string)
    ensures 0 < |s| && AllDigits(s)
    ensures s[0] == '0' ==> n == 0
    decreases n
  {
    if n < 10 then [DigitChar(n)] else Digits(n / 10) + [DigitChar(n % 10)]
  }

  /** The value of a string of decimal digits. */
  function Value(s: string): nat
    requires AllDigits(s)
    decreases |s|
  {
    if s == [] then 0
    else Value(s[..|s| - 1]) * 10 + (s[|s| - 1] as int - '0' as int)
  }

  /** `signed(v)` of BASE10: a '-' before the digits of a negative value. */
  function Signed(v: int): (s: string)
    ensures 0 < |s| && (s[0] == '-' <==> v < 0)
    ensures forall i :: 0 <= i < |s| && (i > 0 || v >= 0) ==> IsDigit(s[i])
  {
    if v < 0 then "-" + Digits(-v) else Digits(v)
  }

  /** A signed decimal numeral: an optional '-' and at least one digit. */
  function ParseSigned(s: string): Option<int> {
    if 0 < |s| && s[0] == '-' then
      if 1 < |s| && AllDigits(s[1..]) then Some(0 - Value(s[1..]) as int) else None
    else if 0 < |s| && AllDigits(s) then Some(Value(s))
    else None
  }

  predicate FitsLong(v: int) {
    -0x8000_0000_0000_0000 <= v < 0x8000_0000_0000_0000
  }

  predicate FitsInt(v: int) {
    -0x8000_0000 <= v < 0x8000_0000
  }

  /** `readLong(s, start, end)`: the numeral in `s[start..end)`, when it is one that fits in a long. */
  function ReadLong(s: string, start: int, end: int): (r: Option<i64>)
    ensures r.Some? ==> 0 <= start <= end <= |s| && ParseSigned(s[start..end]) == Some(r.value as int)
    ensures r.None? <==>
              !(0 <= start <= end <= |s|) || ParseSigned(s[start..end]).None? || !FitsLong(ParseSigned(s[start..end]).value)
  {
    if 0 <= start <= end <= |s| then
      match ParseSigned(s[start..end])
      case Some(v) => if -0x8000_0000_0000_0000 <= v < 0x8000_0000_0000_0000 then Some(v as i64) else None
      case None => None
    else None
  }

  /** `readInt(s)`: the whole of `s` as a numeral that fits in an int. */
  function ReadInt(s: string): (r: Option<i32>)
    ensures r.Some? ==> ParseSigned(s) == Some(r.value as int)
    ensures r.None? <==> ParseSigned(s).None? || !FitsInt(ParseSigned(s).value)
  {
    match ParseSigned(s)
    case Some(v) => if -0x8000_0000 <= v < 0x8000_0000 then Some(v as i32) else None
    case None => None
  }

  /** `Long.parseLong(s)`: like `ParseSigned`, but a leading '+' is accepted too. */
  function ParseLong(s: string): (r: Option<i64>)
    ensures r.Some? && 0 < |s| && s[0] == '+' ==> 1 < |s| && AllDigits(s[1..]) && Value(s[1..]) == r.value as int
    ensures r.Some? && !(0 < |s| && s[0] == '+') ==> ParseSigned(s) == Some(r.value as int)
    ensures ParseSigned(s).Some? && FitsLong(ParseSigned(s).value) ==> r == Some(ParseSigned(s).value as i64)
    ensures 1 < |s| && s[0] == '+' && AllDigits(s[1..]) && FitsLong(Value(s[1..])) ==> r == Some(Value(s[1..]) as i64)
  {
    var v := if 0 < |s| && s[0] == '+' then (if 1 < |s| && AllDigits(s[1..]) then Some(Value(s[1..])) else None)
             else ParseSigned(s);
    match v
    case Some(x) => if -0x8000_0000_0000_0000 <= x < 0x8000_0000_0000_0000 then Some(x as i64) else None
    case None => None
  }

  /** `s.indexOf(c, from)`: the first index at or after `from` holding `c`, or -1. */
  function IndexOf(s: string, c: char, from: int): (r: int)
    ensures -1 <= r < |s|
    ensures r >= 0 ==> r >= from && s[r] == c && forall j :: from <= j < r && 0 <= j ==> s[j] != c
    ensures r < 0 ==> forall j :: from <= j < |s| && 0 <= j ==> s[j] != c
    decreases |s| - from
  {
    if from < 0 then IndexOf(s, c, 0)
    else if from >= |s| then -1
    else if s[from] == c then from
    else IndexOf(s, c, from + 1)
  }

  // ---------------------------------------------------------------------------
  // Lemmas

  /** Reading the digits of `n` gives back `n`. */
  lemma {:induction false} ValueOfDigits(n: nat)
    ensures Value(Digits(n)) == n
    decreases n
  {
    if n >= 10 {
      ValueOfDigits(n / 10);
      var s := Digits(n / 10) + [DigitChar(n % 10)];
      assert s[..|s| - 1] == Digits(n / 10);
    }
  }

  /** `Signed` writes only digits and a leading '-'. */
  lemma SignedAlphabet(v: int)
    ensures 0 < |Signed(v)|
    ensures forall i :: 0 <= i < |Signed(v)| ==> IsDigit(Signed(v)[i]) || (i == 0 && Signed(v)[i] == '-')
  {
  }

  /** BASE10 round trip: parsing the signed form of `v` gives `v`. */
  lemma ParseSignedOfSigned(v: int)
    ensures ParseSigned(Signed(v)) == Some(v)
  {
    if v < 0 {
      ValueOfDigits(-v);
      assert Signed(v)[1..] == Digits(-v);
    } else {
      ValueOfDigits(v);
    }
  }

  /** `readLong` recovers every long from its signed form, wherever the form sits in a string. */
  lemma ReadLongOfSigned(v: i64, pre: string, post: string)
    ensures ReadLong(pre + Signed(v as int) + post, |pre|, |pre| + |Signed(v as int)|) == Some(v)
  {
    var s := pre + Signed(v as int) + post;
    assert s[|pre|..|pre| + |Signed(v as int)|] == Signed(v as int);
    ParseSignedOfSigned(v as int);
  }

  /** `readInt` recovers every int from its signed form. */
  lemma ReadIntOfSigned(v: i32)
    ensures ReadInt(Signed(v as int)) == Some(v)
  {
    ParseSignedOfSigned(v as int);
  }

  /** `Long.parseLong` recovers every long from `Long.toString`, which is the signed form. */
  lemma ParseLongOfSigned(v: i64)
    ensures ParseLong(Signed(v as int)) == Some(v)
  {
    ParseSignedOfSigned(v as int);
    SignedAlphabet(v as int);
    assert Signed(v as int)[0] != '+';
  }

  /** Different values have different signed forms. */
  lemma SignedInjective(a: int, b: int)
    requires Signed(a) == Signed(b)
    ensures a == b
  {
    ParseSignedOfSigned(a);
    ParseSignedOfSigned(b);
  }
}
