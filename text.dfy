/** The pieces of Python's text handling the client relies on: `str()` of an
    integer (decimal digits with an optional minus sign), `sep.join(parts)` and
    `s.split(c)` for a one-character separator. `split` does not occur in the
    client: it is the reference against which `join` is proved invertible. */
module Text {

  predicate IsDigit(c: char) {
    '0' <= c <= '9'
  }

  predicate AllDigits(s: string) {
    forall i :: 0 <= i < |s| ==> IsDigit(s[i])
  }

  /** What Python's `str()` produces for an `int`: digits, optionally after one `-`. */
  predicate IsIntLiteral(s: string) {
    || (|s| > 0 && AllDigits(s))
    || (|s| > 1 && s[0] == '-' && AllDigits(s[1..]))
  }

  function DigitValue(c: char): (d: nat)
    requires IsDigit(c)
    ensures d < 10
  {
    c as int - '0' as int
  }

  function DigitChar(d: nat): (c: char)
    requires d < 10
    ensures IsDigit(c) && DigitValue(c) == d
  {
    ('0' as int + d) as char
  }

  /** `str(n)` for a non-negative int: most significant digit first, no leading zero. */
  function NatToDecimal(n: nat): (s: string)
    ensures |s| > 0 && AllDigits(s)
    ensures s[0] == '0' <==> n == 0
    ensures n == 0 ==> s == "0"
    decreases n
  {
    if n < 10 then [DigitChar(n)] else NatToDecimal(n / 10) + [DigitChar(n % 10)]
  }

  /** `str(i)` for any int. */
  function IntToDecimal(i: int): (s: string)
    ensures IsIntLiteral(s)
    ensures s[0] == '-' <==> i < 0
  {
    if i < 0 then "-" + NatToDecimal(-i) else NatToDecimal(i)
  }

  /** The number a string of decimal digits denotes (the parsing partner of NatToDecimal). */
  function DecimalValue(s: string): nat
    requires AllDigits(s)
  {
    if s == [] then 0 else DecimalValue(s[..|s| - 1]) * 10 + DigitValue(s[|s| - 1])
  }

  /** `int(s)` for a string of the IsIntLiteral shape. */
  function IntValue(s: string): int
    requires IsIntLiteral(s)
  {
    if s[0] == '-' then -(DecimalValue(s[1..]) as int) else DecimalValue(s)
  }

  lemma {:induction false} NatDecimalRoundTrip(n: nat)
    ensures DecimalValue(NatToDecimal(n)) == n
    decreases n
  {
    var s := NatToDecimal(n);
    if n < 10 {
      assert s[..|s| - 1] == [];
    } else {
      var p := NatToDecimal(n / 10);
      assert s[..|s| - 1] == p;
      NatDecimalRoundTrip(n / 10);
    }
  }

  /** Reading back the digits of `str(i)` gives `i`. */
  lemma IntDecimalRoundTrip(i: int)
    ensures IntValue(IntToDecimal(i)) == i
  {
    var s := IntToDecimal(i);
    if i < 0 {
      assert s[1..] == NatToDecimal(-i);
      NatDecimalRoundTrip(-i);
    } else {
      NatDecimalRoundTrip(i);
    }
  }

  /** `str(i)` is made of digits and a minus sign only. */
  lemma IntToDecimalChars(i: int)
    ensures var s := IntToDecimal(i); forall k :: 0 <= k < |s| ==> IsDigit(s[k]) || s[k] == '-'
  {
    var s := IntToDecimal(i);
    forall k | 0 <= k < |s| ensures IsDigit(s[k]) || s[k] == '-' {
      if i < 0 && k > 0 {
        assert s[k] == NatToDecimal(-i)[k - 1];
      }
    }
  }

  /** Distinct integers print differently. */
  lemma IntToDecimalInjective(a: int, b: int)
    ensures IntToDecimal(a) == IntToDecimal(b) ==> a == b
  {
    IntDecimalRoundTrip(a);
    IntDecimalRoundTrip(b);
  }

  /** In an integer literal followed by a non-digit, every character after the
      first one is a digit up to the end of the literal, and the next one is not. */
  lemma LiteralThenNonDigit(a: string, x: string)
    requires IsIntLiteral(a)
    requires |x| > 0 && !IsDigit(x[0])
    ensures forall k :: 1 <= k < |a| ==> IsDigit((a + x)[k])
    ensures !IsDigit((a + x)[|a|])
  {
    forall k | 1 <= k < |a| ensures IsDigit((a + x)[k]) {
      if !AllDigits(a) { assert a[k] == a[1..][k - 1]; }
    }
  }

  /** An integer literal followed by a non-digit can be read off unambiguously:
      the literal ends at the first non-digit after its first character. */
  lemma IntLiteralPrefixUnique(a: string, x: string, b: string, y: string)
    requires IsIntLiteral(a) && IsIntLiteral(b)
    requires |x| > 0 && !IsDigit(x[0])
    requires |y| > 0 && !IsDigit(y[0])
    requires a + x == b + y
    ensures a == b
  {
    LiteralThenNonDigit(a, x);
    LiteralThenNonDigit(b, y);
    assert |a| == |b|;
    assert a == (a + x)[..|a|] == b;
  }

  /** The total length of some strings. */
  function TotalLength(parts: seq<string>): nat
    decreases |parts|
  {
    if |parts| == 0 then 0 else |parts[0]| + TotalLength(parts[1..])
  }

  /** `sep.join(parts)`: the parts in order, with one separator between neighbours. */
  function Join(sep: string, parts: seq<string>): (r: string)
    ensures |parts| == 0 ==> r == ""
    ensures |parts| > 0 ==> parts[0] <= r && |r| == TotalLength(parts) + |sep| * (|parts| - 1)
    decreases |parts|
  {
    if |parts| == 0 then ""
    else if |parts| == 1 then parts[0]
    else parts[0] + sep + Join(sep, parts[1..])
  }

  /** `s.split(c)` for a one-character separator: never an empty list. */
  function Split(s: string, c: char): (parts: seq<string>)
    ensures |parts| > 0
    decreases |s|
  {
    if s == [] then [""]
    else if s[0] == c then [""] + Split(s[1..], c)
    else
      var rest := Split(s[1..], c);
      [[s[0]] + rest[0]] + rest[1..]
  }

  lemma {:induction false} SplitWithoutSeparator(a: string, c: char)
    requires c !in a
    ensures Split(a, c) == [a]
    decreases |a|
  {
    if a != [] {
      SplitWithoutSeparator(a[1..], c);
      assert [a[0]] + a[1..] == a;
    }
  }

  lemma {:induction false} SplitAtFirstSeparator(a: string, c: char, b: string)
    requires c !in a
    ensures Split(a + [c] + b, c) == [a] + Split(b, c)
    decreases |a|
  {
    var s := a + [c] + b;
    if a == [] {
      assert s[1..] == b;
    } else {
      assert s[1..] == a[1..] + [c] + b;
      SplitAtFirstSeparator(a[1..], c, b);
      assert [a[0]] + a[1..] == a;
    }
  }

  /** Joining with `c` and splitting on `c` gives back the parts, provided
      there is at least one part and none of them contains `c`. */
  lemma {:induction false} SplitJoin(parts: seq<string>, c: char)
    requires |parts| > 0
    requires forall k :: 0 <= k < |parts| ==> c !in parts[k]
    ensures Split(Join([c], parts), c) == parts
    decreases |parts|
  {
    if |parts| == 1 {
      SplitWithoutSeparator(parts[0], c);
    } else {
      SplitJoin(parts[1..], c);
      SplitAtFirstSeparator(parts[0], c, Join([c], parts[1..]));
      assert [parts[0]] + parts[1..] == parts;
    }
  }

  /** The joined text begins with the first part and ends with the last one,
      so no separator is added before the first part or after the last. */
  lemma {:induction false} JoinEnds(sep: string, parts: seq<string>)
    requires |parts| > 0
    ensures var j := Join(sep, parts); var last := parts[|parts| - 1];
      && parts[0] <= j
      && |last| <= |j| && j[|j| - |last|..] == last
    decreases |parts|
  {
    if |parts| > 1 {
      JoinEnds(sep, parts[1..]);
      var j := Join(sep, parts);
      var tail := Join(sep, parts[1..]);
      var last := parts[|parts| - 1];
      assert j == parts[0] + sep + tail;
      assert j[|j| - |last|..] == tail[|tail| - |last|..];
    }
  }
}
