/** Decimal printing and parsing of whole numbers. */
module Decimal {
  import opened Wrappers

  function DigitChar(d: int): char
    requires 0 <= d < 10
  {
    ('0' as int + d) as char
  }

  predicate IsDigit(c: char) { '0' <= c <= '9' }

  predicate AllDigits(s: string) { forall i :: 0 <= i < |s| ==> IsDigit(s[i]) }

  function Digits(n: nat): (s: string)
    ensures s != [] && AllDigits(s)
  {
    if n < 10 then [DigitChar(n)] else Digits(n / 10) + [DigitChar(n % 10)]
  }

  function Value(s: string): nat
    requires AllDigits(s)
  {
    if s == [] then 0 else 10 * Value(s[..|s| - 1]) + (s[|s| - 1] as int - '0' as int)
  }

  lemma {:induction false} ValueOfDigits(n: nat)
    ensures Value(Digits(n)) == n
  {
    if n >= 10 {
      ValueOfDigits(n / 10);
      assert Digits(n)[..|Digits(n)| - 1] == Digits(n / 10);
    }
  }

  function Zeros(k: nat): (s: string)
    ensures |s| == k && AllDigits(s)
  {
    seq(k, _ => '0')
  }

  lemma {:induction false} LeadingZeros(k: nat, s: string)
    requires AllDigits(s)
    ensures Value(Zeros(k) + s) == Value(s)
  {
    if s == [] {
      if k > 0 {
        LeadingZeros(k - 1, []);
        assert (Zeros(k) + s)[..k - 1] == Zeros(k - 1) + s;
      }
    } else {
      assert (Zeros(k) + s)[..k + |s| - 1] == Zeros(k) + s[..|s| - 1];
      LeadingZeros(k, s[..|s| - 1]);
    }
  }

  lemma {:induction false} NoLeadingZero(n: nat)
    requires n > 0
    ensures Digits(n)[0] != '0'
  {
    if n >= 10 {
      NoLeadingZero(n / 10);
    }
  }

  lemma DigitsNext(v: nat, d: int)
    requires v > 0 && 0 <= d < 10
    ensures Digits(10 * v + d) == Digits(v) + [DigitChar(d)]
  {
  }

  lemma ZeroNext(z: nat, d: int)
    requires 0 <= d < 10
    ensures Zeros(z) + Digits(0) + [DigitChar(d)] == Zeros(z + 1) + Digits(d)
  {
    assert DigitChar(0) == '0' && Digits(0) == ['0'] && Digits(d) == [DigitChar(d)];
  }

  ghost predicate SpelledWith(s: string, z: nat, n: nat) {
    s == Zeros(z) + Digits(n)
  }

  /** Every digit string is a printed number behind some zeros. */
  lemma {:induction false} Spelled(s: string) returns (z: nat)
    requires AllDigits(s) && s != []
    ensures SpelledWith(s, z, Value(s))
  {
    var front, d := s[..|s| - 1], s[|s| - 1] as int - '0' as int;
    assert DigitChar(d) == s[|s| - 1];
    if front == [] {
      z := 0;
    } else {
      var y := Spelled(front);
      z := NextSpelled(front, y, Value(front), d);
      assert s == front + [DigitChar(d)];
    }
  }

  lemma NextSpelled(front: string, y: nat, v: nat, d: int) returns (z: nat)
    requires SpelledWith(front, y, v) && 0 <= d < 10
    ensures SpelledWith(front + [DigitChar(d)], z, 10 * v + d)
  {
    if v == 0 {
      z := y + 1;
      ZeroNext(y, d);
    } else {
      z := y;
      DigitsNext(v, d);
      assert Zeros(y) + Digits(v) + [DigitChar(d)] == Zeros(y) + (Digits(v) + [DigitChar(d)]);
    }
  }

  /** The standard parser of unsigned numbers: an optional plus sign, digits, no overflow. */
  function ParseUnsigned(s: string, max: int): Option<int> {
    var body := if s != [] && s[0] == '+' then s[1..] else s;
    if body != [] && AllDigits(body) && Value(body) <= max then Some(Value(body)) else None
  }

  lemma PlusParses(body: string, max: int)
    requires AllDigits(body) && body != []
    ensures ParseUnsigned(['+'] + body, max) == ParseUnsigned(body, max)
    ensures ParseUnsigned(body, max) == if Value(body) <= max then Some(Value(body)) else None
  {
    assert (['+'] + body)[1..] == body;
    assert IsDigit(body[0]);
  }

  function PrintInt(v: int): string {
    if v < 0 then ['-'] + Digits(-v) else Digits(v)
  }

  function ParseInt(s: string): Option<int> {
    if s != [] && s[0] == '-' then
      if s[1..] != [] && AllDigits(s[1..]) then Some(0 - Value(s[1..])) else None
    else if s != [] && AllDigits(s) then Some(Value(s)) else None
  }

  lemma PrintParse(v: int)
    ensures ParseInt(PrintInt(v)) == Some(v)
  {
    if v < 0 {
      ValueOfDigits(-v);
      assert PrintInt(v)[1..] == Digits(-v);
    } else {
      ValueOfDigits(v);
      assert IsDigit(Digits(v)[0]);
    }
  }
}
