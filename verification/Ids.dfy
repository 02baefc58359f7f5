/** Counter ids: printed by the projection writers, parsed by the lookup routes. */
module Ids {
  import opened Wrappers
  import opened Json
  import opened Decimal

  const VERIFICATION_PREFIX := "va:verification"
  const ESCROW_PREFIX := "va:escrow"
  const FINANCING_PREFIX := "va:financing"

  /** A backend reference, kept as the kind and hex bytes it is rendered from. */
  datatype Reference = Reference(kind: string, hex: string)

  /** Zero-padded to at least twelve digits; longer counters print in full. */
  function Padded(n: nat): string {
    var s := Digits(n);
    if |s| < 12 then Zeros(12 - |s|) + s else s
  }

  function CounterId(prefix: string, counter: nat): string {
    prefix + ":" + Padded(counter)
  }

  function StripPrefix(input: string, prefix: string): Option<string> {
    if prefix <= input then Some(input[|prefix|..]) else None
  }

  function ParseCounterId(input: string, prefix: string): Option<int> {
    match StripPrefix(input, prefix + ":")
    case Some(bare) => ParseUnsigned(bare, U64_MAX)
    case None => None
  }

  lemma PaddedParses(n: nat)
    requires FitsU64(n)
    ensures ParseUnsigned(Padded(n), U64_MAX) == Some(n)
    ensures AllDigits(Padded(n))
  {
    ValueOfDigits(n);
    var s := Digits(n);
    if |s| < 12 {
      LeadingZeros(12 - |s|, s);
    }
    assert IsDigit(Padded(n)[0]);
  }

  /** Every u64 counter survives printing, however many digits it needs. */
  lemma ParseAfterPrint(prefix: string, n: nat)
    requires FitsU64(n)
    ensures ParseCounterId(CounterId(prefix, n), prefix) == Some(n)
  {
    PaddedParses(n);
    assert CounterId(prefix, n)[|prefix + ":"|..] == Padded(n);
  }

  /** Two counters of one kind never share a row id. */
  lemma CounterIdInjective(prefix: string, m: nat, n: nat)
    requires FitsU64(m) && FitsU64(n)
    ensures CounterId(prefix, m) == CounterId(prefix, n) <==> m == n
  {
    ParseAfterPrint(prefix, m);
    ParseAfterPrint(prefix, n);
  }

  /** The lookup routes' key for a path parameter; an error is a bad request. */
  function NormalizeId(prefix: string, input: string): Result<string, string> {
    match StripPrefix(input, prefix + ":")
    case Some(bare) =>
      if ParseUnsigned(bare, U64_MAX).Some? then Ok(input) else Err("invalid id")
    case None =>
      match ParseUnsigned(input, U64_MAX)
      case Some(counter) => Ok(CounterId(prefix, counter))
      case None => Err("invalid id")
  }

  /** The counter a path parameter speaks of, in either spelling. */
  function Denoted(prefix: string, input: string): Option<int> {
    match StripPrefix(input, prefix + ":")
    case Some(bare) => ParseUnsigned(bare, U64_MAX)
    case None => ParseUnsigned(input, U64_MAX)
  }

  lemma NormalizeIdempotent(prefix: string, input: string)
    requires NormalizeId(prefix, input).Ok?
    ensures
      var key := NormalizeId(prefix, input).value;
      NormalizeId(prefix, key) == Ok(key) && Denoted(prefix, key) == Denoted(prefix, input)
  {
    if StripPrefix(input, prefix + ":").None? {
      var n := ParseUnsigned(input, U64_MAX).value;
      ParseAfterPrint(prefix, n);
    }
  }

  lemma DigitsAreBare(prefix: string, s: string)
    requires AllDigits(s)
    ensures StripPrefix(s, prefix + ":").None?
  {
    assert (prefix + ":")[|prefix|] == ':';
    assert |prefix| < |s| ==> IsDigit(s[|prefix|]);
  }

  /** The bare decimal, the padded decimal and the printed form all reach the written key. */
  lemma NormalizeReachesKey(prefix: string, n: nat)
    requires FitsU64(n)
    ensures NormalizeId(prefix, Digits(n)) == Ok(CounterId(prefix, n))
    ensures NormalizeId(prefix, Padded(n)) == Ok(CounterId(prefix, n))
    ensures NormalizeId(prefix, CounterId(prefix, n)) == Ok(CounterId(prefix, n))
  {
    ValueOfDigits(n);
    PaddedParses(n);
    DigitsAreBare(prefix, Digits(n));
    DigitsAreBare(prefix, Padded(n));
    assert IsDigit(Digits(n)[0]);
    ParseAfterPrint(prefix, n);
  }

  /** What is left of a path parameter without the prefix, if it has one. */
  function Tail(prefix: string, input: string): string {
    StripPrefix(input, prefix + ":").OrElse(Some(input)).value
  }

  /** A decimal of `n`, behind any number of zeros and perhaps a plus sign. */
  ghost predicate Names(tail: string, n: nat) {
    exists z: nat :: tail == Zeros(z) + Digits(n) || tail == ['+'] + (Zeros(z) + Digits(n))
  }

  lemma NamesParses(tail: string, n: nat)
    requires FitsU64(n) && Names(tail, n)
    ensures ParseUnsigned(tail, U64_MAX) == Some(n)
  {
    var z: nat :| tail == Zeros(z) + Digits(n) || tail == ['+'] + (Zeros(z) + Digits(n));
    LeadingZeros(z, Digits(n));
    ValueOfDigits(n);
    PlusParses(Zeros(z) + Digits(n), U64_MAX);
  }

  lemma ParsesNames(tail: string)
    requires ParseUnsigned(tail, U64_MAX).Some?
    ensures FitsU64(ParseUnsigned(tail, U64_MAX).value) && Names(tail, ParseUnsigned(tail, U64_MAX).value)
  {
    var body := if tail != [] && tail[0] == '+' then tail[1..] else tail;
    var z := Spelled(body);
    assert body == Zeros(z) + Digits(Value(body));
    assert tail != body ==> tail == ['+'] + body;
  }

  /** A lookup accepts exactly the decimals of 64-bit counters, prefixed or bare, however padded. */
  lemma NormalizeAccepts(prefix: string, input: string)
    ensures NormalizeId(prefix, input).Ok? <==> exists n: nat :: FitsU64(n) && Names(Tail(prefix, input), n)
  {
    var tail := Tail(prefix, input);
    if ParseUnsigned(tail, U64_MAX).Some? {
      ParsesNames(tail);
    }
    if n: nat :| FitsU64(n) && Names(tail, n) {
      NamesParses(tail, n);
    }
  }

  /** No sign, and twelve digits, or more of them with the first not a zero. */
  predicate PrintedShape(tail: string) {
    tail != [] && tail[0] != '+' && (|tail| == 12 || (|tail| > 12 && tail[0] != '0'))
  }

  lemma PaddedShape(s: string)
    requires AllDigits(s) && s != []
    ensures s == Padded(Value(s)) <==> PrintedShape(s)
  {
    var digits := Digits(Value(s));
    var z := Spelled(s);
    assert s == Zeros(z) + digits && IsDigit(s[0]);
    if |digits| >= 12 {
      assert Value(s) > 0;
      NoLeadingZero(Value(s));
    }
  }

  /**
   An accepted parameter reaches the row of its counter exactly when it is bare or spelled as printed;
   other prefixed spellings pass through unchanged and find nothing.
   */
  lemma NormalizeExact(prefix: string, input: string, n: nat)
    requires FitsU64(n) && Names(Tail(prefix, input), n)
    ensures
      NormalizeId(prefix, input) == Ok(CounterId(prefix, n)) <==>
        StripPrefix(input, prefix + ":").None? || PrintedShape(Tail(prefix, input))
  {
    var tail := Tail(prefix, input);
    NamesParses(tail, n);
    if StripPrefix(input, prefix + ":").Some? {
      assert input == prefix + ":" + tail;
      assert CounterId(prefix, n)[|prefix + ":"|..] == Padded(n);
      PaddedParses(n);
      if tail[0] == '+' {
        assert IsDigit(Padded(n)[0]);
      } else {
        PaddedShape(tail);
      }
    }
  }

  /** `va:escrow:11` is accepted but is not the key of counter 11. */
  lemma UnpaddedMisses()
    ensures Denoted(ESCROW_PREFIX, "va:escrow:11") == Some(11)
    ensures NormalizeId(ESCROW_PREFIX, "va:escrow:11") == Ok("va:escrow:11")
    ensures CounterId(ESCROW_PREFIX, 11) != "va:escrow:11"
  {
    var input := "va:escrow:11";
    assert input[|ESCROW_PREFIX + ":"|..] == "11";
    assert "11"[..1] == "1" && "1"[..0] == "";
    assert Value("1") == 1 && Value("11") == 11;
    assert |CounterId(ESCROW_PREFIX, 11)| >= 12 + |ESCROW_PREFIX|;
  }

  /** The ids as the lookup routes and the documents spell them. */
  lemma KnownIds()
    ensures CounterId(VERIFICATION_PREFIX, 42) == "va:verification:000000000042"
    ensures CounterId(ESCROW_PREFIX, 11) == "va:escrow:000000000011"
    ensures CounterId(FINANCING_PREFIX, 7) == "va:financing:000000000007"
  {
    assert Digits(42) == "42" && Digits(11) == "11" && Digits(7) == "7";
    assert Zeros(10) == "0000000000" && Zeros(11) == "00000000000";
  }
}
