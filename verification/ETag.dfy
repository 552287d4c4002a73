/** Decimal text and the generation ETag (`internal/api/precondition.go`). */
module ETag {
  import opened Results

  const MAX_INT64: int := 0x7fff_ffff_ffff_ffff

  function Digit(d: int): char
    requires 0 <= d < 10
  {
    ('0' as int + d) as char
  }

  predicate IsDigit(c: char) {
    '0' <= c <= '9'
  }

  /** `%d` of a non-negative integer. */
  function Decimal(n: nat): string {
    if n < 10 then [Digit(n)] else Decimal(n / 10) + [Digit(n % 10)]
  }

  /** `%d`. */
  function FormatInt(n: int): string {
    if n < 0 then "-" + Decimal(-n) else Decimal(n)
  }

  ghost predicate AllDigits(s: string) {
    forall i :: 0 <= i < |s| ==> IsDigit(s[i])
  }

  /** The value of a digit string. */
  function DecimalValue(s: string): nat
    requires forall i :: 0 <= i < |s| ==> IsDigit(s[i])
  {
    if s == "" then 0
    else
      assert IsDigit(s[|s| - 1]);
      10 * DecimalValue(s[..|s| - 1]) + (s[|s| - 1] as int - '0' as int)
  }

  /** Printing gives a canonical digit string and reading it gives the number back. */
  lemma {:induction false} DecimalRoundTrip(n: nat)
    ensures Decimal(n) != "" && AllDigits(Decimal(n))
    ensures DecimalValue(Decimal(n)) == n
    ensures n > 0 ==> Decimal(n)[0] != '0'
  {
    if n < 10 {
    } else {
      DecimalRoundTrip(n / 10);
      assert Decimal(n)[..|Decimal(n)| - 1] == Decimal(n / 10);
      assert Decimal(n)[0] == Decimal(n / 10)[0];
    }
  }

  /** A digit string without a leading zero is what its value prints as. */
  lemma {:induction false} CanonicalDigits(s: string)
    requires s != "" && AllDigits(s) && s[0] != '0'
    ensures DecimalValue(s) > 0 && Decimal(DecimalValue(s)) == s
  {
    var last := s[|s| - 1];
    assert s == s[..|s| - 1] + [last];
    if |s| > 1 {
      CanonicalDigits(s[..|s| - 1]);
      var v := DecimalValue(s[..|s| - 1]);
      assert DecimalValue(s) / 10 == v && DecimalValue(s) % 10 == last as int - '0' as int;
    } else {
      assert DecimalValue(s[..0]) == 0;
    }
  }

  lemma FormatIntInjective(m: int, n: int)
    requires FormatInt(m) == FormatInt(n)
    ensures m == n
  {
    FormatIntSign(m);
    FormatIntSign(n);
    DecimalRoundTrip(if m < 0 then -m else m);
    DecimalRoundTrip(if n < 0 then -n else n);
    if m < 0 {
      assert FormatInt(m)[1..] == Decimal(-m) && FormatInt(n)[1..] == Decimal(-n);
    }
  }

  lemma FormatIntSign(n: int)
    ensures FormatInt(n) != "" && (FormatInt(n)[0] == '-' <==> n < 0)
  {
    DecimalRoundTrip(if n < 0 then -n else n);
    if n >= 0 {
      assert IsDigit(Decimal(n)[0]);
    }
  }

  function Tens(k: nat): (power: nat)
    ensures power > 0
  {
    if k == 0 then 1 else 10 * Tens(k - 1)
  }

  /** Every digit stands at its own power of ten. */
  lemma {:induction false} DecimalDigits(n: nat, k: nat)
    requires k < |Decimal(n)|
    ensures Decimal(n)[|Decimal(n)| - 1 - k] as int == '0' as int + n / Tens(k) % 10
    decreases n
  {
    if n >= 10 {
      var front := Decimal(n / 10);
      assert Decimal(n) == front + [Digit(n % 10)];
      if k > 0 {
        assert Decimal(n)[|front| - k] == front[|front| - k];
        DecimalDigits(n / 10, k - 1);
        DivideTwice(n, Tens(k - 1));
      }
    }
  }

  /** There are as many digits as needed. */
  lemma {:induction false} DecimalSize(n: nat)
    ensures n < Tens(|Decimal(n)|) && (n > 0 ==> n >= Tens(|Decimal(n)| - 1))
    decreases n
  {
    if n >= 10 {
      DecimalSize(n / 10);
      assert |Decimal(n)| == |Decimal(n / 10)| + 1;
    }
  }

  lemma DivideTwice(n: nat, d: nat)
    requires d > 0
    ensures 10 * d > 0 && n / (10 * d) == n / 10 / d
  {
    var q := n / 10 / d;
    assert n / 10 == q * d + n / 10 % d;
    assert n == 10 * (n / 10) + n % 10;
    assert n == q * (10 * d) + (10 * (n / 10 % d) + n % 10);
    assert 0 <= 10 * (n / 10 % d) + n % 10 < 10 * d;
    Quotient(n, 10 * d, q);
  }

  lemma Quotient(n: nat, d: nat, q: nat)
    requires d > 0 && q * d <= n < q * d + d
    ensures n / d == q
  {
    var p := n / d;
    assert n == p * d + n % d;
    AtLeastOnce(p - q, d);
    AtLeastOnce(q - p, d);
  }

  lemma AtLeastOnce(x: int, d: nat)
    ensures x >= 1 ==> x * d >= d
  {
  }

  // ------------------------------------------------------------ the ETag

  const PREFIX: string := "\"g-"

  datatype ETagError = WrongForm | NotCanonical | OutOfRange

  function GenerationETag(generation: int): string {
    PREFIX + FormatInt(generation) + "\""
  }

  predicate HasPrefix(s: string, prefix: string) {
    |prefix| <= |s| && s[..|prefix|] == prefix
  }

  predicate HasSuffix(s: string, suffix: string) {
    |suffix| <= |s| && s[|s| - |suffix|..] == suffix
  }

  function TrimPrefix(s: string, prefix: string): string {
    if HasPrefix(s, prefix) then s[|prefix|..] else s
  }

  function TrimSuffix(s: string, suffix: string): string {
    if HasSuffix(s, suffix) then s[..|s| - |suffix|] else s
  }

  function ParseGenerationETag(value: string): Result<int, ETagError> {
    if !HasPrefix(value, PREFIX) || !HasSuffix(value, "\"") then Err(WrongForm)
    else
      var digits := TrimSuffix(TrimPrefix(value, PREFIX), "\"");
      if digits == "" || digits[0] == '0' then Err(NotCanonical)
      else if exists i :: 0 <= i < |digits| && !IsDigit(digits[i]) then Err(NotCanonical)
      else
        var generation := DecimalValue(digits);
        if generation > MAX_INT64 || generation <= 0 then Err(OutOfRange) else Ok(generation)
  }

  /** The parser accepts exactly the printed ETags of the positive int64
      generations, and gives the printed generation back. */
  lemma ETagRoundTrip(value: string, generation: int)
    ensures ParseGenerationETag(value) == Ok(generation)
       <==> 1 <= generation <= MAX_INT64 && value == GenerationETag(generation)
  {
    if 1 <= generation <= MAX_INT64 && value == GenerationETag(generation) {
      ParsePrinted(generation);
    }
    if ParseGenerationETag(value) == Ok(generation) {
      PrintParsed(value, generation);
    }
  }

  lemma ParsePrinted(generation: int)
    requires 1 <= generation <= MAX_INT64
    ensures ParseGenerationETag(GenerationETag(generation)) == Ok(generation)
  {
    var digits := Decimal(generation);
    DecimalRoundTrip(generation);
    var value := GenerationETag(generation);
    assert value[..3] == PREFIX && value[3..] == digits + "\"";
    assert TrimSuffix(digits + "\"", "\"") == digits;
  }

  lemma PrintParsed(value: string, generation: int)
    requires ParseGenerationETag(value) == Ok(generation)
    ensures 1 <= generation <= MAX_INT64 && value == GenerationETag(generation)
  {
    hide DecimalValue, Decimal;
    var digits := TrimSuffix(TrimPrefix(value, PREFIX), "\"");
    CanonicalDigits(digits);
    PrintParsedForm(value);
  }

  /** What is left between the prefix and the closing quote. */
  lemma PrintParsedForm(value: string)
    requires HasPrefix(value, PREFIX) && HasSuffix(value, "\"")
    ensures value == PREFIX + TrimSuffix(TrimPrefix(value, PREFIX), "\"") + "\""
  {
    var rest := value[3..];
    assert value == PREFIX + rest;
    assert |rest| > 0 by {
      assert value[2] == '-' && value[|value| - 1..][0] == '"';
    }
    assert rest[|rest| - 1] == value[|value| - 1] == '"' by {
      assert value[|value| - 1..][0] == value[|value| - 1];
    }
    assert rest == rest[..|rest| - 1] + "\"";
    assert HasSuffix(rest, "\"");
  }
}
