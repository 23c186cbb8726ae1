/**
 * strconv.Atoi as the exit builtin uses it: a signed decimal integer,
 * with an optional leading '+' or '-' and at least one digit.
 */
module Atoi {
  import opened Wrappers

  predicate IsDigit(c: char) {
    '0' <= c <= '9'
  }

  predicate AllDigits(s: string) {
    forall i :: 0 <= i < |s| ==> IsDigit(s[i])
  }

  /** The value of a digit string, most significant digit first. */
  function DigitsValue(s: string): nat
    requires AllDigits(s)
    decreases |s|
  {
    if |s| == 0 then 0
    else DigitsValue(s[..|s| - 1]) * 10 + (s[|s| - 1] as int - '0' as int)
  }

  /** The digits after an optional sign. */
  function Unsigned(s: string): string {
    if |s| > 0 && (s[0] == '-' || s[0] == '+') then s[1..] else s
  }

  /** strconv.Atoi, ignoring the range limit of Go's int. */
  function ParseInt(s: string): (r: Option<int>)
    ensures r.Some? <==> |Unsigned(s)| > 0 && AllDigits(Unsigned(s))
    ensures r.Some? ==> r.value == if s[0] == '-' then -(DigitsValue(Unsigned(s)) as int) else DigitsValue(Unsigned(s))
  {
    var body := Unsigned(s);
    if |s| == 0 || |body| == 0 || !AllDigits(body) then None
    else
      var v: int := DigitsValue(body);
      if s[0] == '-' then Some(-v) else Some(v)
  }

  function Digit(d: nat): char
    requires d < 10
  {
    ('0' as int + d) as char
  }

  /** The shortest decimal spelling of a natural number. */
  function NatDigits(n: nat): string
    decreases n
  {
    if n < 10 then [Digit(n)] else NatDigits(n / 10) + [Digit(n % 10)]
  }

  /** The decimal spelling of an integer, as strconv.Itoa writes it. */
  function Format(n: int): string {
    if n < 0 then "-" + NatDigits(-n) else NatDigits(n)
  }

  lemma {:induction false} NatDigitsValue(n: nat)
    ensures |NatDigits(n)| > 0 && AllDigits(NatDigits(n))
    ensures DigitsValue(NatDigits(n)) == n
    decreases n
  {
    if n >= 10 {
      NatDigitsValue(n / 10);
      var s := NatDigits(n);
      assert s[..|s| - 1] == NatDigits(n / 10);
    }
  }

  /** Atoi reads back every integer Itoa writes. */
  lemma {:induction false} ParseFormat(n: int)
    ensures ParseInt(Format(n)) == Some(n)
  {
    if n < 0 {
      NatDigitsValue(-n);
      assert Unsigned(Format(n)) == NatDigits(-n);
    } else {
      NatDigitsValue(n);
      assert IsDigit(Format(n)[0]);
      assert Unsigned(Format(n)) == Format(n);
    }
  }

  /** A leading '+' is accepted and does not change the value. */
  lemma PlusSign(n: nat)
    ensures ParseInt("+" + Format(n)) == Some(n)
  {
    NatDigitsValue(n);
    assert Unsigned("+" + Format(n)) == Format(n);
  }
}
