/** Decimal text as strconv writes and reads it. Annotations carry attempts and
    times as text, so what a reader recovers is a fact to be proved. */
module Decimal {
  import opened Api

  const MAX_INT64: int := 0x7fff_ffff_ffff_ffff
  const MIN_INT64: int := -0x8000_0000_0000_0000

  predicate IsDigit(c: char) {
    '0' <= c <= '9'
  }

  predicate AllDigits(s: string) {
    forall i :: 0 <= i < |s| ==> IsDigit(s[i])
  }

  /** The decimal digits of n, most significant first. */
  function Digits(n: nat): (s: string)
    ensures s != "" && AllDigits(s)
  {
    var last := ('0' as int + n % 10) as char;
    if n < 10 then [last] else Digits(n / 10) + [last]
  }

  /** The number a string of digits denotes. */
  function Number(s: string): nat
    requires AllDigits(s)
  {
    if s == "" then 0 else 10 * Number(s[..|s| - 1]) + (s[|s| - 1] as int - '0' as int)
  }

  lemma {:induction false} NumberOfDigits(n: nat)
    ensures Number(Digits(n)) == n
  {
    if n >= 10 {
      NumberOfDigits(n / 10);
      assert Digits(n)[..|Digits(n)| - 1] == Digits(n / 10);
    }
  }

  lemma DigitsTell(a: nat, b: nat)
    requires Digits(a) == Digits(b)
    ensures a == b
  {
    hide Digits, Number;
    NumberOfDigits(a);
    NumberOfDigits(b);
  }

  /** strconv.FormatInt in base 10. */
  function FormatInt(n: int): (s: string)
    ensures s != ""
  {
    if n < 0 then "-" + Digits(-n) else Digits(n)
  }

  /** strconv.ParseInt in base 10 with 64 bits: an optional sign, at least one
      digit, and a value in range. */
  function ParseInt(s: string): Option<int> {
    if s == "" then None
    else
      var signed := s[0] == '-' || s[0] == '+';
      var digits := if signed then s[1..] else s;
      if digits == "" || !AllDigits(digits) then None
      else
        var magnitude: int := Number(digits);
        var n := if s[0] == '-' then -magnitude else magnitude;
        if MIN_INT64 <= n <= MAX_INT64 then Some(n) else None
  }

  lemma FirstDigit(s: string)
    requires AllDigits(s) && s != ""
    ensures IsDigit(s[0])
  {
  }

  lemma FormatTells(a: int, b: int)
    requires FormatInt(a) == FormatInt(b)
    ensures a == b
  {
    hide Digits;
    var x, y: nat := if a < 0 then -a else a, if b < 0 then -b else b;
    SignTells(a, b);
    assert Digits(x) == Digits(y) by {
      if a < 0 {
        assert FormatInt(a)[1..] == Digits(x) && FormatInt(b)[1..] == Digits(y);
      }
    }
    DigitsTell(x, y);
  }

  lemma SignTells(a: int, b: int)
    requires FormatInt(a) == FormatInt(b)
    ensures a < 0 <==> b < 0
  {
    hide Digits;
    if a >= 0 {
      FirstDigit(Digits(a));
    }
    if b >= 0 {
      FirstDigit(Digits(b));
    }
  }

  /** Whatever FormatInt wrote, ParseInt reads back, over the whole 64-bit range. */
  lemma ParseFormatInt(n: int)
    requires MIN_INT64 <= n <= MAX_INT64
    ensures ParseInt(FormatInt(n)) == Some(n)
  {
    hide Digits, Number, AllDigits;
    if n < 0 {
      NumberOfDigits(-n);
      assert FormatInt(n)[1..] == Digits(-n);
    } else {
      NumberOfDigits(n);
      FirstDigit(Digits(n));
    }
  }

  /** Numbers are written with the digits of their value, without sign or leading zero; a
      minus goes before those below zero. */
  lemma {:induction false} FormatIs(n: nat)
    ensures AllDigits(FormatInt(n)) && Number(FormatInt(n)) == n
    ensures n > 0 ==> FormatInt(n)[0] != '0' && FormatInt(0 - n) == "-" + FormatInt(n)
    ensures FormatInt(0) == "0"
  {
    NumberOfDigits(n);
    if n >= 10 {
      FormatIs(n / 10);
    }
  }

  /** What is read: digits, with a sign before them or not, of a value in range; and nothing
      else. */
  lemma ParseIs(digits: string)
    requires digits != "" && AllDigits(digits)
    ensures ParseInt(digits) == ParseInt("+" + digits)
    ensures ParseInt(digits) == if Number(digits) <= MAX_INT64 then Some(Number(digits)) else None
    ensures ParseInt("-" + digits) == if Number(digits) <= -MIN_INT64 then Some(0 - Number(digits)) else None
    ensures ParseInt("") == ParseInt("+") == ParseInt("-") == None
  {
    FirstDigit(digits);
    assert ("+" + digits)[1..] == digits && ("-" + digits)[1..] == digits;
  }

  lemma OnlyNumbersAreRead(s: string)
    requires ParseInt(s).Some?
    ensures exists digits :: digits != "" && AllDigits(digits) && s in {digits, "+" + digits, "-" + digits}
  {
    var digits := if s[0] == '-' || s[0] == '+' then s[1..] else s;
    assert s == digits || s == "+" + digits || s == "-" + digits;
  }
}
