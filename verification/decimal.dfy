// Decimal text of integers, printed and parsed the way the source's library does.

module Decimal {
  import opened Integers
  import opened Options

  predicate IsDigit(c: char) { '0' <= c <= '9' }

  function DigitValue(c: char): nat
    requires IsDigit(c)
  {
    c as int - '0' as int
  }

  function Digits(n: nat): string {
    var last := [('0' as int + n % 10) as char];
    if n < 10 then last else Digits(n / 10) + last
  }

  function Print(n: int): string {
    if n < 0 then "-" + Digits(-n) else Digits(n)
  }

  function DigitsValue(s: string): Option<nat> {
    if s == "" then Some(0)
    else match DigitsValue(s[..|s| - 1])
      case None => None
      case Some(high) => if IsDigit(s[|s| - 1]) then Some(10 * high + DigitValue(s[|s| - 1])) else None
  }

  // An optional sign, at least one digit, and a value that fits 64 bits.
  function Parse(s: string): Option<int> {
    var signed := s != "" && (s[0] == '-' || s[0] == '+');
    var digits := if signed then s[1..] else s;
    if digits == "" then None
    else match DigitsValue(digits)
      case None => None
      case Some(n) =>
        var magnitude: int := n;
        var value := if signed && s[0] == '-' then -magnitude else magnitude;
        if MinInt64 <= value <= MaxInt64 then Some(value) else None
  }

  lemma {:induction false} DigitsRoundTrip(n: nat)
    ensures DigitsValue(Digits(n)) == Some(n)
    ensures Digits(n) != "" && IsDigit(Digits(n)[0])
    ensures forall i :: 0 <= i < |Digits(n)| ==> '0' <= Digits(n)[i] <= '9'
    ensures Digits(n)[0] == '0' ==> Digits(n) == "0"
    decreases n
  {
    var s := Digits(n);
    if n >= 10 {
      DigitsRoundTrip(n / 10);
      assert s[..|s| - 1] == Digits(n / 10);
    } else {
      assert s[..|s| - 1] == "";
    }
  }

  // Parsing undoes printing exactly for the numbers of 64 bits.
  lemma ParsePrintIff(n: int)
    ensures Parse(Print(n)) == Some(n) <==> MinInt64 <= n <= MaxInt64
  {
    if n < 0 {
      DigitsRoundTrip(-n);
      assert Print(n)[1..] == Digits(-n);
    } else {
      DigitsRoundTrip(n);
    }
  }

  function Zeros(k: nat): string {
    if k == 0 then "" else Zeros(k - 1) + "0"
  }

  lemma {:induction false} ZerosValue(k: nat)
    ensures DigitsValue(Zeros(k)) == Some(0)
  {
    if k > 0 {
      ZerosValue(k - 1);
      assert Zeros(k)[..|Zeros(k)| - 1] == Zeros(k - 1);
    }
  }

  lemma {:induction false} ZerosBefore(k: nat, n: nat)
    ensures DigitsValue(Zeros(k) + Digits(n)) == Some(n)
    decreases n
  {
    var s := Zeros(k) + Digits(n);
    if n >= 10 {
      ZerosBefore(k, n / 10);
      assert s[..|s| - 1] == Zeros(k) + Digits(n / 10);
    } else {
      ZerosValue(k);
      assert s[..|s| - 1] == Zeros(k);
    }
  }

  // Digits read as a number exactly when they are its digits after any zeros.
  lemma DigitsValueIff(s: string, n: nat)
    requires s != ""
    ensures DigitsValue(s) == Some(n) <==> ReadsAs(s, n)
  {
    if DigitsValue(s) == Some(n) {
      ValueIsRead(s, n);
    }
    if k: nat :| s == Zeros(k) + Digits(n) {
      ZerosBefore(k, n);
    }
  }

  lemma {:induction false} ValueIsRead(s: string, n: nat)
    requires s != "" && DigitsValue(s) == Some(n)
    ensures ReadsAs(s, n)
  {
    var front, last := s[..|s| - 1], s[|s| - 1];
    assert s == front + [last];
    var h := DigitsValue(front).value;
    if front == "" {
      assert s == Zeros(0) + Digits(n);
    } else {
      ValueIsRead(front, h);
      OneMoreDigit(front, h, last);
    }
  }

  lemma OneMoreDigit(front: string, h: nat, last: char)
    requires ReadsAs(front, h) && IsDigit(last)
    ensures ReadsAs(front + [last], 10 * h + DigitValue(last))
  {
    var k: nat :| front == Zeros(k) + Digits(h);
    var n := 10 * h + DigitValue(last);
    if h == 0 {
      assert Zeros(k + 1) == Zeros(k) + "0" && Digits(n) == [last];
      assert front + [last] == Zeros(k + 1) + Digits(n);
    } else {
      assert n / 10 == h && n % 10 == DigitValue(last);
      assert Digits(n) == Digits(h) + [last];
      assert front + [last] == Zeros(k) + Digits(n);
    }
  }

  // A text is read as a number exactly when it is the number's decimal digits, after any zeros and a sign that
  // may be left out for one that is not negative, and the number fits 64 bits.
  lemma ParseIff(s: string, n: int)
    ensures Parse(s) == Some(n) <==>
              && -9223372036854775808 <= n <= 9223372036854775807
              && ((n >= 0 && (ReadsAs(s, n) || (s != "" && s[0] == '+' && ReadsAs(s[1..], n))))
                  || (n <= 0 && s != "" && s[0] == '-' && ReadsAs(s[1..], -n)))
  {
    var signed := s != "" && (s[0] == '-' || s[0] == '+');
    var digits := if signed then s[1..] else s;
    ReadsAsIff(digits, if n >= 0 then n else -n);
    ReadsAsIff(s, if n >= 0 then n else -n);
  }

  // The digits of n after any zeros.
  ghost predicate ReadsAs(digits: string, n: nat) {
    exists k: nat :: digits == Zeros(k) + Digits(n)
  }

  lemma ReadsAsIff(digits: string, n: nat)
    ensures digits != "" && DigitsValue(digits) == Some(n) <==> ReadsAs(digits, n)
    ensures ReadsAs(digits, n) ==> IsDigit(digits[0])
  {
    if digits != "" {
      DigitsValueIff(digits, n);
    }
    if k: nat :| digits == Zeros(k) + Digits(n) {
      StartsWithDigit(k, n);
    }
  }

  lemma {:induction false} StartsWithDigit(k: nat, m: nat)
    ensures Zeros(k) + Digits(m) != "" && IsDigit((Zeros(k) + Digits(m))[0])
  {
    DigitsRoundTrip(m);
    if k > 0 {
      ZeroFirst(k);
    }
  }

  lemma {:induction false} ZeroFirst(k: nat)
    requires k > 0
    ensures Zeros(k) != "" && Zeros(k)[0] == '0'
  {
    if k > 1 { ZeroFirst(k - 1); }
  }
}
