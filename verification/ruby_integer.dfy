/**
 * Ruby's `String#to_i` (base 10), the only number parser the provisioning
 * translator uses: leading whitespace is skipped, one optional sign is read,
 * then the longest run of decimal digits in which single underscores may
 * separate digits; anything after that run is ignored, and a string with no
 * such run gives 0.  `nil.to_i` is 0 as well, which is `ToI("")`.
 */
module RubyInteger {

  /** The whitespace Ruby skips before a number: space, \t, \n, \v, \f, \r. */
  predicate IsSpace(c: char) {
    c == ' ' || 9 <= c as int <= 13
  }

  predicate IsDigit(c: char) {
    '0' <= c <= '9'
  }

  predicate AllDigits(s: string) {
    forall i :: 0 <= i < |s| ==> IsDigit(s[i])
  }

  predicate AllSpaces(s: string) {
    forall i :: 0 <= i < |s| ==> IsSpace(s[i])
  }

  function SkipSpace(s: string): string {
    if |s| > 0 && IsSpace(s[0]) then SkipSpace(s[1..]) else s
  }

  /** The digits of the longest prefix of `s` of the form d(_?d)*, underscores dropped. */
  function DigitRun(s: string): string {
    if |s| == 0 || !IsDigit(s[0]) then []
    else if |s| >= 3 && s[1] == '_' && IsDigit(s[2]) then [s[0]] + DigitRun(s[2..])
    else [s[0]] + DigitRun(s[1..])
  }

  function DigitValue(c: char): nat
    requires IsDigit(c)
  {
    c as int - '0' as int
  }

  /** The value of a string of decimal digits, most significant first. */
  function DigitsValue(ds: string): nat
    requires AllDigits(ds)
  {
    if |ds| == 0 then 0 else 10 * DigitsValue(ds[..|ds| - 1]) + DigitValue(ds[|ds| - 1])
  }

  lemma {:induction false} DigitRunIsDigits(s: string)
    ensures AllDigits(DigitRun(s))
  {
    if |s| == 0 || !IsDigit(s[0]) {
    } else if |s| >= 3 && s[1] == '_' && IsDigit(s[2]) {
      DigitRunIsDigits(s[2..]);
    } else {
      DigitRunIsDigits(s[1..]);
    }
  }

  /** The magnitude read after the sign. */
  function Magnitude(s: string): nat {
    DigitRunIsDigits(s);
    DigitsValue(DigitRun(s))
  }

  /** `s.to_i` */
  function ToI(s: string): int {
    var t := SkipSpace(s);
    if |t| > 0 && t[0] == '-' then -(Magnitude(t[1..]) as int)
    else if |t| > 0 && t[0] == '+' then Magnitude(t[1..])
    else Magnitude(t)
  }

  function DigitChar(d: nat): (c: char)
    requires d < 10
    ensures IsDigit(c) && DigitValue(c) == d
  {
    ('0' as int + d) as char
  }

  /** `n.to_s`: the canonical decimal spelling of a natural number. */
  function Decimal(n: nat): (s: string)
    ensures |s| > 0 && AllDigits(s)
  {
    if n < 10 then [DigitChar(n)] else Decimal(n / 10) + [DigitChar(n % 10)]
  }

  function Zeros(k: nat): (s: string)
    ensures |s| == k && AllDigits(s)
  {
    if k == 0 then [] else ['0'] + Zeros(k - 1)
  }

  /** `rest` cannot extend a digit run that stands before it. */
  predicate EndsNumber(rest: string) {
    rest == [] || (!IsDigit(rest[0]) && !(rest[0] == '_' && |rest| >= 2 && IsDigit(rest[1])))
  }

  lemma {:induction false} DigitsValueDecimal(n: nat)
    ensures DigitsValue(Decimal(n)) == n
  {
    if n >= 10 {
      var s := Decimal(n);
      assert s[..|s| - 1] == Decimal(n / 10);
      DigitsValueDecimal(n / 10);
    }
  }

  lemma {:induction false} DigitsValueLeadingZeros(k: nat, ds: string)
    requires AllDigits(ds)
    ensures AllDigits(Zeros(k) + ds) && DigitsValue(Zeros(k) + ds) == DigitsValue(ds)
    decreases |ds|
  {
    var s := Zeros(k) + ds;
    if |ds| == 0 {
      assert s == Zeros(k);
      ZerosValue(k);
    } else {
      assert s[..|s| - 1] == Zeros(k) + ds[..|ds| - 1];
      DigitsValueLeadingZeros(k, ds[..|ds| - 1]);
    }
  }

  lemma {:induction false} ZerosValue(k: nat)
    ensures DigitsValue(Zeros(k)) == 0
  {
    if k > 0 {
      var z := Zeros(k);
      assert z == Zeros(k - 1) + ['0'] by {
        ZerosSnoc(k);
      }
      assert z[..|z| - 1] == Zeros(k - 1);
      ZerosValue(k - 1);
    }
  }

  lemma {:induction false} ZerosSnoc(k: nat)
    requires k > 0
    ensures Zeros(k) == Zeros(k - 1) + ['0']
  {
    if k > 1 {
      ZerosSnoc(k - 1);
    }
  }

  lemma {:induction false} DigitRunOfDigits(ds: string, rest: string)
    requires AllDigits(ds) && EndsNumber(rest)
    ensures DigitRun(ds + rest) == ds
  {
    if |ds| > 0 {
      var s := ds + rest;
      assert s[1..] == ds[1..] + rest;
      if |ds| >= 2 {
        assert s[1] == ds[1];
      }
      DigitRunOfDigits(ds[1..], rest);
    } else {
      assert ds + rest == rest;
    }
  }

  lemma {:induction false} SkipSpaceOfSpaces(ws: string, t: string)
    requires AllSpaces(ws) && (t == [] || !IsSpace(t[0]))
    ensures SkipSpace(ws + t) == t
  {
    if |ws| > 0 {
      assert (ws + t)[1..] == ws[1..] + t;
      SkipSpaceOfSpaces(ws[1..], t);
    } else {
      assert ws + t == t;
    }
  }

  /**
   * `to_i` inverts `to_s`, also after leading whitespace and leading zeros
   * and before any text that does not continue the number.
   */
  lemma ToIDecimal(ws: string, k: nat, n: nat, rest: string)
    requires AllSpaces(ws) && EndsNumber(rest)
    ensures ToI(ws + Zeros(k) + Decimal(n) + rest) == n
  {
    var ds := Zeros(k) + Decimal(n);
    assert ws + Zeros(k) + Decimal(n) + rest == ws + (ds + rest);
    assert (ds + rest)[0] == ds[0];
    SkipSpaceOfSpaces(ws, ds + rest);
    DigitRunOfDigits(ds, rest);
    DigitsValueLeadingZeros(k, Decimal(n));
    DigitsValueDecimal(n);
  }

  /** `n.to_s.to_i == n` */
  lemma ToIOfDecimal(n: nat)
    ensures ToI(Decimal(n)) == n
  {
    ToIDecimal("", 0, n, "");
    assert "" + Zeros(0) + Decimal(n) + "" == Decimal(n);
  }

  /** A minus sign negates the number that follows it. */
  lemma ToINegative(ws: string, n: nat, rest: string)
    requires AllSpaces(ws) && EndsNumber(rest)
    ensures ToI(ws + "-" + Decimal(n) + rest) == -(n as int)
  {
    var t := "-" + Decimal(n) + rest;
    assert ws + "-" + Decimal(n) + rest == ws + t;
    SkipSpaceOfSpaces(ws, t);
    assert t[1..] == Decimal(n) + rest;
    DigitRunOfDigits(Decimal(n), rest);
    DigitsValueDecimal(n);
  }

  /** The readings the provisioning form relies on: blank or absent is 0, "1", "01" and "1x" are 1. */
  lemma ToIFormFlags()
    ensures ToI("") == 0 && ToI("0") == 0
    ensures ToI("1") == 1 && ToI("01") == 1 && ToI("1x") == 1 && ToI(" 1") == 1
  {
    assert Decimal(0) == "0" && Decimal(1) == "1" && Zeros(1) == "0";
    ToIDecimal("", 0, 0, "");
    ToIDecimal("", 0, 1, "");
    ToIDecimal("", 1, 1, "");
    ToIDecimal("", 0, 1, "x");
    ToIDecimal(" ", 0, 1, "");
    assert "" + Zeros(0) + Decimal(1) + "x" == "1x";
    assert " " + Zeros(0) + Decimal(1) + "" == " 1";
    assert "" + Zeros(1) + Decimal(1) + "" == "01";
  }
}
