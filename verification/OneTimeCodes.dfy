/**
 Emailed one-time codes: a random number below 10^n, printed with leading zeros.
 */
module OneTimeCodes {
  import opened Wrappers
  import Text

  const CODE_LENGTH := 6

  function Pow10(n: nat): (p: nat)
    ensures p >= 1
  {
    if n == 0 then 1 else 10 * Pow10(n - 1)
  }

  function DigitChar(d: nat): (c: char)
    requires d < 10
    ensures Text.IsDigit(c) && c as int - '0' as int == d
  {
    ('0' as int + d) as char
  }

  // %d
  function Decimal(v: nat): string {
    if v < 10 then [DigitChar(v)] else Decimal(v / 10) + [DigitChar(v % 10)]
  }

  // %0*d: at least n characters, padded on the left with zeros.
  function Padded(n: nat, v: nat): string {
    var digits := Decimal(v);
    if |digits| >= n then digits else Zeros(n - |digits|) + digits
  }

  function Zeros(k: nat): string {
    if k == 0 then "" else ['0'] + Zeros(k - 1)
  }

  predicate AllDigits(s: string) {
    forall i :: 0 <= i < |s| ==> Text.IsDigit(s[i])
  }

  function ParseDigits(s: string): nat
    requires AllDigits(s)
  {
    if s == "" then 0 else 10 * ParseDigits(s[..|s| - 1]) + (s[|s| - 1] as int - '0' as int)
  }

  lemma {:induction false} DecimalShape(v: nat)
    ensures |Decimal(v)| >= 1 && AllDigits(Decimal(v)) && ParseDigits(Decimal(v)) == v
  {
    var s := Decimal(v);
    if v >= 10 {
      DecimalShape(v / 10);
      assert s[..|s| - 1] == Decimal(v / 10);
    } else {
      assert s[..0] == "";
    }
  }

  lemma {:induction false} DecimalWidth(n: nat, v: nat)
    requires n >= 1 && v < Pow10(n)
    ensures |Decimal(v)| <= n
  {
    if v >= 10 { DecimalWidth(n - 1, v / 10); }
  }

  lemma {:induction false} LeadingZeros(k: nat, s: string)
    requires AllDigits(s)
    ensures |Zeros(k)| == k && AllDigits(Zeros(k) + s) && ParseDigits(Zeros(k) + s) == ParseDigits(s)
    decreases k, |s|
  {
    var t := Zeros(k) + s;
    if s == "" {
      assert t == Zeros(k);
      if k > 0 {
        LeadingZeros(k - 1, "0");
        LeadingZeros(k - 1, "");
        assert Zeros(k - 1) + "" == Zeros(k - 1);
        ZerosCommute(k - 1);
        assert t == Zeros(k - 1) + "0";
        assert t[..|t| - 1] == Zeros(k - 1);
      }
    } else {
      LeadingZeros(k, s[..|s| - 1]);
      assert t[..|t| - 1] == Zeros(k) + s[..|s| - 1];
    }
  }

  lemma {:induction false} ZerosCommute(k: nat)
    ensures ['0'] + Zeros(k) == Zeros(k) + "0"
  {
    if k > 0 {
      ZerosCommute(k - 1);
      assert ['0'] + Zeros(k) == ['0'] + (Zeros(k - 1) + "0");
    }
  }

  /** Every value below 10^n prints as exactly n digits and is read back unchanged. */
  lemma {:induction false} PrintThenParse(n: nat, v: nat)
    requires n >= 1 && v < Pow10(n)
    ensures |Padded(n, v)| == n && AllDigits(Padded(n, v)) && ParseDigits(Padded(n, v)) == v
  {
    DecimalShape(v);
    DecimalWidth(n, v);
    LeadingZeros(n - |Decimal(v)|, Decimal(v));
  }

  // Two digit strings of one length with one value are the same string.
  lemma {:induction false} SameLengthSameValue(s: string, t: string)
    requires |s| == |t| && AllDigits(s) && AllDigits(t) && ParseDigits(s) == ParseDigits(t)
    ensures s == t
  {
    if s != "" {
      var a, b := s[|s| - 1] as int - '0' as int, t[|t| - 1] as int - '0' as int;
      assert 10 * ParseDigits(s[..|s| - 1]) + a == 10 * ParseDigits(t[..|t| - 1]) + b;
      assert a == b;
      SameLengthSameValue(s[..|s| - 1], t[..|t| - 1]);
      assert s == s[..|s| - 1] + [s[|s| - 1]] && t == t[..|t| - 1] + [t[|t| - 1]];
    }
  }

  lemma {:induction false} ValueBound(s: string)
    requires AllDigits(s)
    ensures ParseDigits(s) < Pow10(|s|)
  {
    if s != "" { ValueBound(s[..|s| - 1]); }
  }

  /** Every n-digit string is the print of exactly one value below 10^n, the value it parses to: printing is a bijection
      from the values below 10^n onto the n-digit strings, so a uniform draw gives a uniform code. */
  lemma {:induction false} ParseThenPrint(s: string, v: nat)
    requires |s| >= 1 && AllDigits(s) && v < Pow10(|s|)
    ensures ParseDigits(s) < Pow10(|s|) && (Padded(|s|, v) == s <==> v == ParseDigits(s))
  {
    ValueBound(s);
    PrintThenParse(|s|, v);
    PrintThenParse(|s|, ParseDigits(s));
    SameLengthSameValue(Padded(|s|, ParseDigits(s)), s);
  }

  /** randomDigits: `draw` is the random source, asked for a number below the limit the loop has computed. */
  method RandomDigits(n: nat, draw: nat -> Option<nat>) returns (code: Option<string>)
    requires forall limit: nat :: draw(limit).Some? ==> draw(limit).value < limit
    ensures code.Some? <==> draw(Pow10(n)).Some?
    ensures code.Some? && n >= 1 ==> |code.value| == n && AllDigits(code.value) && ParseDigits(code.value) == draw(Pow10(n)).value
  {
    var limit: nat := 1;
    for i := 0 to n
      invariant limit == Pow10(i)
    {
      limit := limit * 10;
    }
    match draw(limit) {
      case None => return None;
      case Some(value) =>
        if n >= 1 { PrintThenParse(n, value); }
        return Some(Padded(n, value));
    }
  }
}
