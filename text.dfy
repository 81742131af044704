/** Decimal text as Rust renders and parses it: `Display` for unsigned
    integers and `str::parse::<u64>`. */
module Text {
  import opened Common
  import opened Numeric

  predicate IsDigit(c: char) {
    '0' <= c <= '9'
  }

  predicate AllDigits(s: string) {
    forall i :: 0 <= i < |s| ==> IsDigit(s[i])
  }

  function DigitValue(c: char): nat
    requires IsDigit(c)
  {
    (c as int) - ('0' as int)
  }

  function DigitChar(d: nat): (c: char)
    requires d < 10
    ensures IsDigit(c) && DigitValue(c) == d
  {
    ('0' as int + d) as char
  }

  /** The number a string of decimal digits denotes (leading zeros allowed). */
  function DigitsValue(s: string): nat
    requires AllDigits(s)
  {
    if s == [] then 0 else 10 * DigitsValue(s[..|s| - 1]) + DigitValue(s[|s| - 1])
  }

  /** Decimal rendering of a natural number: digits only, no leading zero. */
  function NatToString(n: nat): (s: string)
    ensures |s| >= 1 && AllDigits(s)
    ensures |s| > 1 ==> s[0] != '0'
  {
    if n < 10 then [DigitChar(n)] else NatToString(n / 10) + [DigitChar(n % 10)]
  }

  /** `str::parse::<u64>`: an optional leading `+`, then at least one decimal
      digit, and a value below 2^64. A `-` sign, any other character, an empty
      string and an overflow are all errors. */
  function ParseU64(s: string): Option<u64>
  {
    var digits := if |s| > 0 && s[0] == '+' then s[1..] else s;
    if |digits| > 0 && AllDigits(digits) && DigitsValue(digits) < U64_LIMIT
    then Some(DigitsValue(digits) as u64)
    else None
  }

  /** Reading back the rendering of `n` gives `n`. */
  lemma {:induction false} DigitsValueOfNatToString(n: nat)
    ensures DigitsValue(NatToString(n)) == n
  {
    if n >= 10 {
      var s := NatToString(n);
      assert s[..|s| - 1] == NatToString(n / 10);
      DigitsValueOfNatToString(n / 10);
    }
  }

  /** Rendering is injective: distinct numbers have distinct decimal texts. */
  lemma NatToStringInjective(a: nat, b: nat)
    requires NatToString(a) == NatToString(b)
    ensures a == b
  {
    DigitsValueOfNatToString(a);
    DigitsValueOfNatToString(b);
  }

  /** Every value of a `u64` survives rendering and parsing. */
  lemma ParseRendered(n: u64)
    ensures ParseU64(NatToString(n as nat)) == Some(n)
  {
    DigitsValueOfNatToString(n as nat);
  }

  /** Whatever parses is a decimal number, possibly signed `+`, below 2^64. */
  lemma ParseAccepts(s: string)
    requires ParseU64(s).Some?
    ensures |s| > 0 && (IsDigit(s[0]) || (s[0] == '+' && |s| > 1))
    ensures var d := if s[0] == '+' then s[1..] else s; AllDigits(d) && ParseU64(s).value as int == DigitsValue(d)
  {
  }

  /** The shapes the parser turns away: the empty text, a sign on its own, a
      negative number and a word. */
  lemma ParseRejects()
    ensures ParseU64("") == None
    ensures ParseU64("+") == None
    ensures ParseU64("-1") == None
    ensures ParseU64("seven") == None
  {
    assert !IsDigit('-');
    assert !IsDigit('s');
  }

  /** A leading `+` and leading zeros are accepted. */
  lemma ParseSignAndZeros()
    ensures ParseU64("+7") == Some(7)
    ensures ParseU64("007") == Some(7)
  {
    assert "+7"[1..] == "7";
    assert "7"[..0] == "";
    assert "007"[..2] == "00";
    assert "00"[..1] == "0";
  }
}
