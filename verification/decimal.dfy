/**
  Decimal rendering of a non-negative integer, as a template literal prints a
  number such as an HTTP status, and the parse that reads it back.
 */
module Decimal {
  import opened JsValues

  predicate IsDigit(c: char) {
    '0' <= c <= '9'
  }

  function DigitChar(d: nat): (c: char)
    requires d < 10
    ensures IsDigit(c)
  {
    ('0' as int + d) as char
  }

  function DigitValue(c: char): Option<nat> {
    if IsDigit(c) then Some(c as int - '0' as int) else None
  }

  /** `${n}` for a non-negative integer: its digits, most significant first, with no leading zero. */
  function Render(n: nat): (s: string)
    ensures |s| >= 1
    ensures forall i :: 0 <= i < |s| ==> IsDigit(s[i])
    ensures s[0] == '0' ==> n == 0
    ensures n >= 10 ==> |s| >= 2
  {
    if n < 10 then [DigitChar(n)] else Render(n / 10) + [DigitChar(n % 10)]
  }

  /** Reads a non-empty string of decimal digits, leading zeros allowed. */
  function ParseDigits(s: string): Option<nat>
    decreases |s|
  {
    if |s| == 0 then None
    else
      match DigitValue(s[|s| - 1])
      case None => None
      case Some(d) =>
        if |s| == 1 then Some(d)
        else
          match ParseDigits(s[..|s| - 1])
          case None => None
          case Some(m) => Some(m * 10 + d)
  }

  /**
    Reads a number in the form `Render` prints it: a non-empty string of
    decimal digits whose first digit is not `0` unless it is the only one.
   */
  function Parse(s: string): Option<nat> {
    if |s| > 1 && s[0] == '0' then None else ParseDigits(s)
  }

  /** Rendering loses nothing: the digits read back as the number. */
  lemma {:induction false} ParseRender(n: nat)
    ensures Parse(Render(n)) == Some(n)
  {
    var s := Render(n);
    if n >= 10 {
      ParseRender(n / 10);
      assert s[..|s| - 1] == Render(n / 10);
      assert s[|s| - 1] == DigitChar(n % 10);
      assert s[0] == Render(n / 10)[0];
    }
  }

  /** Every string `Parse` accepts is the rendering of the number it reads. */
  lemma {:induction false} RenderParse(s: string)
    requires Parse(s).Some?
    ensures Render(Parse(s).value) == s
    decreases |s|
  {
    var d := DigitValue(s[|s| - 1]).value;
    assert DigitChar(d) == s[|s| - 1];
    if |s| > 1 {
      var prefix := s[..|s| - 1];
      assert prefix[0] == s[0];
      var m := ParseDigits(prefix).value;
      assert Parse(prefix) == Some(m);
      RenderParse(prefix);
      assert Render(m)[0] != '0';
      var n := Parse(s).value;
      assert n == m * 10 + d;
      assert n / 10 == m && n % 10 == d;
      assert s == prefix + [s[|s| - 1]];
    }
  }
}
