/** Decimal rendering of counters, as `std::ostream << unsigned` does it.
    Distinct counters give distinct texts because the text can be read back. */
module Decimal {

  function Digit(d: nat): char
    requires d < 10
  {
    '0' + d as char
  }

  function Render(n: nat): (s: string)
    ensures s != []
  {
    if n < 10 then [Digit(n)] else Render(n / 10) + [Digit(n % 10)]
  }

  function DigitValue(c: char): nat {
    if '0' <= c <= '9' then (c as int - '0' as int) as nat else 0
  }

  function Parse(s: string): nat {
    if s == [] then 0 else 10 * Parse(s[..|s| - 1]) + DigitValue(s[|s| - 1])
  }

  /** Reading back what was rendered gives the number: rendering is injective. */
  lemma {:induction false} ParseRender(n: nat)
    ensures Parse(Render(n)) == n
  {
    if n >= 10 {
      var front := Render(n / 10);
      var s := Render(n);
      assert s[..|s| - 1] == front;
      ParseRender(n / 10);
    } else {
      assert Render(n)[..0] == [];
    }
  }

  /** A text of digits, without a leading zero but for zero itself. */
  lemma {:induction false} RenderIsDecimal(n: nat)
    ensures forall i :: 0 <= i < |Render(n)| ==> '0' <= Render(n)[i] <= '9'
    ensures Render(n)[0] == '0' <==> n == 0
  {
    if n >= 10 { RenderIsDecimal(n / 10); }
  }

  lemma Prefixed(prefix: string, m: nat, n: nat)
    requires prefix + Render(m) == prefix + Render(n)
    ensures m == n
  {
    assert Render(m) == (prefix + Render(m))[|prefix|..] == Render(n);
    ParseRender(m);
    ParseRender(n);
  }
}
