/** strconv's decimal rendering of a nonnegative integer, and reading it back. */
module Decimal {
  function Digit(d: nat): char
    requires d < 10
  {
    "0123456789"[d]
  }

  function Render(n: nat): string
  {
    if n < 10 then [Digit(n)] else Render(n / 10) + [Digit(n % 10)]
  }

  predicate IsDigit(c: char) { '0' <= c <= '9' }

  function Value(c: char): nat
    requires IsDigit(c)
  {
    c as int - '0' as int
  }

  function Read(s: string): nat
    requires forall i :: 0 <= i < |s| ==> IsDigit(s[i])
  {
    if s == "" then 0 else Read(s[..|s| - 1]) * 10 + Value(s[|s| - 1])
  }

  lemma DigitFacts(d: nat)
    requires d < 10
    ensures IsDigit(Digit(d)) && Value(Digit(d)) == d
  {
  }

  /** Rendering uses digits only and is undone by reading. */
  lemma {:induction false} ReadRender(n: nat)
    ensures Render(n) != "" && (forall i :: 0 <= i < |Render(n)| ==> IsDigit(Render(n)[i]))
    ensures Read(Render(n)) == n
  {
    DigitFacts(n % 10);
    if n < 10 {
      assert Read([Digit(n)]) == Read("") * 10 + Value(Digit(n)) by { assert [Digit(n)][..0] == ""; }
    } else {
      ReadRender(n / 10);
      assert Render(n)[..|Render(n)| - 1] == Render(n / 10);
    }
  }

  lemma RenderInjective(m: nat, n: nat)
    requires Render(m) == Render(n)
    ensures m == n
  {
    ReadRender(m);
    ReadRender(n);
  }

  function Pow10(k: nat): nat { if k == 0 then 1 else 10 * Pow10(k - 1) }

  /** A number below 10^k has at most k digits. */
  lemma {:induction false} RenderLength(n: nat, k: nat)
    requires k >= 1 && n < Pow10(k)
    ensures |Render(n)| <= k
  {
    assert Pow10(1) == 10;
    if n >= 10 {
      RenderLength(n / 10, k - 1);
    }
  }
}
