/** Decimal rendering of client identifiers, as `format!("{}", id)` produces
    it for the `CID` variable, and the parse that inverts it. */
module Decimal {
  import opened Tunnel

  predicate IsDigit(c: char)
  {
    '0' <= c <= '9'
  }

  function Digit(d: nat): (c: char)
    requires d < 10
    ensures IsDigit(c) && c as int - '0' as int == d
  {
    ('0' as int + d) as char
  }

  /** The decimal digits of `n`, without leading zeros. */
  function Render(n: nat): (s: string)
    ensures |s| >= 1
    ensures forall i :: 0 <= i < |s| ==> IsDigit(s[i])
    ensures s[0] == '0' ==> n == 0
    decreases n
  {
    if n < 10 then [Digit(n)] else Render(n / 10) + [Digit(n % 10)]
  }

  /** The value of a non-empty string of decimal digits. */
  function Parse(s: string): Option<nat>
    decreases |s|
  {
    if s == [] || !IsDigit(s[|s| - 1]) then None
    else
      var d := s[|s| - 1] as int - '0' as int;
      if |s| == 1 then Some(d)
      else
        match Parse(s[..|s| - 1])
        case None => None
        case Some(v) => Some(v * 10 + d)
  }

  /** Parsing the rendering of any number gives the number back. */
  lemma {:induction false} ParseRender(n: nat)
    ensures Parse(Render(n)) == Some(n)
    decreases n
  {
    if n >= 10 {
      var s := Render(n);
      ParseRender(n / 10);
      assert s[..|s| - 1] == Render(n / 10);
    }
  }

  /** A parsed string that does not start with '0' has a positive value. */
  lemma {:induction false} ParsePositive(s: string)
    requires Parse(s).Some? && s[0] != '0'
    ensures Parse(s).value >= 1
    decreases |s|
  {
    if |s| > 1 {
      ParsePositive(s[..|s| - 1]);
    }
  }

  /** A canonical digit string (no leading zero) is the rendering of its value. */
  lemma {:induction false} RenderParse(s: string)
    requires Parse(s).Some?
    requires s[0] != '0' || |s| == 1
    ensures Render(Parse(s).value) == s
    decreases |s|
  {
    if |s| > 1 {
      var p := s[..|s| - 1];
      ParsePositive(p);
      RenderParse(p);
      assert p + [s[|s| - 1]] == s;
    }
  }

  function Pow10(k: nat): nat
  {
    if k == 0 then 1 else 10 * Pow10(k - 1)
  }

  /** A number below 10^k renders in at most k digits. */
  lemma {:induction false} RenderBelow(n: nat, k: nat)
    requires 1 <= k && n < Pow10(k)
    ensures |Render(n)| <= k
    decreases k
  {
    if n >= 10 {
      RenderBelow(n / 10, k - 1);
    }
  }

  /** A 16-bit identifier renders in one to five digits. */
  lemma RenderWidth(n: u16)
    ensures 1 <= |Render(n)| <= 5
  {
    assert Pow10(5) == 100000;
    RenderBelow(n, 5);
  }
}
