/** Integers as decimal text, as `String(n)` writes them and `Number(s)` or Lua's `tonumber` read them back. Text
    is a sequence of bytes, one `char` each. */
module Decimal {
  import opened Wrappers

  predicate IsDigit(c: char) { '0' <= c <= '9' }

  predicate AllDigits(s: string) { forall i :: 0 <= i < |s| ==> IsDigit(s[i]) }

  function Digit(d: nat): char
    requires d < 10
  {
    '0' + d as char
  }

  function Digits(n: nat): string {
    if n < 10 then [Digit(n)] else Digits(n / 10) + [Digit(n % 10)]
  }

  function Show(n: int): string {
    if n < 0 then "-" + Digits(-n) else Digits(n)
  }

  function Value(s: string): nat
    requires AllDigits(s)
  {
    if s == "" then 0 else 10 * Value(s[..|s| - 1]) + (s[|s| - 1] - '0') as nat
  }

  /** An optional sign and at least one digit; other text is not a number here. */
  function Number(s: string): Option<int>
  {
    if s != "" && AllDigits(s) then Some(Value(s))
    else if |s| > 1 && s[0] == '-' && AllDigits(s[1..]) then Some(0 - Value(s[1..]))
    else if |s| > 1 && s[0] == '+' && AllDigits(s[1..]) then Some(Value(s[1..]))
    else None
  }

  lemma {:induction false} ValueOfDigits(n: nat)
    ensures Digits(n) != "" && AllDigits(Digits(n)) && Value(Digits(n)) == n
  {
    if n >= 10 {
      ValueOfDigits(n / 10);
      var s := Digits(n / 10) + [Digit(n % 10)];
      assert s[..|s| - 1] == Digits(n / 10);
    } else {
      assert [Digit(n)][..0] == "";
    }
  }

  lemma NumberOfShow(n: int)
    ensures Number(Show(n)) == Some(n)
  {
    if n < 0 {
      ValueOfDigits(-n);
      assert Show(n)[1..] == Digits(-n);
    } else {
      ValueOfDigits(n);
    }
  }

  /** Text just as `String(n)` writes some integer `n`: the only text INCRBY and DECRBY accept. */
  predicate Canonical(s: string) { Number(s).Some? && Show(Number(s).value) == s }

  lemma ShowInjective(a: int, b: int)
    ensures Show(a) == Show(b) ==> a == b
  {
    NumberOfShow(a);
    NumberOfShow(b);
  }
}
