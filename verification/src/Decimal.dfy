/** Decimal notation of natural numbers, as `u64` is printed and read, and the splitting of
    a text at the first occurrence of a separator. */
module Decimal {

  predicate IsDigit(c: char) {
    '0' <= c <= '9'
  }

  function DigitOf(n: nat): (c: char)
    requires n < 10
    ensures IsDigit(c) && ValueOf(c) == n
  {
    '0' + n as char
  }

  function ValueOf(c: char): nat
    requires IsDigit(c)
  {
    c as nat - '0' as nat
  }

  ghost predicate AllDigits(text: string) {
    forall i :: 0 <= i < |text| ==> IsDigit(text[i])
  }

  /** The decimal text of `n`: digits only, with no leading zero unless it is "0". */
  function Show(n: nat): (text: string)
    ensures text != [] && AllDigits(text)
    ensures text[0] == '0' ==> n == 0 && text == "0"
  {
    if n < 10 then [DigitOf(n)] else Show(n / 10) + [DigitOf(n % 10)]
  }

  /** The number a digit text stands for; leading zeros are accepted. */
  function Read(text: string): nat
    requires AllDigits(text)
  {
    if text == [] then 0 else Read(text[..|text| - 1]) * 10 + ValueOf(text[|text| - 1])
  }

  lemma {:induction false} ReadShow(n: nat)
    ensures Read(Show(n)) == n
  {
    if n >= 10 {
      ReadShow(n / 10);
      assert Show(n)[..|Show(n)| - 1] == Show(n / 10);
    } else {
      assert Show(n)[..0] == [];
    }
  }

  lemma ShowInjective(m: nat, n: nat)
    requires Show(m) == Show(n)
    ensures m == n
  {
    ReadShow(m);
    ReadShow(n);
  }

  /** A separator that occurs in neither head splits a text in only one way. */
  lemma SplitUnique(head: string, rest: string, head': string, rest': string, sep: char)
    requires head + [sep] + rest == head' + [sep] + rest'
    requires sep !in head && sep !in head'
    ensures head == head' && rest == rest'
  {
    var text := head + [sep] + rest;
    assert text[|head|] == sep && text[|head'|] == sep;
    assert forall i :: 0 <= i < |head| ==> text[i] == head[i] && text[i] != sep;
    assert forall i :: 0 <= i < |head'| ==> text[i] == head'[i] && text[i] != sep;
    assert |head| == |head'|;
    assert head == text[..|head|] && head' == text[..|head|];
    assert rest == text[|head| + 1..] && rest' == text[|head| + 1..];
  }

  lemma ShowHasNo(n: nat, c: char)
    requires !IsDigit(c)
    ensures c !in Show(n)
  {
  }
}
