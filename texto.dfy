/** Character and decimal-number helpers shared by the date/time parsers and the callback codec. */
module Texto {
  import opened Wrappers

  predicate EsDigito(c: char) {
    '0' <= c <= '9'
  }

  predicate TodoDigitos(s: string) {
    forall k :: 0 <= k < |s| ==> EsDigito(s[k])
  }

  function ValorDigito(c: char): (n: int)
    requires EsDigito(c)
    ensures 0 <= n <= 9
  {
    c as int - '0' as int
  }

  function Digito(n: int): (c: char)
    requires 0 <= n <= 9
    ensures EsDigito(c) && ValorDigito(c) == n
  {
    ('0' as int + n) as char
  }

  /** The value of a string of decimal digits, most significant first. */
  function ValorDecimal(s: string): nat
    requires TodoDigitos(s)
  {
    if s == [] then 0 else ValorDecimal(s[..|s| - 1]) * 10 + ValorDigito(s[|s| - 1])
  }

  /** Python's `str(n)` for a natural number: its decimal digits, no leading zero. */
  function NatATexto(n: nat): (s: string)
    ensures |s| > 0 && TodoDigitos(s)
    ensures |s| > 1 ==> s[0] != '0'
  {
    if n < 10 then [Digito(n)] else NatATexto(n / 10) + [Digito(n % 10)]
  }

  /** Reading back the digits `str` writes gives the number. */
  lemma {:induction false} ValorNatATexto(n: nat)
    ensures ValorDecimal(NatATexto(n)) == n
  {
    if n >= 10 {
      var s := NatATexto(n);
      assert s[..|s| - 1] == NatATexto(n / 10);
      ValorNatATexto(n / 10);
    }
  }

  /** The position of the first `c` in `s`, if any (Python's `s.find(c)`). */
  function Indice(s: string, c: char): (r: Option<nat>)
    ensures r.Some? ==> r.value < |s| && s[r.value] == c && c !in s[..r.value]
    ensures r.None? ==> c !in s
  {
    if s == [] then None
    else if s[0] == c then Some(0)
    else
      match Indice(s[1..], c)
      case None => None
      case Some(i) =>
        assert s[..i + 1] == [s[0]] + s[1..][..i];
        Some(i + 1)
  }

  /** The first `c` of `a + [c] + b` is the one after `a` when `a` holds none. */
  lemma IndiceTras(a: string, c: char, b: string)
    requires c !in a
    ensures Indice(a + [c] + b, c) == Some(|a|)
  {
    var s := a + [c] + b;
    assert s[|a|] == c;
  }

}
