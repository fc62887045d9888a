/** The string primitives the components rely on: `toLowerCase`, `includes`
    and the `\D` (non-digit) character class of JavaScript regular expressions. */
module Texto {
  import opened Colecoes

  /** `toLowerCase` on one character, for Basic Latin and Latin-1: 'A'..'Z' and
      'À'..'Þ' except '×' move down by 32 code points; everything else is kept. */
  function Minuscula(c: char): (r: char)
    ensures 'A' <= c <= 'Z' ==> 'a' <= r <= 'z'
    ensures !('A' <= c <= 'Z') && !('À' <= c <= 'Þ') ==> r == c
  {
    if 'A' <= c <= 'Z' then (c as int + 32) as char
    else if 'À' <= c <= 'Þ' && c != '×' then (c as int + 32) as char
    else c
  }

  function Minusculas(s: string): (r: string)
    ensures |r| == |s|
    ensures forall i :: 0 <= i < |s| ==> r[i] == Minuscula(s[i])
  {
    seq(|s|, i requires 0 <= i < |s| => Minuscula(s[i]))
  }

  predicate ComecaCom(s: string, prefixo: string)
  {
    |prefixo| <= |s| && s[..|prefixo|] == prefixo
  }

  /** `s.includes(termo)`: tried at every starting position of `s`. */
  predicate Inclui(s: string, termo: string)
    decreases |s|
  {
    ComecaCom(s, termo) || (|s| > 0 && Inclui(s[1..], termo))
  }

  /** `termo` occurs in `s` starting at position `i`. */
  ghost predicate OcorreEm(s: string, termo: string, i: int)
  {
    0 <= i && i + |termo| <= |s| && s[i..i + |termo|] == termo
  }

  /** `Inclui` agrees with the existential definition of a substring. */
  lemma {:induction false} IncluiSeOcorre(s: string, termo: string)
    ensures Inclui(s, termo) <==> exists i :: OcorreEm(s, termo, i)
    decreases |s|
  {
    if Inclui(s, termo) {
      if ComecaCom(s, termo) {
        assert OcorreEm(s, termo, 0);
      } else {
        IncluiSeOcorre(s[1..], termo);
        var j :| OcorreEm(s[1..], termo, j);
        assert s[j + 1..j + 1 + |termo|] == s[1..][j..j + |termo|];
        assert OcorreEm(s, termo, j + 1);
      }
    }
    if exists i :: OcorreEm(s, termo, i) {
      var i :| OcorreEm(s, termo, i);
      if i > 0 {
        assert s[1..][i - 1..i - 1 + |termo|] == s[i..i + |termo|];
        assert OcorreEm(s[1..], termo, i - 1);
        IncluiSeOcorre(s[1..], termo);
      }
    }
  }

  /** The empty term is included in every string (`"abc".includes("")`). */
  lemma IncluiVazio(s: string)
    ensures Inclui(s, "")
  {
  }

  /** Case-insensitive substring match as the components write it:
      `s.toLowerCase().includes(termo.toLowerCase())`. */
  predicate IncluiSemCaixa(s: string, termo: string)
  {
    Inclui(Minusculas(s), Minusculas(termo))
  }

  lemma IncluiSemCaixaVazio(s: string)
    ensures IncluiSemCaixa(s, "")
  {
    assert Minusculas("") == "";
    IncluiVazio(Minusculas(s));
  }

  predicate EhDigito(c: char)
  {
    '0' <= c <= '9'
  }

  predicate SoDigitosEm(s: string)
  {
    forall i :: 0 <= i < |s| ==> EhDigito(s[i])
  }

  /** `s.replace(/\D/g, '')`: the digits of `s`, in order, and all of them
      (as many as the positions of `s` holding a digit). */
  function SoDigitos(s: string): (r: string)
    ensures SoDigitosEm(r)
    ensures Subsequencia(r, s)
    ensures |r| == |IndicesQue(s, EhDigito)|
  {
    FiltrarSubsequencia(s, EhDigito);
    FiltrarConta(s, EhDigito);
    Filtrar(s, EhDigito)
  }

  lemma SoDigitosConcat(a: string, b: string)
    ensures SoDigitos(a + b) == SoDigitos(a) + SoDigitos(b)
  {
    FiltrarConcat(a, b, EhDigito);
  }

  /** A string of digits is its own digit string. */
  lemma SoDigitosDeDigitos(s: string)
    requires SoDigitosEm(s)
    ensures SoDigitos(s) == s
  {
    FiltrarTodos(s, EhDigito);
  }

  /** A string without digits has an empty digit string. */
  lemma SoDigitosSemDigitos(s: string)
    requires forall i :: 0 <= i < |s| ==> !EhDigito(s[i])
    ensures SoDigitos(s) == ""
  {
    FiltrarNenhum(s, EhDigito);
  }
}
