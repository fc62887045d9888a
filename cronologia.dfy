/** Ordering of dispensations by `data_dispensacao`. Dates and timestamps are
    ISO-8601 text ("2025-11-03", "2025-11-03T14:05:00"), so their chronological
    order is the lexicographic order of the text, which is what this module uses
    for the backend's `.gte`, `.lte` and `.order('data_dispensacao', ...)`. */
module Cronologia {
  import opened Colecoes
  import opened Registros

  /** Lexicographic `a <= b` on text. */
  predicate Antes(a: string, b: string)
    decreases |a|
  {
    |a| == 0 || (|b| > 0 && (a[0] < b[0] || (a[0] == b[0] && Antes(a[1..], b[1..]))))
  }

  lemma {:induction false} AntesReflexivo(a: string)
    ensures Antes(a, a)
    decreases |a|
  {
    if |a| > 0 {
      AntesReflexivo(a[1..]);
    }
  }

  lemma {:induction false} AntesTotal(a: string, b: string)
    ensures Antes(a, b) || Antes(b, a)
    decreases |a|
  {
    if |a| > 0 && |b| > 0 && a[0] == b[0] {
      AntesTotal(a[1..], b[1..]);
    }
  }

  lemma {:induction false} AntesTransitivo(a: string, b: string, c: string)
    requires Antes(a, b) && Antes(b, c)
    ensures Antes(a, c)
    decreases |a|
  {
    if |a| > 0 && a[0] == b[0] && b[0] == c[0] {
      AntesTransitivo(a[1..], b[1..], c[1..]);
    }
  }

  /** A common prefix does not change the comparison. */
  lemma {:induction false} AntesPrefixoComum(p: string, a: string, b: string)
    ensures Antes(p + a, p + b) <==> Antes(a, b)
    decreases |p|
  {
    if |p| > 0 {
      assert (p + a)[1..] == p[1..] + a;
      assert (p + b)[1..] == p[1..] + b;
      AntesPrefixoComum(p[1..], a, b);
    } else {
      assert p + a == a && p + b == b;
    }
  }

  /** A prefix comes no later than any of its extensions. */
  lemma {:induction false} AntesExtensao(p: string, a: string)
    ensures Antes(p, p + a)
    decreases |p|
  {
    if |p| > 0 {
      assert (p + a)[1..] == p[1..] + a;
      AntesExtensao(p[1..], a);
    }
  }

  /** Most recent first: each dispensation is no earlier than every one after it. */
  ghost predicate Decrescente(s: seq<Registro>)
  {
    forall i, j :: 0 <= i < j < |s| ==> Antes(s[j].dataDispensacao, s[i].dataDispensacao)
  }

  /** Inserts `x` in front of the first dispensation that is no later than it. */
  function Inserir(x: Registro, s: seq<Registro>): (r: seq<Registro>)
    ensures multiset(r) == multiset(s) + multiset{x}
    decreases |s|
  {
    if |s| == 0 then [x]
    else if Antes(s[0].dataDispensacao, x.dataDispensacao) then [x] + s
    else
      assert s == [s[0]] + s[1..];
      [s[0]] + Inserir(x, s[1..])
  }

  /** `.order('data_dispensacao', { ascending: false })`, as an insertion sort. */
  function Ordenar(s: seq<Registro>): (r: seq<Registro>)
    ensures multiset(r) == multiset(s)
    decreases |s|
  {
    if |s| == 0 then []
    else
      assert s == [s[0]] + s[1..];
      Inserir(s[0], Ordenar(s[1..]))
  }

  lemma {:induction false} InserirDecrescente(x: Registro, s: seq<Registro>)
    requires Decrescente(s)
    ensures Decrescente(Inserir(x, s))
    decreases |s|
  {
    if |s| > 0 {
      if Antes(s[0].dataDispensacao, x.dataDispensacao) {
        forall k | 0 <= k < |s|
          ensures Antes(s[k].dataDispensacao, x.dataDispensacao)
        {
          if k > 0 {
            AntesTransitivo(s[k].dataDispensacao, s[0].dataDispensacao, x.dataDispensacao);
          }
        }
        ConsDecrescente(x, s);
      } else {
        AntesTotal(s[0].dataDispensacao, x.dataDispensacao);
        InserirDecrescente(x, s[1..]);
        CotaDaInsercao(x, s);
        ConsDecrescente(s[0], Inserir(x, s[1..]));
      }
    }
  }

  /** Putting in front of a descending sequence a dispensation no earlier than
      any of its elements keeps it descending. */
  lemma ConsDecrescente(y: Registro, t: seq<Registro>)
    requires Decrescente(t)
    requires forall k :: 0 <= k < |t| ==> Antes(t[k].dataDispensacao, y.dataDispensacao)
    ensures Decrescente([y] + t)
  {
    var r := [y] + t;
    forall i, j | 0 <= i < j < |r|
      ensures Antes(r[j].dataDispensacao, r[i].dataDispensacao)
    {
      assert r[j] == t[j - 1];
      if i > 0 {
        assert r[i] == t[i - 1];
      }
    }
  }

  /** When `x` is inserted behind the head of a descending sequence, every
      element of the inserted tail is no later than that head. */
  lemma CotaDaInsercao(x: Registro, s: seq<Registro>)
    requires Decrescente(s) && |s| > 0
    requires Antes(x.dataDispensacao, s[0].dataDispensacao)
    ensures forall k :: 0 <= k < |Inserir(x, s[1..])| ==>
      Antes(Inserir(x, s[1..])[k].dataDispensacao, s[0].dataDispensacao)
  {
    var t := Inserir(x, s[1..]);
    forall k | 0 <= k < |t|
      ensures Antes(t[k].dataDispensacao, s[0].dataDispensacao)
    {
      var y := t[k];
      assert y in multiset(t);
      assert y in multiset(s[1..]) || y == x;
      if y != x {
        var m :| 0 <= m < |s[1..]| && s[1..][m] == y;
        assert s[m + 1] == y;
      }
    }
  }

  lemma {:induction false} OrdenarDecrescente(s: seq<Registro>)
    ensures Decrescente(Ordenar(s))
    decreases |s|
  {
    if |s| > 0 {
      OrdenarDecrescente(s[1..]);
      InserirDecrescente(s[0], Ordenar(s[1..]));
    }
  }

  /** Filtering a list that is most recent first keeps it most recent first. */
  lemma {:induction false} FiltrarDecrescente(s: seq<Registro>, p: Registro -> bool)
    requires Decrescente(s)
    ensures Decrescente(Filtrar(s, p))
    decreases |s|
  {
    if |s| > 0 {
      FiltrarDecrescente(s[1..], p);
      FiltrarPertence(s[1..], p);
      if p(s[0]) {
        var t := Filtrar(s[1..], p);
        var r := [s[0]] + t;
        assert r == Filtrar(s, p);
        forall i, j | 0 <= i < j < |r|
          ensures Antes(r[j].dataDispensacao, r[i].dataDispensacao)
        {
          if i == 0 {
            var k :| 0 <= k < |s[1..]| && s[1..][k] == r[j];
            assert s[k + 1] == r[j];
          }
        }
      }
    }
  }

  /** The first entry of a most-recent-first list is no earlier than any entry. */
  lemma CabecaMaisRecente(s: seq<Registro>, j: int)
    requires Decrescente(s) && 0 <= j < |s|
    ensures Antes(s[j].dataDispensacao, s[0].dataDispensacao)
  {
    if j == 0 {
      AntesReflexivo(s[0].dataDispensacao);
    }
  }

  lemma FiltrarCons(y: Registro, t: seq<Registro>, p: Registro -> bool)
    ensures Filtrar([y] + t, p) == (if p(y) then [y] else []) + Filtrar(t, p)
  {
    assert ([y] + t)[0] == y;
    assert ([y] + t)[1..] == t;
  }

  lemma InserirCons(x: Registro, y: Registro, t: seq<Registro>)
    ensures Inserir(x, [y] + t) ==
      if Antes(y.dataDispensacao, x.dataDispensacao) then [x] + ([y] + t) else [y] + Inserir(x, t)
  {
    assert ([y] + t)[0] == y;
    assert ([y] + t)[1..] == t;
  }

  lemma FiltrarConsMantem(y: Registro, t: seq<Registro>, p: Registro -> bool)
    requires p(y)
    ensures Filtrar([y] + t, p) == [y] + Filtrar(t, p)
  {
    assert ([y] + t)[0] == y;
    assert ([y] + t)[1..] == t;
  }

  lemma FiltrarConsDescarta(y: Registro, t: seq<Registro>, p: Registro -> bool)
    requires !p(y)
    ensures Filtrar([y] + t, p) == Filtrar(t, p)
  {
    assert ([y] + t)[0] == y;
    assert ([y] + t)[1..] == t;
  }

  lemma InserirAtras(x: Registro, y: Registro, t: seq<Registro>)
    requires !Antes(y.dataDispensacao, x.dataDispensacao)
    ensures Inserir(x, [y] + t) == [y] + Inserir(x, t)
  {
    assert ([y] + t)[0] == y;
    assert ([y] + t)[1..] == t;
  }

  /** The insertion case where `x` goes in front. */
  lemma FiltrarInserirNaFrente(x: Registro, s: seq<Registro>, p: Registro -> bool)
    requires Decrescente(s) && |s| > 0 && Antes(s[0].dataDispensacao, x.dataDispensacao)
    ensures Filtrar(Inserir(x, s), p) == if p(x) then Inserir(x, Filtrar(s, p)) else Filtrar(s, p)
  {
    var t := Filtrar(s, p);
    assert Inserir(x, s) == [x] + s;
    FiltrarCons(x, s, p);
    if p(x) {
      if |t| == 0 {
        assert [x] + t == [x];
      } else {
        FiltrarPertence(s, p);
        var j :| 0 <= j < |s| && s[j] == t[0];
        CabecaMaisRecente(s, j);
        AntesTransitivo(t[0].dataDispensacao, s[0].dataDispensacao, x.dataDispensacao);
        assert t == [t[0]] + t[1..];
        InserirCons(x, t[0], t[1..]);
      }
    } else {
      assert [] + t == t;
    }
  }

  lemma CaudaDecrescente(s: seq<Registro>)
    requires Decrescente(s) && |s| > 0
    ensures Decrescente(s[1..])
  {
    var cauda := s[1..];
    forall i, j | 0 <= i < j < |cauda|
      ensures Antes(cauda[j].dataDispensacao, cauda[i].dataDispensacao)
    {
      assert cauda[i] == s[i + 1] && cauda[j] == s[j + 1];
    }
  }

  /** Filtering after an insertion into a sorted list is inserting into the filtered list. */
  lemma {:induction false} FiltrarInserir(x: Registro, s: seq<Registro>, p: Registro -> bool)
    requires Decrescente(s)
    ensures Filtrar(Inserir(x, s), p) == if p(x) then Inserir(x, Filtrar(s, p)) else Filtrar(s, p)
    decreases |s|
  {
    if |s| == 0 {
      FiltrarCons(x, [], p);
      assert [x] + [] == [x];
    } else if Antes(s[0].dataDispensacao, x.dataDispensacao) {
      FiltrarInserirNaFrente(x, s, p);
    } else {
      var cauda := s[1..];
      assert s == [s[0]] + cauda;
      CaudaDecrescente(s);
      FiltrarInserir(x, cauda, p);
      FiltrarInserirAtras(x, s[0], cauda, p);
    }
  }

  /** The insertion case where `x` goes after the first entry `y`, given the
      property for the rest `t` of the list. */
  lemma FiltrarInserirAtras(x: Registro, y: Registro, t: seq<Registro>, p: Registro -> bool)
    requires !Antes(y.dataDispensacao, x.dataDispensacao)
    requires Filtrar(Inserir(x, t), p) == if p(x) then Inserir(x, Filtrar(t, p)) else Filtrar(t, p)
    ensures Filtrar(Inserir(x, [y] + t), p) ==
      if p(x) then Inserir(x, Filtrar([y] + t, p)) else Filtrar([y] + t, p)
  {
    var resto := Inserir(x, t);
    InserirAtras(x, y, t);
    if p(y) {
      FiltrarConsMantem(y, resto, p);
      FiltrarConsMantem(y, t, p);
      if p(x) {
        InserirAtras(x, y, Filtrar(t, p));
      }
    } else {
      FiltrarConsDescarta(y, resto, p);
      FiltrarConsDescarta(y, t, p);
    }
  }

  /** Filtering a sorted list is sorting the filtered list: the client-side
      filters may run before or after the server's ordering. */
  lemma {:induction false} FiltrarOrdenar(s: seq<Registro>, p: Registro -> bool)
    ensures Filtrar(Ordenar(s), p) == Ordenar(Filtrar(s, p))
    decreases |s|
  {
    if |s| > 0 {
      var cauda := s[1..];
      assert s == [s[0]] + cauda;
      assert Ordenar(s) == Inserir(s[0], Ordenar(cauda));
      OrdenarDecrescente(cauda);
      FiltrarInserir(s[0], Ordenar(cauda), p);
      FiltrarOrdenar(cauda, p);
      FiltrarCons(s[0], cauda, p);
      var tc := Filtrar(cauda, p);
      if p(s[0]) {
        assert Filtrar(s, p) == [s[0]] + tc;
        assert ([s[0]] + tc)[0] == s[0] && ([s[0]] + tc)[1..] == tc;
      } else {
        assert Filtrar(s, p) == tc;
      }
    }
  }
}
