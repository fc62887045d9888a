/** The dashboard (src/components/Dashboard.tsx): the low-stock and
    out-of-stock counters, the dispensation counts since a date and the list
    of the five most recent dispensations. */
module Painel {
  import opened Colecoes
  import opened Registros
  import opened Cronologia
  import Estoque

  /** A row counted as low stock: positive and at most the minimum. */
  predicate EhEstoqueBaixo(l: LinhaEstoque)
  {
    l.quantidadeAtual > 0 && l.quantidadeAtual <= l.quantidadeMinima
  }

  /** A row counted as out of stock: exactly zero. */
  predicate EhSemEstoque(l: LinhaEstoque)
  {
    l.quantidadeAtual == 0
  }

  /** `medicamentosEstoqueBaixo`; `dados` is `None` when the query returns no data. */
  function ContarEstoqueBaixo(dados: Option<seq<LinhaEstoque>>): (r: nat)
    ensures dados.None? ==> r == 0
    ensures dados.Some? ==> r <= |dados.value|
  {
    match dados
    case None => 0
    case Some(s) => |Filtrar(s, EhEstoqueBaixo)|
  }

  /** `medicamentosSemEstoque`. */
  function ContarSemEstoque(dados: Option<seq<LinhaEstoque>>): (r: nat)
    ensures dados.None? ==> r == 0
    ensures dados.Some? ==> r <= |dados.value|
  {
    match dados
    case None => 0
    case Some(s) => |Filtrar(s, EhSemEstoque)|
  }

  /** The low-stock count is the number of rows with 0 < quantity <= minimum,
      and the out-of-stock count the number of rows at exactly 0. */
  lemma ContagensPorPosicao(s: seq<LinhaEstoque>)
    ensures ContarEstoqueBaixo(Some(s)) ==
      |set i | 0 <= i < |s| && 0 < s[i].quantidadeAtual <= s[i].quantidadeMinima|
    ensures ContarSemEstoque(Some(s)) == |set i | 0 <= i < |s| && s[i].quantidadeAtual == 0|
  {
    FiltrarConta(s, EhEstoqueBaixo);
    FiltrarConta(s, EhSemEstoque);
    assert IndicesQue(s, EhEstoqueBaixo) ==
      set i | 0 <= i < |s| && 0 < s[i].quantidadeAtual <= s[i].quantidadeMinima;
    assert IndicesQue(s, EhSemEstoque) == set i | 0 <= i < |s| && s[i].quantidadeAtual == 0;
  }

  /** No row is both low and out of stock, so the two counters never add up to
      more than the number of rows. */
  lemma ContagensDisjuntas(dados: Option<seq<LinhaEstoque>>)
    ensures dados.Some? ==> ContarEstoqueBaixo(dados) + ContarSemEstoque(dados) <= |dados.value|
    ensures dados.None? ==> ContarEstoqueBaixo(dados) + ContarSemEstoque(dados) == 0
  {
    if dados.Some? {
      FiltrarDisjuntos(dados.value, EhEstoqueBaixo, EhSemEstoque);
    }
  }

  predicate BadgeBaixo(l: LinhaEstoque)
  {
    Estoque.StatusBadge(l.quantidadeAtual, l.quantidadeMinima) == Estoque.EstoqueBaixo
  }

  predicate BadgeSem(l: LinhaEstoque)
  {
    Estoque.StatusBadge(l.quantidadeAtual, l.quantidadeMinima) == Estoque.SemEstoque
  }

  /** On non-negative quantities the dashboard counts exactly the rows the stock
      screen's badge marks "Estoque Baixo" and "Sem Estoque". */
  lemma ContagensConcordamComBadge(s: seq<LinhaEstoque>)
    requires QuantidadesNaoNegativas(s)
    ensures ContarEstoqueBaixo(Some(s)) == |Filtrar(s, BadgeBaixo)|
    ensures ContarSemEstoque(Some(s)) == |Filtrar(s, BadgeSem)|
  {
    FiltrarExtensional(s, EhEstoqueBaixo, BadgeBaixo);
    FiltrarExtensional(s, EhSemEstoque, BadgeSem);
  }

  /** With a negative quantity they part: the badge says "Estoque Baixo"
      but the dashboard does not count the row. */
  lemma BadgeDiscordaEmNegativo()
    ensures var l := LinhaEstoque("e1", "M", -1, 10, "L1", "2026-01-01", "2025-11-01");
      && BadgeBaixo(l)
      && ContarEstoqueBaixo(Some([l])) == 0
  {
    var l := LinhaEstoque("e1", "M", -1, 10, "L1", "2026-01-01", "2025-11-01");
    assert Filtrar([l], EhEstoqueBaixo) == [];
  }

  /** `.gte('data_dispensacao', desde)`. */
  predicate Desde(desde: string, d: Registro)
  {
    Antes(desde, d.dataDispensacao)
  }

  function FiltroDesde(desde: string): Registro -> bool
  {
    (d: Registro) => Desde(desde, d)
  }

  /** `dispensacoesHoje` and `dispensacoesMes`: the number of dispensations on
      or after `desde` (the day's or the month's first date). */
  function ContarDesde(ds: seq<Registro>, desde: string): (r: nat)
    ensures r <= |ds|
  {
    |Filtrar(ds, FiltroDesde(desde))|
  }

  /** The positions of the dispensations dated on or after `desde`. */
  ghost function PosicoesDesde(ds: seq<Registro>, desde: string): set<int>
  {
    set i | 0 <= i < |ds| && Antes(desde, ds[i].dataDispensacao)
  }

  /** Exactly the dispensations on or after the date are counted. */
  lemma ContarDesdePorPosicao(ds: seq<Registro>, desde: string)
    ensures ContarDesde(ds, desde) == |PosicoesDesde(ds, desde)|
  {
    var p := FiltroDesde(desde);
    FiltrarConta(ds, p);
    assert IndicesQue(ds, p) == PosicoesDesde(ds, desde);
  }

  /** When the month starts no later than today, today's count never exceeds the month's. */
  lemma HojeNaoExcedeMes(ds: seq<Registro>, inicioMes: string, hoje: string)
    requires Antes(inicioMes, hoje)
    ensures ContarDesde(ds, hoje) <= ContarDesde(ds, inicioMes)
  {
    forall i | 0 <= i < |ds| && Desde(hoje, ds[i])
      ensures Desde(inicioMes, ds[i])
    {
      AntesTransitivo(inicioMes, hoje, ds[i].dataDispensacao);
    }
    FiltrarMonotono(ds, FiltroDesde(hoje), FiltroDesde(inicioMes));
  }

  /** The number of recent dispensations shown. */
  const LimiteRecentes: nat := 5

  /** `.order('data_dispensacao', { ascending: false }).limit(5)`. */
  function Recentes(ds: seq<Registro>): (r: seq<Registro>)
    ensures |r| == if |ds| < LimiteRecentes then |ds| else LimiteRecentes
    ensures Decrescente(r)
    ensures multiset(r) <= multiset(ds)
  {
    var o := Ordenar(ds);
    OrdenarDecrescente(ds);
    assert |o| == |ds| by { assert |multiset(o)| == |multiset(ds)|; }
    var n := if |ds| < LimiteRecentes then |ds| else LimiteRecentes;
    assert o == o[..n] + o[n..];
    assert multiset(o) == multiset(o[..n]) + multiset(o[n..]);
    o[..n]
  }

  /** Cutting a list in two leaves the second part as what remains of the whole. */
  lemma RestoDoCorte(o: seq<Registro>, n: int)
    requires 0 <= n <= |o|
    ensures multiset(o) - multiset(o[..n]) == multiset(o[n..])
  {
    assert o == o[..n] + o[n..];
  }

  /** In a most-recent-first list, nothing after the cut is later than anything before it. */
  lemma CorteDecrescente(o: seq<Registro>, n: int, d: Registro, x: Registro)
    requires Decrescente(o) && 0 <= n <= |o|
    requires d in o[n..] && x in o[..n]
    ensures Antes(d.dataDispensacao, x.dataDispensacao)
  {
    var j :| 0 <= j < |o[n..]| && o[n..][j] == d;
    var i :| 0 <= i < |o[..n]| && o[..n][i] == x;
    assert o[n + j] == d && o[i] == x;
  }

  /** Nothing left out of the recent list is later than anything in it. */
  lemma RecentesSaoOsMaisNovos(ds: seq<Registro>)
    ensures forall d, x :: d in multiset(ds) - multiset(Recentes(ds)) && x in Recentes(ds) ==>
      Antes(d.dataDispensacao, x.dataDispensacao)
  {
    var o := Ordenar(ds);
    OrdenarDecrescente(ds);
    var r := Recentes(ds);
    var n := |r|;
    assert |o| == |ds| by { assert |multiset(o)| == |multiset(ds)|; }
    assert r == o[..n];
    RestoDoCorte(o, n);
    assert multiset(ds) - multiset(r) == multiset(o[n..]);
    forall d, x | d in multiset(ds) - multiset(r) && x in r
      ensures Antes(d.dataDispensacao, x.dataDispensacao)
    {
      assert d in multiset(o[n..]);
      CorteDecrescente(o, n, d, x);
    }
  }
}
