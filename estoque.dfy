/** The stock screen (src/components/ControleEstoque.tsx): adding stock by
    merge-or-insert, the three-way status badge, the low-stock warning icon and
    the stock search. */
module Estoque {
  import opened Colecoes
  import opened Texto
  import opened Registros

  /** `quantidade_minima` of a stock row created by the first entry for a medication. */
  const QuantidadeMinimaPadrao: int := 10

  datatype Status = SemEstoque | EstoqueBaixo | Normal

  /** `getStatusBadge(quantidade, minima)`. */
  function StatusBadge(quantidade: int, minima: int): Status
  {
    if quantidade == 0 then SemEstoque
    else if quantidade <= minima then EstoqueBaixo
    else Normal
  }

  /** The classification by its thresholds: out of stock exactly at zero,
      low when non-zero and at most the minimum, normal above the minimum. */
  lemma StatusBadgeLimiares(quantidade: int, minima: int)
    ensures StatusBadge(quantidade, minima) == SemEstoque <==> quantidade == 0
    ensures StatusBadge(quantidade, minima) == EstoqueBaixo <==> quantidade != 0 && quantidade <= minima
    ensures StatusBadge(quantidade, minima) == Normal <==> quantidade != 0 && quantidade > minima
  {
  }

  /** The warning icon beside the quantity. */
  predicate MostraAlerta(linha: LinhaEstoque)
  {
    linha.quantidadeAtual <= linha.quantidadeMinima
  }

  /** With a non-negative minimum the icon appears exactly when the badge is not
      "Normal", so it also marks out-of-stock rows. */
  lemma AlertaSeNaoNormal(linha: LinhaEstoque)
    requires linha.quantidadeMinima >= 0
    ensures MostraAlerta(linha) <==> StatusBadge(linha.quantidadeAtual, linha.quantidadeMinima) != Normal
    ensures linha.quantidadeAtual == 0 ==> MostraAlerta(linha)
  {
  }

  /** The search term matches the medication's name, code or active ingredient, ignoring case. */
  predicate CasaBusca(m: Medicamento, termo: string)
  {
    IncluiSemCaixa(m.nome, termo) || IncluiSemCaixa(m.codigo, termo) || IncluiSemCaixa(m.principioAtivo, termo)
  }

  /** The row has a joined medication and that medication matches the term. */
  predicate LinhaVisivel(medicamentos: seq<Medicamento>, termo: string, linha: LinhaEstoque)
  {
    match MedicamentoPorId(medicamentos, linha.medicamentoId)
    case None => false
    case Some(m) => CasaBusca(m, termo)
  }

  /** `estoquesFiltrados`. */
  function EstoquesFiltrados(estoque: seq<LinhaEstoque>, medicamentos: seq<Medicamento>, termo: string): (r: seq<LinhaEstoque>)
    ensures Subsequencia(r, estoque)
    ensures forall i :: 0 <= i < |r| ==> r[i] in estoque && LinhaVisivel(medicamentos, termo, r[i])
    ensures forall i :: 0 <= i < |estoque| && LinhaVisivel(medicamentos, termo, estoque[i]) ==> estoque[i] in r
  {
    var p := (l: LinhaEstoque) => LinhaVisivel(medicamentos, termo, l);
    FiltrarSubsequencia(estoque, p);
    FiltrarPertence(estoque, p);
    Filtrar(estoque, p)
  }

  /** With an empty term the search keeps exactly the rows that have a medication. */
  lemma BuscaVaziaMantemComMedicamento(estoque: seq<LinhaEstoque>, medicamentos: seq<Medicamento>)
    ensures forall i :: 0 <= i < |estoque| ==>
      (estoque[i] in EstoquesFiltrados(estoque, medicamentos, "") <==>
       MedicamentoPorId(medicamentos, estoque[i].medicamentoId).Some?)
  {
    forall i | 0 <= i < |estoque|
      ensures estoque[i] in EstoquesFiltrados(estoque, medicamentos, "") <==>
              MedicamentoPorId(medicamentos, estoque[i].medicamentoId).Some?
    {
      match MedicamentoPorId(medicamentos, estoque[i].medicamentoId)
      case None =>
      case Some(m) =>
        IncluiSemCaixaVazio(m.nome);
    }
  }

  /** The add-stock form (`novaEntrada`); an empty quantity field is `None`. */
  datatype NovaEntrada = NovaEntrada(medicamentoId: string, quantidade: Option<int>, lote: string, dataValidade: string)

  const EntradaVazia := NovaEntrada("", None, "", "")

  /** The guard at the top of `adicionarEstoque`: all four fields filled in. */
  predicate CamposPreenchidos(e: NovaEntrada)
  {
    e.medicamentoId != "" && e.quantidade.Some? && e.lote != "" && e.dataValidade != ""
  }

  /** The corrected guard: also a quantity of at least 1, as the field's `min="1"` asks. */
  predicate EntradaAceita(e: NovaEntrada)
  {
    CamposPreenchidos(e) && e.quantidade.value >= 1
  }

  /** The row a first entry creates. */
  function NovaLinha(e: NovaEntrada, novoId: string, hoje: string): LinhaEstoque
    requires e.quantidade.Some?
  {
    LinhaEstoque(novoId, e.medicamentoId, e.quantidade.value, QuantidadeMinimaPadrao, e.lote, e.dataValidade, hoje)
  }

  /** The stock table after the write of a filled-in entry: add to the
      medication's existing row, or insert a new row. `novoId` is the id the
      backend assigns and `hoje` the entry date. */
  function AplicarEntrada(estoque: seq<LinhaEstoque>, e: NovaEntrada, novoId: string, hoje: string): seq<LinhaEstoque>
    requires e.quantidade.Some?
  {
    match IndiceEstoque(estoque, e.medicamentoId)
    case Some(k) =>
      DefinirQuantidadePorId(estoque, estoque[k].id, estoque[k].quantidadeAtual + e.quantidade.value)
    case None =>
      estoque + [NovaLinha(e, novoId, hoje)]
  }

  /** `adicionarEstoque` as written: `None` when a field is empty. */
  function AdicionarComoEscrito(estoque: seq<LinhaEstoque>, e: NovaEntrada, novoId: string, hoje: string): Option<seq<LinhaEstoque>>
  {
    if CamposPreenchidos(e) then Some(AplicarEntrada(estoque, e, novoId, hoje)) else None
  }

  /** `adicionarEstoque` with the corrected guard. */
  function Adicionar(estoque: seq<LinhaEstoque>, e: NovaEntrada, novoId: string, hoje: string): Option<seq<LinhaEstoque>>
  {
    if EntradaAceita(e) then Some(AplicarEntrada(estoque, e, novoId, hoje)) else None
  }

  /** As written, a negative quantity passes the guard and drives stock below zero. */
  lemma AdicionarComoEscritoNegativa()
    ensures var antes := [LinhaEstoque("e1", "m1", 2, 10, "L1", "2026-01-01", "2025-11-03")];
            var e := NovaEntrada("m1", Some(-5), "L2", "2026-06-01");
            && QuantidadesNaoNegativas(antes)
            && AdicionarComoEscrito(antes, e, "e2", "2025-11-04").Some?
            && AdicionarComoEscrito(antes, e, "e2", "2025-11-04").value[0].quantidadeAtual == -3
  {
    var antes := [LinhaEstoque("e1", "m1", 2, 10, "L1", "2026-01-01", "2025-11-03")];
    var e := NovaEntrada("m1", Some(-5), "L2", "2026-06-01");
    assert IndiceEstoque(antes, "m1") == Some(0);
  }

  /** The corrected guard differs from the written one only on filled-in entries
      whose quantity is below 1: there the written code writes and the
      correction refuses; everywhere else they give the same table. */
  lemma CorrecaoSoRecusaNaoPositivas(estoque: seq<LinhaEstoque>, e: NovaEntrada, novoId: string, hoje: string)
    ensures Adicionar(estoque, e, novoId, hoje).Some? ==>
      AdicionarComoEscrito(estoque, e, novoId, hoje) == Adicionar(estoque, e, novoId, hoje)
    ensures AdicionarComoEscrito(estoque, e, novoId, hoje) != Adicionar(estoque, e, novoId, hoje) <==>
      CamposPreenchidos(e) && e.quantidade.value < 1
    ensures AdicionarComoEscrito(estoque, e, novoId, hoje).None? ==> Adicionar(estoque, e, novoId, hoje).None?
    ensures AdicionarComoEscrito(estoque, e, novoId, hoje).Some? ==>
      e.quantidade.Some? && AdicionarComoEscrito(estoque, e, novoId, hoje).value == AplicarEntrada(estoque, e, novoId, hoje)
    ensures Adicionar(estoque, e, novoId, hoje).Some? ==>
      e.quantidade.Some? && Adicionar(estoque, e, novoId, hoje).value == AplicarEntrada(estoque, e, novoId, hoje)
  {
  }

  /** An entry with an empty field is rejected and writes nothing. */
  lemma AdicionarRejeitaCamposVazios(estoque: seq<LinhaEstoque>, e: NovaEntrada, novoId: string, hoje: string)
    ensures !CamposPreenchidos(e) ==> Adicionar(estoque, e, novoId, hoje).None?
    ensures Adicionar(estoque, e, novoId, hoje).None? <==> !EntradaAceita(e)
  {
  }

  // The four lemmas below are about the write itself, which the guard as
  // written and the corrected guard share: they hold for every quantity,
  // zero and negative ones included.

  /** Merge: when the medication has a row, only that row's quantity grows by
      the entry's quantity; its lot, expiry and minimum stay, and every other
      row and the length of the table stay. */
  lemma {:induction false} AplicarSomaNaLinhaExistente(estoque: seq<LinhaEstoque>, e: NovaEntrada, novoId: string, hoje: string, k: nat)
    requires IdsUnicos(estoque)
    requires e.quantidade.Some?
    requires IndiceEstoque(estoque, e.medicamentoId) == Some(k)
    ensures var r := AplicarEntrada(estoque, e, novoId, hoje);
            && |r| == |estoque|
            && r[k] == estoque[k].(quantidadeAtual := estoque[k].quantidadeAtual + e.quantidade.value)
            && r[k].lote == estoque[k].lote
            && r[k].dataValidade == estoque[k].dataValidade
            && r[k].quantidadeMinima == estoque[k].quantidadeMinima
            && forall j :: 0 <= j < |estoque| && j != k ==> r[j] == estoque[j]
  {
    var r := AplicarEntrada(estoque, e, novoId, hoje);
    assert r == DefinirQuantidadePorId(estoque, estoque[k].id, estoque[k].quantidadeAtual + e.quantidade.value);
    forall j | 0 <= j < |estoque| && j != k
      ensures r[j] == estoque[j]
    {
      if j < k {
        assert estoque[j].id != estoque[k].id;
      } else {
        assert estoque[k].id != estoque[j].id;
      }
    }
  }

  /** Insert: when the medication has no row, exactly one row is appended, with
      the given quantity, lot and expiry and the default minimum of 10. */
  lemma AplicarInsereLinhaNova(estoque: seq<LinhaEstoque>, e: NovaEntrada, novoId: string, hoje: string)
    requires e.quantidade.Some?
    requires IndiceEstoque(estoque, e.medicamentoId).None?
    ensures var r := AplicarEntrada(estoque, e, novoId, hoje);
            && r[..|estoque|] == estoque
            && |r| == |estoque| + 1
            && r[|estoque|].id == novoId
            && r[|estoque|].medicamentoId == e.medicamentoId
            && r[|estoque|].quantidadeAtual == e.quantidade.value
            && r[|estoque|].lote == e.lote
            && r[|estoque|].dataValidade == e.dataValidade
            && r[|estoque|].quantidadeMinima == 10
  {
    assert (estoque + [NovaLinha(e, novoId, hoje)])[..|estoque|] == estoque;
  }

  /** Every write keeps the table at one row per medication. */
  lemma {:induction false} AplicarPreservaUmaLinha(estoque: seq<LinhaEstoque>, e: NovaEntrada, novoId: string, hoje: string)
    requires UmaLinhaPorMedicamento(estoque)
    requires e.quantidade.Some?
    ensures UmaLinhaPorMedicamento(AplicarEntrada(estoque, e, novoId, hoje))
  {
    var r := AplicarEntrada(estoque, e, novoId, hoje);
    match IndiceEstoque(estoque, e.medicamentoId)
    case Some(k) =>
      assert forall i :: 0 <= i < |r| ==> r[i].medicamentoId == estoque[i].medicamentoId;
    case None =>
      assert forall i :: 0 <= i < |estoque| ==> r[i] == estoque[i];
  }

  /** Every write keeps stock ids unique, provided the new id is not already used. */
  lemma {:induction false} AplicarPreservaIds(estoque: seq<LinhaEstoque>, e: NovaEntrada, novoId: string, hoje: string)
    requires IdsUnicos(estoque)
    requires novoId !in Ids(estoque)
    requires e.quantidade.Some?
    ensures IdsUnicos(AplicarEntrada(estoque, e, novoId, hoje))
  {
    var r := AplicarEntrada(estoque, e, novoId, hoje);
    match IndiceEstoque(estoque, e.medicamentoId)
    case Some(k) =>
      assert forall i :: 0 <= i < |r| ==> r[i].id == estoque[i].id;
    case None =>
      assert forall i :: 0 <= i < |estoque| ==> r[i] == estoque[i];
      forall i | 0 <= i < |estoque|
        ensures r[i].id != novoId
      {
        assert Ids(estoque)[i] == estoque[i].id;
      }
  }

  /** With the corrected guard no quantity ever goes below zero. */
  lemma {:induction false} AdicionarPreservaNaoNegativas(estoque: seq<LinhaEstoque>, e: NovaEntrada, novoId: string, hoje: string)
    requires QuantidadesNaoNegativas(estoque)
    requires Adicionar(estoque, e, novoId, hoje).Some?
    ensures QuantidadesNaoNegativas(Adicionar(estoque, e, novoId, hoje).value)
  {
    var r := Adicionar(estoque, e, novoId, hoje).value;
    match IndiceEstoque(estoque, e.medicamentoId)
    case Some(k) =>
      forall i | 0 <= i < |r|
        ensures r[i].quantidadeAtual >= 0
      {
        if estoque[i].id == estoque[k].id {
          assert r[i].quantidadeAtual == estoque[k].quantidadeAtual + e.quantidade.value;
        }
      }
    case None =>
  }

  /** The stock screen's state: the stock table as last loaded, the medications
      of the picker, the add-stock form and whether its dialog is open. */
  class ControleEstoque {
    var estoque: seq<LinhaEstoque>
    var medicamentos: seq<Medicamento>
    var novaEntrada: NovaEntrada
    var dialogOpen: bool
    var searchTerm: string

    /** The screen after `carregarDados` has loaded both tables. */
    constructor (estoque: seq<LinhaEstoque>, medicamentos: seq<Medicamento>)
      ensures this.estoque == estoque && this.medicamentos == medicamentos
      ensures novaEntrada == EntradaVazia && !dialogOpen && searchTerm == ""
    {
      this.estoque := estoque;
      this.medicamentos := medicamentos;
      novaEntrada := EntradaVazia;
      dialogOpen := false;
      searchTerm := "";
    }

    /** The form's `onChange` handlers, taken together. */
    method PreencherEntrada(e: NovaEntrada)
      modifies this
      ensures novaEntrada == e
      ensures estoque == old(estoque) && medicamentos == old(medicamentos)
      ensures dialogOpen == old(dialogOpen) && searchTerm == old(searchTerm)
    {
      novaEntrada := e;
    }

    /** The rows the table shows: the stock search applied to the loaded stock. */
    function EstoquesVisiveis(): seq<LinhaEstoque>
      reads this
    {
      EstoquesFiltrados(estoque, medicamentos, searchTerm)
    }

    /** The search box's `onChange`: the term changes, and the table then shows
        exactly the rows whose medication matches it. */
    method DefinirBusca(termo: string)
      modifies this
      ensures searchTerm == termo
      ensures estoque == old(estoque) && medicamentos == old(medicamentos)
      ensures novaEntrada == old(novaEntrada) && dialogOpen == old(dialogOpen)
      ensures forall i :: 0 <= i < |estoque| ==>
        (estoque[i] in EstoquesVisiveis() <==> LinhaVisivel(medicamentos, termo, estoque[i]))
    {
      searchTerm := termo;
    }

    /** `adicionarEstoque` with the corrected guard. `novoId` is the id the
        backend gives an inserted row, `hoje` today's date, and `escritaOk`
        whether the update or insert succeeded. On success the form is reset,
        the dialog closes and the reloaded table is the written one. */
    method AdicionarEstoque(novoId: string, hoje: string, escritaOk: bool)
      modifies this
      ensures (!EntradaAceita(old(novaEntrada)) || !escritaOk) ==>
        estoque == old(estoque) && novaEntrada == old(novaEntrada) && dialogOpen == old(dialogOpen)
      ensures EntradaAceita(old(novaEntrada)) && escritaOk ==>
        Adicionar(old(estoque), old(novaEntrada), novoId, hoje) == Some(estoque) &&
        novaEntrada == EntradaVazia && !dialogOpen
      ensures medicamentos == old(medicamentos) && searchTerm == old(searchTerm)
      ensures old(UmaLinhaPorMedicamento(estoque)) ==> UmaLinhaPorMedicamento(estoque)
      ensures old(QuantidadesNaoNegativas(estoque)) ==> QuantidadesNaoNegativas(estoque)
      ensures old(IdsUnicos(estoque)) && novoId !in old(Ids(estoque)) ==> IdsUnicos(estoque)
    {
      if !EntradaAceita(novaEntrada) {
        return;
      }
      if !escritaOk {
        return;
      }
      ghost var antes := estoque;
      var quantidade := novaEntrada.quantidade.value;
      var existente := IndiceEstoque(estoque, novaEntrada.medicamentoId);
      if existente.Some? {
        var linha := estoque[existente.value];
        estoque := DefinirQuantidadePorId(estoque, linha.id, linha.quantidadeAtual + quantidade);
      } else {
        estoque := estoque + [NovaLinha(novaEntrada, novoId, hoje)];
      }
      assert Adicionar(antes, novaEntrada, novoId, hoje) == Some(estoque);
      if UmaLinhaPorMedicamento(antes) {
        AplicarPreservaUmaLinha(antes, novaEntrada, novoId, hoje);
      }
      if QuantidadesNaoNegativas(antes) {
        AdicionarPreservaNaoNegativas(antes, novaEntrada, novoId, hoje);
      }
      if IdsUnicos(antes) && novoId !in Ids(antes) {
        AplicarPreservaIds(antes, novaEntrada, novoId, hoje);
      }
      novaEntrada := EntradaVazia;
      dialogOpen := false;
    }
  }
}
