/** The rows of the pharmacy's tables (medications, stock, patients,
    dispensations) and the lookups the components do on them. */
module Registros {
  import opened Colecoes

  /** A row of the medications table. */
  datatype Medicamento = Medicamento(
    id: string,
    codigo: string,
    nome: string,
    principioAtivo: string,
    concentracao: string,
    formaFarmaceutica: string,
    apresentacao: string)

  /** A row of the stock table: one running total per medication. */
  datatype LinhaEstoque = LinhaEstoque(
    id: string,
    medicamentoId: string,
    quantidadeAtual: int,
    quantidadeMinima: int,
    lote: string,
    dataValidade: string,
    dataEntrada: string)

  /** A row of the patients table. */
  datatype Paciente = Paciente(
    id: string,
    nome: string,
    cpf: string,
    dataNascimento: string,
    telefone: string,
    endereco: string)

  /** A user as the login endpoint returns it and the browser caches it: no password. */
  datatype Usuario = Usuario(id: string, usuario: string, nomeCompleto: string, ativo: bool)

  /** The joined patient columns of a dispensation (`pacientes(nome, cpf)`). */
  datatype PacienteResumo = PacienteResumo(nome: string, cpf: string)

  /** The joined medication columns of a dispensation. */
  datatype MedicamentoResumo = MedicamentoResumo(nome: string, codigo: string, principioAtivo: string, concentracao: string)

  /** A dispensation as the report and the dashboard select it, with its joins;
      a join is absent when the referenced row is missing. */
  datatype Registro = Registro(
    id: string,
    quantidadeDispensada: int,
    dataDispensacao: string,
    observacoes: string,
    usuarioDispensacao: string,
    paciente: Option<PacienteResumo>,
    medicamento: Option<MedicamentoResumo>)

  /** `estoque.find(e => e.medicamento_id === medicamentoId)`, as the position found. */
  function IndiceEstoque(estoque: seq<LinhaEstoque>, medicamentoId: string): (r: Option<nat>)
    ensures r.Some? ==> r.value < |estoque| && estoque[r.value].medicamentoId == medicamentoId
    ensures r.Some? ==> forall j :: 0 <= j < r.value ==> estoque[j].medicamentoId != medicamentoId
    ensures r.None? <==> forall j :: 0 <= j < |estoque| ==> estoque[j].medicamentoId != medicamentoId
  {
    Primeiro(estoque, (e: LinhaEstoque) => e.medicamentoId == medicamentoId)
  }

  /** The medication a foreign key refers to (the join `medicamentos(*)`). */
  function MedicamentoPorId(medicamentos: seq<Medicamento>, id: string): (r: Option<Medicamento>)
    ensures r.Some? ==> r.value in medicamentos && r.value.id == id
    ensures r.None? <==> forall j :: 0 <= j < |medicamentos| ==> medicamentos[j].id != id
  {
    match Primeiro(medicamentos, (m: Medicamento) => m.id == id)
    case None => None
    case Some(k) => Some(medicamentos[k])
  }

  /** No two stock rows share an id (the table's primary key). */
  ghost predicate IdsUnicos(estoque: seq<LinhaEstoque>)
  {
    forall i, j :: 0 <= i < j < |estoque| ==> estoque[i].id != estoque[j].id
  }

  /** At most one stock row per medication. */
  ghost predicate UmaLinhaPorMedicamento(estoque: seq<LinhaEstoque>)
  {
    forall i, j :: 0 <= i < j < |estoque| ==> estoque[i].medicamentoId != estoque[j].medicamentoId
  }

  ghost predicate QuantidadesNaoNegativas(estoque: seq<LinhaEstoque>)
  {
    forall i :: 0 <= i < |estoque| ==> estoque[i].quantidadeAtual >= 0
  }

  /** The id of each stock row. */
  function Ids(estoque: seq<LinhaEstoque>): (r: seq<string>)
    ensures |r| == |estoque|
    ensures forall i :: 0 <= i < |estoque| ==> r[i] == estoque[i].id
  {
    seq(|estoque|, i requires 0 <= i < |estoque| => estoque[i].id)
  }

  /** Every row whose id is `id` gets quantity `valor`: the effect of
      `.update({ quantidade_atual: valor }).eq('id', id)`. */
  function DefinirQuantidadePorId(estoque: seq<LinhaEstoque>, id: string, valor: int): (r: seq<LinhaEstoque>)
    ensures |r| == |estoque|
    ensures forall i :: 0 <= i < |estoque| ==>
      r[i] == if estoque[i].id == id then estoque[i].(quantidadeAtual := valor) else estoque[i]
  {
    seq(|estoque|, i requires 0 <= i < |estoque| =>
      if estoque[i].id == id then estoque[i].(quantidadeAtual := valor) else estoque[i])
  }

  /** `estoque.map(e => e.id === id ? { ...e, quantidade_atual: e.quantidade_atual - quantidade } : e)`. */
  function DescontarPorId(estoque: seq<LinhaEstoque>, id: string, quantidade: int): (r: seq<LinhaEstoque>)
    ensures |r| == |estoque|
    ensures forall i :: 0 <= i < |estoque| ==>
      r[i] == if estoque[i].id == id
              then estoque[i].(quantidadeAtual := estoque[i].quantidadeAtual - quantidade)
              else estoque[i]
  {
    seq(|estoque|, i requires 0 <= i < |estoque| =>
      if estoque[i].id == id
      then estoque[i].(quantidadeAtual := estoque[i].quantidadeAtual - quantidade)
      else estoque[i])
  }

  /** Setting a quantity touches nothing but quantities: ids, medication, lot,
      expiry and minimum of every row stay. */
  lemma DefinirSoMudaQuantidade(estoque: seq<LinhaEstoque>, id: string, valor: int)
    ensures Ids(DefinirQuantidadePorId(estoque, id, valor)) == Ids(estoque)
    ensures forall i :: 0 <= i < |estoque| ==>
      DefinirQuantidadePorId(estoque, id, valor)[i].(quantidadeAtual := estoque[i].quantidadeAtual) == estoque[i]
  {
  }

  /** Discounting touches nothing but quantities either. */
  lemma DescontarSoMudaQuantidade(estoque: seq<LinhaEstoque>, id: string, quantidade: int)
    ensures Ids(DescontarPorId(estoque, id, quantidade)) == Ids(estoque)
    ensures forall i :: 0 <= i < |estoque| ==>
      DescontarPorId(estoque, id, quantidade)[i].(quantidadeAtual := estoque[i].quantidadeAtual) == estoque[i]
  {
  }

  /** With unique ids, discounting from row `k` is setting row `k` to its
      quantity minus the discount: the absolute value written to the database
      and the subtraction applied to the local copy give the same table. */
  lemma DescontarComoDefinir(estoque: seq<LinhaEstoque>, k: int, quantidade: int)
    requires IdsUnicos(estoque) && 0 <= k < |estoque|
    ensures DescontarPorId(estoque, estoque[k].id, quantidade) ==
            DefinirQuantidadePorId(estoque, estoque[k].id, estoque[k].quantidadeAtual - quantidade)
  {
    var a := DescontarPorId(estoque, estoque[k].id, quantidade);
    var b := DefinirQuantidadePorId(estoque, estoque[k].id, estoque[k].quantidadeAtual - quantidade);
    forall i | 0 <= i < |estoque|
      ensures a[i] == b[i]
    {
      if i < k {
        assert estoque[i].id != estoque[k].id;
      } else if i > k {
        assert estoque[k].id != estoque[i].id;
      }
    }
  }
}
