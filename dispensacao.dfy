/** The dispensing screen (src/components/DispensacaoMedicamentos.tsx): CPF
    formatting, patient registration, the check-then-decrement dispensing and
    the patient and medication pickers. */
module Dispensacao {
  import opened Colecoes
  import opened Texto
  import opened Registros
  import Estoque

  // ---------------------------------------------------------------- CPF

  /** `formatarCPF`: keep the digits, then rewrite the first eleven as
      DDD.DDD.DDD-DD; further digits follow unchanged, fewer than eleven are
      returned bare. */
  function FormatarCpf(cpf: string): (r: string)
    ensures |SoDigitos(cpf)| >= 11 ==> |r| == |SoDigitos(cpf)| + 3 && r[3] == '.' && r[7] == '.' && r[11] == '-'
    ensures |SoDigitos(cpf)| < 11 ==> r == SoDigitos(cpf)
  {
    var n := SoDigitos(cpf);
    if |n| >= 11 then n[..3] + "." + n[3..6] + "." + n[6..9] + "-" + n[9..11] + n[11..]
    else n
  }

  /** The punctuated pattern DDD.DDD.DDD-DD. */
  predicate FormatoCpf(s: string)
  {
    |s| == 14 &&
    forall i :: 0 <= i < 14 ==>
      if i == 3 || i == 7 then s[i] == '.'
      else if i == 11 then s[i] == '-'
      else EhDigito(s[i])
  }

  predicate NaoPontuacao(c: char)
  {
    c != '.' && c != '-'
  }

  /** The string with every '.' and '-' removed. */
  function SemPontuacao(s: string): string
  {
    Filtrar(s, NaoPontuacao)
  }

  lemma SemPontuacaoConcat(a: string, b: string)
    ensures SemPontuacao(a + b) == SemPontuacao(a) + SemPontuacao(b)
  {
    FiltrarConcat(a, b, NaoPontuacao);
  }

  lemma SemPontuacaoDeDigitos(s: string)
    requires SoDigitosEm(s)
    ensures SemPontuacao(s) == s
  {
    FiltrarTodos(s, NaoPontuacao);
  }

  /** A run of digits followed by one separator: the separator is dropped by
      both the punctuation filter and the digit filter. */
  lemma Passo(pre: string, x: string, sep: string)
    requires SoDigitosEm(x)
    requires sep == "." || sep == "-"
    ensures SemPontuacao(pre + x + sep) == SemPontuacao(pre) + x
    ensures SoDigitos(pre + x + sep) == SoDigitos(pre) + x
  {
    SemPontuacaoConcat(pre + x, sep);
    SemPontuacaoConcat(pre, x);
    SemPontuacaoDeDigitos(x);
    SoDigitosConcat(pre + x, sep);
    SoDigitosConcat(pre, x);
    SoDigitosDeDigitos(x);
    assert SemPontuacao(sep) == "";
    SoDigitosSemDigitos(sep);
  }

  /** The last run of digits, kept by both filters. */
  lemma Fim(pre: string, x: string)
    requires SoDigitosEm(x)
    ensures SemPontuacao(pre + x) == SemPontuacao(pre) + x
    ensures SoDigitos(pre + x) == SoDigitos(pre) + x
  {
    SemPontuacaoConcat(pre, x);
    SemPontuacaoDeDigitos(x);
    SoDigitosConcat(pre, x);
    SoDigitosDeDigitos(x);
  }

  lemma SoDigitosEmFatia(n: string, i: int, j: int)
    requires SoDigitosEm(n) && 0 <= i <= j <= |n|
    ensures SoDigitosEm(n[i..j])
  {
    assert forall k :: 0 <= k < j - i ==> n[i..j][k] == n[i + k];
  }

  /** The pieces of a formatted CPF, for the lemmas below. */
  lemma {:induction false} PartesFormatadas(n: string)
    requires SoDigitosEm(n) && |n| >= 11
    ensures var f := n[..3] + "." + n[3..6] + "." + n[6..9] + "-" + n[9..11] + n[11..];
            && SemPontuacao(f) == n
            && SoDigitos(f) == n
  {
    var a, b, c, d, e := n[..3], n[3..6], n[6..9], n[9..11], n[11..];
    SoDigitosEmFatia(n, 0, 3);
    SoDigitosEmFatia(n, 3, 6);
    SoDigitosEmFatia(n, 6, 9);
    SoDigitosEmFatia(n, 9, 11);
    SoDigitosEmFatia(n, 11, |n|);
    var t1 := "" + a + ".";
    Passo("", a, ".");
    var t2 := t1 + b + ".";
    Passo(t1, b, ".");
    var t3 := t2 + c + "-";
    Passo(t2, c, "-");
    var t4 := t3 + d;
    Fim(t3, d);
    Fim(t4, e);
    assert SemPontuacao("") == "" && SoDigitos("") == "";
    assert a + b + c + d + e == n;
    assert t4 + e == n[..3] + "." + n[3..6] + "." + n[6..9] + "-" + n[9..11] + n[11..];
  }

  /** Removing the punctuation from a formatted CPF gives back exactly the
      digits of the input. */
  lemma FormatarCpfPreservaDigitos(cpf: string)
    ensures SemPontuacao(FormatarCpf(cpf)) == SoDigitos(cpf)
    ensures SoDigitos(FormatarCpf(cpf)) == SoDigitos(cpf)
  {
    var n := SoDigitos(cpf);
    if |n| >= 11 {
      PartesFormatadas(n);
    } else {
      SemPontuacaoDeDigitos(n);
      SoDigitosDeDigitos(n);
    }
  }

  /** Eleven digits give the 14-character pattern, carrying the digits in order;
      fewer than eleven digits come back bare. */
  lemma {:induction false} FormatarCpfOnzeDigitos(cpf: string)
    ensures |SoDigitos(cpf)| == 11 ==>
      FormatoCpf(FormatarCpf(cpf)) &&
      var n, f := SoDigitos(cpf), FormatarCpf(cpf);
      f[..3] == n[..3] && f[4..7] == n[3..6] && f[8..11] == n[6..9] && f[12..] == n[9..]
    ensures |SoDigitos(cpf)| < 11 ==> FormatarCpf(cpf) == SoDigitos(cpf)
  {
    var n := SoDigitos(cpf);
    if |n| == 11 {
      var f := FormatarCpf(cpf);
      assert f == n[..3] + "." + n[3..6] + "." + n[6..9] + "-" + n[9..11];
      forall i | 0 <= i < 14
        ensures if i == 3 || i == 7 then f[i] == '.' else if i == 11 then f[i] == '-' else EhDigito(f[i])
      {
        if i < 3 {
          assert f[i] == n[i];
        } else if 3 < i < 7 {
          assert f[i] == n[i - 1];
        } else if 7 < i < 11 {
          assert f[i] == n[i - 2];
        } else if 11 < i {
          assert f[i] == n[i - 3];
        }
      }
    }
  }

  /** Formatting an already formatted CPF changes nothing. */
  lemma FormatarCpfIdempotente(cpf: string)
    ensures FormatarCpf(FormatarCpf(cpf)) == FormatarCpf(cpf)
  {
    FormatarCpfPreservaDigitos(cpf);
  }

  /** The digits of a CPF in the pattern are its four runs of digits. */
  lemma {:induction false} DigitosDoFormato(s: string)
    requires FormatoCpf(s)
    ensures SoDigitos(s) == s[..3] + s[4..7] + s[8..11] + s[12..]
  {
    var a, b, c, d := s[..3], s[4..7], s[8..11], s[12..];
    assert SoDigitosEm(a) by { forall i | 0 <= i < |a| ensures EhDigito(a[i]) { assert a[i] == s[i]; } }
    assert SoDigitosEm(b) by { forall i | 0 <= i < |b| ensures EhDigito(b[i]) { assert b[i] == s[i + 4]; } }
    assert SoDigitosEm(c) by { forall i | 0 <= i < |c| ensures EhDigito(c[i]) { assert c[i] == s[i + 8]; } }
    assert SoDigitosEm(d) by { forall i | 0 <= i < |d| ensures EhDigito(d[i]) { assert d[i] == s[i + 12]; } }
    var t1 := "" + a + ".";
    Passo("", a, ".");
    var t2 := t1 + b + ".";
    Passo(t1, b, ".");
    var t3 := t2 + c + "-";
    Passo(t2, c, "-");
    Fim(t3, d);
    assert SoDigitos("") == "";
    PadraoEmPartes(s);
  }

  /** A CPF in the pattern is its four runs with the separators between them. */
  lemma PadraoEmPartes(s: string)
    requires FormatoCpf(s)
    ensures s == "" + s[..3] + "." + s[4..7] + "." + s[8..11] + "-" + s[12..]
  {
    assert s[3] == '.' && s[7] == '.' && s[11] == '-';
  }

  /** Round trip: a CPF in the pattern DDD.DDD.DDD-DD is its own format, and
      its digits format back to it. */
  lemma FormatoCpfPontoFixo(s: string)
    requires FormatoCpf(s)
    ensures |SoDigitos(s)| == 11
    ensures FormatarCpf(s) == s
  {
    DigitosDoFormato(s);
    PadraoEmPartes(s);
    var n := SoDigitos(s);
    assert n[..3] == s[..3] && n[3..6] == s[4..7] && n[6..9] == s[8..11] && n[9..11] == s[12..] && n[11..] == [];
  }

  /** A patient whose stored CPF was formatted from eleven digits is never found
      by the patient search through its CPF when the search term is those eleven
      bare digits: every 11-character window of the stored CPF holds a '.'. */
  lemma {:induction false} BuscaPorCpfSemPontuacaoFalha(cpf: string)
    requires |SoDigitos(cpf)| == 11
    ensures !Inclui(FormatarCpf(cpf), SoDigitos(cpf))
  {
    var n, f := SoDigitos(cpf), FormatarCpf(cpf);
    FormatarCpfOnzeDigitos(cpf);
    IncluiSeOcorre(f, n);
    forall i | 0 <= i && i + |n| <= |f|
      ensures !OcorreEm(f, n, i)
    {
      assert f[i..i + 11][7 - i] == f[7] == '.';
      assert EhDigito(n[7 - i]);
    }
  }

  // ---------------------------------------------------------------- forms

  /** The dispensing form; an empty quantity field is `None`. */
  datatype FormDispensacao = FormDispensacao(pacienteId: string, medicamentoId: string, quantidade: Option<int>, observacoes: string)

  const FormDispensacaoVazio := FormDispensacao("", "", None, "")

  /** The new-patient form. */
  datatype FormPaciente = FormPaciente(nome: string, cpf: string, dataNascimento: string, telefone: string, endereco: string)

  const FormPacienteVazio := FormPaciente("", "", "", "", "")

  /** A row inserted into the dispensations table. */
  datatype NovaDispensacao = NovaDispensacao(
    pacienteId: string,
    medicamentoId: string,
    quantidadeDispensada: int,
    observacoes: string,
    usuarioDispensacao: string)

  /** `usuario?.nome_completo || 'Sistema'`. */
  function UsuarioDispensacao(usuario: Option<Usuario>): (r: string)
    ensures r != ""
    ensures usuario.Some? && usuario.value.nomeCompleto != "" ==> r == usuario.value.nomeCompleto
    ensures usuario.None? || usuario.value.nomeCompleto == "" ==> r == "Sistema"
  {
    if usuario.Some? && usuario.value.nomeCompleto != "" then usuario.value.nomeCompleto else "Sistema"
  }

  // ---------------------------------------------------------------- dispensing check

  datatype Verificacao =
    | CamposObrigatorios          // a required field is empty
    | QuantidadeInsuficiente      // no stock row, or less stock than requested
    | Liberada(linha: nat, quantidade: int)

  /** `k` is the position of the medication's first stock row, the one `estoque.find` returns. */
  ghost predicate PrimeiraLinha(estoque: seq<LinhaEstoque>, medicamentoId: string, k: int)
  {
    && 0 <= k < |estoque|
    && estoque[k].medicamentoId == medicamentoId
    && forall j :: 0 <= j < k ==> estoque[j].medicamentoId != medicamentoId
  }

  /** The two guards of `realizarDispensacao`: the required fields, then a
      stock row for the medication holding at least the requested quantity. */
  function VerificarDispensacao(estoque: seq<LinhaEstoque>, form: FormDispensacao): (v: Verificacao)
    ensures v.Liberada? ==>
      && form.quantidade == Some(v.quantidade)
      && PrimeiraLinha(estoque, form.medicamentoId, v.linha)
      && estoque[v.linha].quantidadeAtual >= v.quantidade
  {
    if form.pacienteId == "" || form.medicamentoId == "" || form.quantidade.None? then CamposObrigatorios
    else match IndiceEstoque(estoque, form.medicamentoId)
      case None => QuantidadeInsuficiente
      case Some(k) =>
        if estoque[k].quantidadeAtual < form.quantidade.value then QuantidadeInsuficiente
        else Liberada(k, form.quantidade.value)
  }

  /** The outcomes of the check: a required field is empty; or the fields are
      filled but the medication has no row, or its first row holds less than
      requested; or the dispensing is released with that first row. */
  lemma VerificarDispensacaoCasos(estoque: seq<LinhaEstoque>, form: FormDispensacao)
    ensures VerificarDispensacao(estoque, form) == CamposObrigatorios <==>
      form.pacienteId == "" || form.medicamentoId == "" || form.quantidade.None?
    ensures VerificarDispensacao(estoque, form) == QuantidadeInsuficiente <==>
      && form.pacienteId != "" && form.medicamentoId != "" && form.quantidade.Some?
      && !exists k :: PrimeiraLinha(estoque, form.medicamentoId, k) && estoque[k].quantidadeAtual >= form.quantidade.value
  {
    match IndiceEstoque(estoque, form.medicamentoId)
    case None =>
    case Some(k) =>
      assert forall k' :: PrimeiraLinha(estoque, form.medicamentoId, k') ==> k' == k;
  }

  /** After a released dispensing, the row decremented is the medication's first
      row; its new quantity is its old one minus the quantity and is not
      negative; every other row is as it was (stock ids being unique). */
  lemma {:induction false} DescontoSoNaLinha(estoque: seq<LinhaEstoque>, form: FormDispensacao, k: nat, q: int)
    requires IdsUnicos(estoque)
    requires VerificarDispensacao(estoque, form) == Liberada(k, q)
    ensures var r := DescontarPorId(estoque, estoque[k].id, q);
            && |r| == |estoque|
            && r[k] == estoque[k].(quantidadeAtual := estoque[k].quantidadeAtual - q)
            && r[k].quantidadeAtual >= 0
            && forall j :: 0 <= j < |estoque| && j != k ==> r[j] == estoque[j]
  {
    var r := DescontarPorId(estoque, estoque[k].id, q);
    forall j | 0 <= j < |estoque| && j != k
      ensures r[j] == estoque[j]
    {
      if j < k {
        assert estoque[j].id != estoque[k].id;
      } else {
        assert estoque[k].id != estoque[j].id;
      }
    }
  }

  /** The stock invariants survive a released dispensing: unique ids and one
      row per medication always, non-negative quantities when ids are unique. */
  lemma DescontoPreservaInvariantes(estoque: seq<LinhaEstoque>, form: FormDispensacao, k: nat, q: int)
    requires VerificarDispensacao(estoque, form) == Liberada(k, q)
    ensures IdsUnicos(estoque) ==> IdsUnicos(DescontarPorId(estoque, estoque[k].id, q))
    ensures UmaLinhaPorMedicamento(estoque) ==> UmaLinhaPorMedicamento(DescontarPorId(estoque, estoque[k].id, q))
    ensures IdsUnicos(estoque) && QuantidadesNaoNegativas(estoque) ==>
      QuantidadesNaoNegativas(DescontarPorId(estoque, estoque[k].id, q))
  {
    var r := DescontarPorId(estoque, estoque[k].id, q);
    assert forall i :: 0 <= i < |r| ==> r[i].id == estoque[i].id && r[i].medicamentoId == estoque[i].medicamentoId;
    if IdsUnicos(estoque) && QuantidadesNaoNegativas(estoque) {
      DescontoSoNaLinha(estoque, form, k, q);
    }
  }

  // ---------------------------------------------------------------- pickers

  /** The patient search: the name contains the term ignoring case, or the
      stored CPF contains the term exactly. */
  predicate CasaPaciente(p: Paciente, busca: string)
  {
    IncluiSemCaixa(p.nome, busca) || Inclui(p.cpf, busca)
  }

  /** `pacientesFiltrados`. */
  function PacientesFiltrados(pacientes: seq<Paciente>, busca: string): (r: seq<Paciente>)
    ensures Subsequencia(r, pacientes)
    ensures forall i :: 0 <= i < |r| ==> r[i] in pacientes && CasaPaciente(r[i], busca)
    ensures forall i :: 0 <= i < |pacientes| && CasaPaciente(pacientes[i], busca) ==> pacientes[i] in r
  {
    var p := (x: Paciente) => CasaPaciente(x, busca);
    FiltrarSubsequencia(pacientes, p);
    FiltrarPertence(pacientes, p);
    Filtrar(pacientes, p)
  }

  /** An empty search lists every patient. */
  lemma BuscaPacienteVazia(pacientes: seq<Paciente>)
    ensures PacientesFiltrados(pacientes, "") == pacientes
  {
    forall i | 0 <= i < |pacientes|
      ensures CasaPaciente(pacientes[i], "")
    {
      IncluiSemCaixaVazio(pacientes[i].nome);
    }
    FiltrarTodos(pacientes, (x: Paciente) => CasaPaciente(x, ""));
  }

  /** A medication of the picker with the quantity shown beside it. */
  datatype MedicamentoComEstoque = MedicamentoComEstoque(medicamento: Medicamento, quantidadeEstoque: int)

  /** `estoqueItem?.quantidade_atual || 0`: the first row's quantity, 0 without a row. */
  function QuantidadeEmEstoque(estoque: seq<LinhaEstoque>, medicamentoId: string): (r: int)
    ensures forall k :: PrimeiraLinha(estoque, medicamentoId, k) ==> r == estoque[k].quantidadeAtual
    ensures (forall k :: 0 <= k < |estoque| ==> estoque[k].medicamentoId != medicamentoId) ==> r == 0
  {
    match IndiceEstoque(estoque, medicamentoId)
    case None => 0
    case Some(k) => estoque[k].quantidadeAtual
  }

  function ComEstoque(medicamentos: seq<Medicamento>, estoque: seq<LinhaEstoque>): (r: seq<MedicamentoComEstoque>)
    ensures |r| == |medicamentos|
    ensures forall i :: 0 <= i < |r| ==>
      r[i] == MedicamentoComEstoque(medicamentos[i], QuantidadeEmEstoque(estoque, medicamentos[i].id))
  {
    seq(|medicamentos|, i requires 0 <= i < |medicamentos| =>
      MedicamentoComEstoque(medicamentos[i], QuantidadeEmEstoque(estoque, medicamentos[i].id)))
  }

  predicate TemEstoque(m: MedicamentoComEstoque)
  {
    m.quantidadeEstoque > 0
  }

  /** `medicamentosComEstoque`: exactly the medications whose stock is positive,
      each with that quantity, in the medications' order. */
  function MedicamentosComEstoque(medicamentos: seq<Medicamento>, estoque: seq<LinhaEstoque>): (r: seq<MedicamentoComEstoque>)
    ensures forall i :: 0 <= i < |r| ==>
      && r[i].medicamento in medicamentos
      && r[i].quantidadeEstoque == QuantidadeEmEstoque(estoque, r[i].medicamento.id)
      && r[i].quantidadeEstoque > 0
    ensures forall i :: 0 <= i < |medicamentos| && QuantidadeEmEstoque(estoque, medicamentos[i].id) > 0 ==>
      MedicamentoComEstoque(medicamentos[i], QuantidadeEmEstoque(estoque, medicamentos[i].id)) in r
    ensures Subsequencia(r, ComEstoque(medicamentos, estoque))
  {
    var todos := ComEstoque(medicamentos, estoque);
    assert forall i :: 0 <= i < |todos| ==> todos[i].medicamento == medicamentos[i];
    FiltrarSubsequencia(todos, TemEstoque);
    FiltrarPertence(todos, TemEstoque);
    Filtrar(todos, TemEstoque)
  }

  /** A medication without any stock row is never offered. */
  lemma SemLinhaNaoOferecido(medicamentos: seq<Medicamento>, estoque: seq<LinhaEstoque>, m: Medicamento)
    requires IndiceEstoque(estoque, m.id).None?
    ensures forall i :: 0 <= i < |MedicamentosComEstoque(medicamentos, estoque)| ==>
      MedicamentosComEstoque(medicamentos, estoque)[i].medicamento != m
  {
  }

  /** Choosing a medication from the picker and at most the quantity shown
      passes the stock check. */
  lemma {:induction false} EscolhaDoSeletorLiberada(medicamentos: seq<Medicamento>, estoque: seq<LinhaEstoque>, m: MedicamentoComEstoque, form: FormDispensacao)
    requires m in MedicamentosComEstoque(medicamentos, estoque)
    requires form.pacienteId != "" && form.medicamentoId == m.medicamento.id && m.medicamento.id != ""
    requires form.quantidade.Some? && form.quantidade.value <= m.quantidadeEstoque
    ensures VerificarDispensacao(estoque, form).Liberada?
  {
    var r := MedicamentosComEstoque(medicamentos, estoque);
    var i :| 0 <= i < |r| && r[i] == m;
    assert m.quantidadeEstoque == QuantidadeEmEstoque(estoque, m.medicamento.id) > 0;
    assert IndiceEstoque(estoque, m.medicamento.id).Some?;
  }

  /** The medication search on the picker: name or active ingredient, ignoring case. */
  predicate CasaMedicamento(m: MedicamentoComEstoque, busca: string)
  {
    IncluiSemCaixa(m.medicamento.nome, busca) || IncluiSemCaixa(m.medicamento.principioAtivo, busca)
  }

  /** `medicamentosFiltrados`. */
  function MedicamentosFiltrados(lista: seq<MedicamentoComEstoque>, busca: string): (r: seq<MedicamentoComEstoque>)
    ensures Subsequencia(r, lista)
    ensures forall i :: 0 <= i < |r| ==> r[i] in lista && CasaMedicamento(r[i], busca)
    ensures forall i :: 0 <= i < |lista| && CasaMedicamento(lista[i], busca) ==> lista[i] in r
  {
    var p := (x: MedicamentoComEstoque) => CasaMedicamento(x, busca);
    FiltrarSubsequencia(lista, p);
    FiltrarPertence(lista, p);
    Filtrar(lista, p)
  }

  // ---------------------------------------------------------------- the screen

  datatype Resultado = Sucesso | Falha(motivo: Motivo)

  datatype Motivo = FaltamCampos | EstoqueInsuficiente | ErroNoBanco

  /** The dispensing screen's state, with the dispensations table it writes to. */
  class DispensacaoMedicamentos {
    var medicamentos: seq<Medicamento>
    var estoque: seq<LinhaEstoque>
    var pacientes: seq<Paciente>
    var dispensacoes: seq<NovaDispensacao>
    var dispensacao: FormDispensacao
    var novoPaciente: FormPaciente
    var showNovoPaciente: bool
    var searchPaciente: string
    var searchMedicamento: string

    /** The screen after `carregarDados`, over the dispensations already recorded. */
    constructor (medicamentos: seq<Medicamento>, estoque: seq<LinhaEstoque>, pacientes: seq<Paciente>, dispensacoes: seq<NovaDispensacao>)
      ensures this.medicamentos == medicamentos && this.estoque == estoque
      ensures this.pacientes == pacientes && this.dispensacoes == dispensacoes
      ensures dispensacao == FormDispensacaoVazio && novoPaciente == FormPacienteVazio
      ensures !showNovoPaciente && searchPaciente == "" && searchMedicamento == ""
    {
      this.medicamentos := medicamentos;
      this.estoque := estoque;
      this.pacientes := pacientes;
      this.dispensacoes := dispensacoes;
      dispensacao := FormDispensacaoVazio;
      novoPaciente := FormPacienteVazio;
      showNovoPaciente := false;
      searchPaciente := "";
      searchMedicamento := "";
    }

    /** The patients the picker lists for the current search. */
    function PacientesVisiveis(): seq<Paciente>
      reads this
    {
      PacientesFiltrados(pacientes, searchPaciente)
    }

    /** The medications the picker lists for the current search. */
    function MedicamentosVisiveis(): seq<MedicamentoComEstoque>
      reads this
    {
      MedicamentosFiltrados(MedicamentosComEstoque(medicamentos, estoque), searchMedicamento)
    }

    /** The patient search box's `onChange`: the picker then lists exactly the
        patients matching the term. */
    method DefinirBuscaPaciente(termo: string)
      modifies this
      ensures searchPaciente == termo
      ensures estoque == old(estoque) && dispensacoes == old(dispensacoes) && pacientes == old(pacientes)
      ensures medicamentos == old(medicamentos) && dispensacao == old(dispensacao) && novoPaciente == old(novoPaciente)
      ensures showNovoPaciente == old(showNovoPaciente) && searchMedicamento == old(searchMedicamento)
      ensures forall i :: 0 <= i < |pacientes| ==>
        (pacientes[i] in PacientesVisiveis() <==> CasaPaciente(pacientes[i], termo))
    {
      searchPaciente := termo;
    }

    /** The medication search box's `onChange`: the picker then lists exactly the
        medications in stock matching the term. */
    method DefinirBuscaMedicamento(termo: string)
      modifies this
      ensures searchMedicamento == termo
      ensures estoque == old(estoque) && dispensacoes == old(dispensacoes) && pacientes == old(pacientes)
      ensures medicamentos == old(medicamentos) && dispensacao == old(dispensacao) && novoPaciente == old(novoPaciente)
      ensures showNovoPaciente == old(showNovoPaciente) && searchPaciente == old(searchPaciente)
      ensures var lista := MedicamentosComEstoque(medicamentos, estoque);
        forall i :: 0 <= i < |lista| ==> (lista[i] in MedicamentosVisiveis() <==> CasaMedicamento(lista[i], termo))
    {
      searchMedicamento := termo;
    }

    /** The dispensing form's `onChange` handlers, taken together. */
    method PreencherDispensacao(form: FormDispensacao)
      modifies this
      ensures dispensacao == form
      ensures estoque == old(estoque) && dispensacoes == old(dispensacoes) && pacientes == old(pacientes)
      ensures medicamentos == old(medicamentos) && novoPaciente == old(novoPaciente)
      ensures showNovoPaciente == old(showNovoPaciente)
      ensures searchPaciente == old(searchPaciente) && searchMedicamento == old(searchMedicamento)
    {
      dispensacao := form;
    }

    /** The new-patient form's `onChange` handlers, taken together. */
    method PreencherPaciente(form: FormPaciente)
      modifies this
      ensures novoPaciente == form
      ensures estoque == old(estoque) && dispensacoes == old(dispensacoes) && pacientes == old(pacientes)
      ensures medicamentos == old(medicamentos) && dispensacao == old(dispensacao)
      ensures showNovoPaciente == old(showNovoPaciente)
      ensures searchPaciente == old(searchPaciente) && searchMedicamento == old(searchMedicamento)
    {
      novoPaciente := form;
    }

    /** `cadastrarPaciente`: name and CPF are required; the patient is stored
        with a formatted CPF. `idInserido` is the id of the inserted row, or
        `None` when the insert failed. */
    method CadastrarPaciente(idInserido: Option<string>)
      modifies this
      ensures (old(novoPaciente.nome) == "" || old(novoPaciente.cpf) == "" || idInserido.None?) ==>
        pacientes == old(pacientes) && dispensacao == old(dispensacao) &&
        novoPaciente == old(novoPaciente) && showNovoPaciente == old(showNovoPaciente)
      ensures old(novoPaciente.nome) != "" && old(novoPaciente.cpf) != "" && idInserido.Some? ==>
        var f := old(novoPaciente);
        && pacientes == old(pacientes) + [Paciente(idInserido.value, f.nome, FormatarCpf(f.cpf), f.dataNascimento, f.telefone, f.endereco)]
        && dispensacao == old(dispensacao).(pacienteId := idInserido.value)
        && novoPaciente == FormPacienteVazio
        && !showNovoPaciente
      ensures estoque == old(estoque) && dispensacoes == old(dispensacoes) && medicamentos == old(medicamentos)
      ensures searchPaciente == old(searchPaciente) && searchMedicamento == old(searchMedicamento)
    {
      if novoPaciente.nome == "" || novoPaciente.cpf == "" {
        return;
      }
      if idInserido.None? {
        return;
      }
      var id := idInserido.value;
      var novo := Paciente(id, novoPaciente.nome, FormatarCpf(novoPaciente.cpf),
                           novoPaciente.dataNascimento, novoPaciente.telefone, novoPaciente.endereco);
      pacientes := pacientes + [novo];
      dispensacao := dispensacao.(pacienteId := id);
      novoPaciente := FormPacienteVazio;
      showNovoPaciente := false;
    }

    /** The local effect of a completed dispensing: the stock row loses the
        quantity, and the form and the medication search are cleared. */
    method ConcluirDispensacao(id: string, quantidade: int)
      modifies this
      ensures estoque == DescontarPorId(old(estoque), id, quantidade)
      ensures dispensacao == FormDispensacaoVazio && searchMedicamento == ""
      ensures dispensacoes == old(dispensacoes) && pacientes == old(pacientes) && medicamentos == old(medicamentos)
      ensures novoPaciente == old(novoPaciente) && showNovoPaciente == old(showNovoPaciente)
      ensures searchPaciente == old(searchPaciente)
    {
      estoque := DescontarPorId(estoque, id, quantidade);
      dispensacao := FormDispensacaoVazio;
      searchMedicamento := "";
    }

    /** `realizarDispensacao`. `usuario` is the logged-in user, `insercaoOk`
        whether the dispensation insert succeeded and `atualizacaoOk` whether
        the stock update that follows it succeeded. A rejection writes nothing;
        a failed stock update leaves the recorded dispensation in place. */
    method RealizarDispensacao(usuario: Option<Usuario>, insercaoOk: bool, atualizacaoOk: bool) returns (res: Resultado)
      modifies this
      ensures pacientes == old(pacientes) && medicamentos == old(medicamentos) && novoPaciente == old(novoPaciente)
      ensures showNovoPaciente == old(showNovoPaciente) && searchPaciente == old(searchPaciente)
      ensures VerificarDispensacao(old(estoque), old(dispensacao)) == CamposObrigatorios ==> res == Falha(FaltamCampos)
      ensures VerificarDispensacao(old(estoque), old(dispensacao)) == QuantidadeInsuficiente ==> res == Falha(EstoqueInsuficiente)
      ensures VerificarDispensacao(old(estoque), old(dispensacao)).Liberada? && !insercaoOk ==> res == Falha(ErroNoBanco)
      ensures !VerificarDispensacao(old(estoque), old(dispensacao)).Liberada? || !insercaoOk ==>
        dispensacoes == old(dispensacoes) && estoque == old(estoque) && dispensacao == old(dispensacao)
      ensures var v := VerificarDispensacao(old(estoque), old(dispensacao));
        v.Liberada? && insercaoOk ==>
          dispensacoes == old(dispensacoes) + [NovaDispensacao(old(dispensacao.pacienteId), old(dispensacao.medicamentoId),
                                                              v.quantidade, old(dispensacao.observacoes),
                                                              UsuarioDispensacao(usuario))]
      ensures VerificarDispensacao(old(estoque), old(dispensacao)).Liberada? && insercaoOk && !atualizacaoOk ==>
        res == Falha(ErroNoBanco) && estoque == old(estoque) && dispensacao == old(dispensacao)
      ensures var v := VerificarDispensacao(old(estoque), old(dispensacao));
        v.Liberada? && insercaoOk && atualizacaoOk ==>
          && res == Sucesso
          && estoque == DescontarPorId(old(estoque), old(estoque)[v.linha].id, v.quantidade)
          && dispensacao == FormDispensacaoVazio
          && searchMedicamento == ""
      ensures res == Sucesso ==> |dispensacoes| == |old(dispensacoes)| + 1
      ensures res != Sucesso ==> searchMedicamento == old(searchMedicamento)
    {
      var v := VerificarDispensacao(estoque, dispensacao);
      if v == CamposObrigatorios {
        res := Falha(FaltamCampos);
      } else if v == QuantidadeInsuficiente {
        res := Falha(EstoqueInsuficiente);
      } else if !insercaoOk {
        res := Falha(ErroNoBanco);
      } else {
        dispensacoes := dispensacoes + [NovaDispensacao(dispensacao.pacienteId, dispensacao.medicamentoId,
                                                        v.quantidade, dispensacao.observacoes,
                                                        UsuarioDispensacao(usuario))];
        if !atualizacaoOk {
          res := Falha(ErroNoBanco);
        } else {
          ConcluirDispensacao(estoque[v.linha].id, v.quantidade);
          res := Sucesso;
        }
      }
    }
  }

  /** The scenario of a stock row holding 5 units with minimum 10: dispensing 3
      is released and leaves 2 (low stock); a further 3 is rejected. */
  lemma CenarioDispensacao()
    ensures var estoque := [LinhaEstoque("e1", "M", 5, 10, "L1", "2026-01-01", "2025-11-01")];
            var form := FormDispensacao("P", "M", Some(3), "");
            && VerificarDispensacao(estoque, form) == Liberada(0, 3)
            && var depois := DescontarPorId(estoque, "e1", 3);
               && depois[0].quantidadeAtual == 2
               && Estoque.StatusBadge(depois[0].quantidadeAtual, depois[0].quantidadeMinima) == Estoque.EstoqueBaixo
               && VerificarDispensacao(depois, form) == QuantidadeInsuficiente
  {
    var estoque := [LinhaEstoque("e1", "M", 5, 10, "L1", "2026-01-01", "2025-11-01")];
    var form := FormDispensacao("P", "M", Some(3), "");
    assert IndiceEstoque(estoque, "M") == Some(0);
    var depois := DescontarPorId(estoque, "e1", 3);
    assert IndiceEstoque(depois, "M") == Some(0);
  }
}
