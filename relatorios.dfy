/** The dispensation report (src/components/RelatoriosDispensacao.tsx): the date
    range the query applies, the patient and medication filters applied to the
    fetched rows, clearing the filters and the export parameters. */
module Relatorios {
  import opened Colecoes
  import opened Texto
  import opened Registros
  import opened Cronologia

  /** The four filter fields of the screen; an empty field is no filter. */
  datatype Filtros = Filtros(dataInicio: string, dataFim: string, paciente: string, medicamento: string)

  const FiltrosVazios := Filtros("", "", "", "")

  /** Appended to `dataFim` so that the whole end day is included. */
  const FimDoDia := "T23:59:59"

  /** `.gte('data_dispensacao', dataInicio)` when the start date is set. */
  predicate DepoisDoInicio(f: Filtros, d: Registro)
  {
    f.dataInicio == "" || Antes(f.dataInicio, d.dataDispensacao)
  }

  /** `.lte('data_dispensacao', dataFim + 'T23:59:59')` when the end date is set. */
  predicate AntesDoFim(f: Filtros, d: Registro)
  {
    f.dataFim == "" || Antes(d.dataDispensacao, f.dataFim + FimDoDia)
  }

  predicate DentroDoPeriodo(f: Filtros, d: Registro)
  {
    DepoisDoInicio(f, d) && AntesDoFim(f, d)
  }

  /** The joined patient's name contains the term ignoring case, or its CPF
      contains the term exactly; a dispensation without a patient never matches. */
  predicate RegistroCasaPaciente(termo: string, d: Registro)
  {
    match d.paciente
    case None => false
    case Some(p) => IncluiSemCaixa(p.nome, termo) || Inclui(p.cpf, termo)
  }

  /** The joined medication's name or code contains the term, ignoring case. */
  predicate RegistroCasaMedicamento(termo: string, d: Registro)
  {
    match d.medicamento
    case None => false
    case Some(m) => IncluiSemCaixa(m.nome, termo) || IncluiSemCaixa(m.codigo, termo)
  }

  /** The client-side filters, each skipped when its field is empty. */
  predicate PassaFiltrosTexto(f: Filtros, d: Registro)
  {
    (f.paciente == "" || RegistroCasaPaciente(f.paciente, d)) &&
    (f.medicamento == "" || RegistroCasaMedicamento(f.medicamento, d))
  }

  /** Every non-empty filter, taken together. */
  predicate PassaFiltros(f: Filtros, d: Registro)
  {
    DentroDoPeriodo(f, d) && PassaFiltrosTexto(f, d)
  }

  function FiltroInicio(f: Filtros): Registro -> bool
  {
    (d: Registro) => DepoisDoInicio(f, d)
  }

  function FiltroFim(f: Filtros): Registro -> bool
  {
    (d: Registro) => AntesDoFim(f, d)
  }

  function FiltroPeriodo(f: Filtros): Registro -> bool
  {
    (d: Registro) => DentroDoPeriodo(f, d)
  }

  function FiltroPaciente(termo: string): Registro -> bool
  {
    (d: Registro) => RegistroCasaPaciente(termo, d)
  }

  function FiltroMedicamento(termo: string): Registro -> bool
  {
    (d: Registro) => RegistroCasaMedicamento(termo, d)
  }

  function FiltroTexto(f: Filtros): Registro -> bool
  {
    (d: Registro) => PassaFiltrosTexto(f, d)
  }

  function FiltroCompleto(f: Filtros): Registro -> bool
  {
    (d: Registro) => PassaFiltros(f, d)
  }

  /** What the query returns: the dispensations in the date range, most recent first. */
  function Consulta(tabela: seq<Registro>, f: Filtros): (r: seq<Registro>)
    ensures Decrescente(r)
    ensures multiset(r) == multiset(Filtrar(tabela, FiltroPeriodo(f)))
  {
    OrdenarDecrescente(Filtrar(tabela, FiltroPeriodo(f)));
    Ordenar(Filtrar(tabela, FiltroPeriodo(f)))
  }

  /** The report: the dispensations that pass every non-empty filter, most recent first. */
  function Relatorio(tabela: seq<Registro>, f: Filtros): (r: seq<Registro>)
    ensures Decrescente(r)
    ensures multiset(r) == multiset(Filtrar(tabela, FiltroCompleto(f)))
  {
    OrdenarDecrescente(Filtrar(tabela, FiltroCompleto(f)));
    Ordenar(Filtrar(tabela, FiltroCompleto(f)))
  }

  /** A dispensation is in the report exactly when it is in the table and
      passes every non-empty filter. */
  lemma RelatorioPertence(tabela: seq<Registro>, f: Filtros, d: Registro)
    ensures d in Relatorio(tabela, f) <==> d in tabela && PassaFiltros(f, d)
  {
    var t := Filtrar(tabela, FiltroCompleto(f));
    FiltrarPertence(tabela, FiltroCompleto(f));
    assert d in Relatorio(tabela, f) <==> d in multiset(t);
    if d in t {
      var i :| 0 <= i < |t| && t[i] == d;
    }
  }

  /** The report is what the query returned with the text filters applied:
      the fetched order is kept. */
  lemma RelatorioFiltraConsulta(tabela: seq<Registro>, f: Filtros)
    ensures Relatorio(tabela, f) == Filtrar(Consulta(tabela, f), FiltroTexto(f))
    ensures Subsequencia(Relatorio(tabela, f), Consulta(tabela, f))
  {
    var periodo := Filtrar(tabela, FiltroPeriodo(f));
    FiltrarOrdenar(periodo, FiltroTexto(f));
    FiltrarComposicao(tabela, FiltroPeriodo(f), FiltroTexto(f), FiltroCompleto(f));
    FiltrarSubsequencia(Consulta(tabela, f), FiltroTexto(f));
  }

  /** With every field empty the report is the whole table, most recent first. */
  lemma FiltrosVaziosMantemTudo(tabela: seq<Registro>)
    ensures Relatorio(tabela, FiltrosVazios) == Ordenar(tabela)
  {
    FiltrarTodos(tabela, FiltroCompleto(FiltrosVazios));
  }

  /** A start date includes every dispensation made on that day. */
  lemma InicioIncluiODia(f: Filtros, d: Registro, hora: string)
    requires d.dataDispensacao == f.dataInicio + hora
    ensures DepoisDoInicio(f, d)
  {
    AntesExtensao(f.dataInicio, hora);
  }

  /** An end date includes every dispensation of that day up to 23:59:59. */
  lemma FimIncluiODia(f: Filtros, d: Registro, hora: string)
    requires f.dataFim != ""
    requires d.dataDispensacao == f.dataFim + "T" + hora && Antes(hora, "23:59:59")
    ensures AntesDoFim(f, d)
  {
    assert f.dataFim + "T" + hora == (f.dataFim + "T") + hora;
    assert f.dataFim + FimDoDia == (f.dataFim + "T") + "23:59:59";
    AntesPrefixoComum(f.dataFim + "T", hora, "23:59:59");
  }

  /** A timestamp strictly longer than `dataFim + 'T23:59:59'` that extends it,
      such as one with fractions of the last second, falls outside the range. */
  lemma {:induction false} FimExcluiExtensao(p: string, resto: string)
    requires |resto| > 0
    ensures !Antes(p + resto, p)
    decreases |p|
  {
    if |p| > 0 {
      assert (p + resto)[1..] == p[1..] + resto;
      FimExcluiExtensao(p[1..], resto);
    }
  }

  /** An end date excludes a dispensation in the last second of the day that
      carries fractions of a second. */
  lemma FimExcluiFracaoDeSegundo(f: Filtros, d: Registro, fracao: string)
    requires f.dataFim != "" && |fracao| > 0 && fracao[0] == '.'
    requires d.dataDispensacao == f.dataFim + FimDoDia + fracao
    ensures !AntesDoFim(f, d)
  {
    FimExcluiExtensao(f.dataFim + FimDoDia, fracao);
  }

  /** `exportarPlanilha`'s query parameters. */
  function ParametrosExportacao(f: Filtros): (r: seq<(string, string)>)
    ensures forall i :: 0 <= i < |r| ==>
      (r[i] == ("dataInicio", f.dataInicio) || r[i] == ("dataFim", f.dataFim)) && r[i].1 != ""
    ensures f.dataInicio != "" <==> ("dataInicio", f.dataInicio) in r
    ensures f.dataFim != "" <==> ("dataFim", f.dataFim) in r
    ensures |r| == (if f.dataInicio != "" then 1 else 0) + (if f.dataFim != "" then 1 else 0)
    ensures |r| == 2 ==> r[0].0 == "dataInicio" && r[1].0 == "dataFim"
  {
    (if f.dataInicio != "" then [("dataInicio", f.dataInicio)] else []) +
    (if f.dataFim != "" then [("dataFim", f.dataFim)] else [])
  }

  /** The report screen's state: the listed dispensations and the filter fields. */
  class RelatoriosDispensacao {
    var dispensacoes: seq<Registro>
    var filtros: Filtros

    constructor ()
      ensures dispensacoes == [] && filtros == FiltrosVazios
    {
      dispensacoes := [];
      filtros := FiltrosVazios;
    }

    /** The filter inputs' `onChange` handlers, taken together. */
    method DefinirFiltros(f: Filtros)
      modifies this
      ensures filtros == f && dispensacoes == old(dispensacoes)
    {
      filtros := f;
    }

    /** `carregarDispensacoes` over the dispensations table `tabela`;
        `consultaOk` is false when the query reports an error, which leaves
        the list as it was. */
    method CarregarDispensacoes(tabela: seq<Registro>, consultaOk: bool)
      modifies this
      ensures consultaOk ==> dispensacoes == Relatorio(tabela, filtros)
      ensures !consultaOk ==> dispensacoes == old(dispensacoes)
      ensures filtros == old(filtros)
    {
      var consulta := tabela;
      if filtros.dataInicio != "" {
        consulta := Filtrar(consulta, FiltroInicio(filtros));
      }
      if filtros.dataFim != "" {
        consulta := Filtrar(consulta, FiltroFim(filtros));
      }
      ghost var noPeriodo := consulta;
      consulta := Ordenar(consulta);
      if !consultaOk {
        return;
      }
      var filtradas := consulta;
      if filtros.paciente != "" {
        filtradas := Filtrar(filtradas, FiltroPaciente(filtros.paciente));
      }
      if filtros.medicamento != "" {
        filtradas := Filtrar(filtradas, FiltroMedicamento(filtros.medicamento));
      }
      PeriodoPassoAPasso(tabela, filtros, noPeriodo);
      TextoPassoAPasso(consulta, filtros, filtradas);
      RelatorioFiltraConsulta(tabela, filtros);
      dispensacoes := filtradas;
    }

    /** `limparFiltros`: the list stays until the next search. */
    method LimparFiltros()
      modifies this
      ensures filtros == FiltrosVazios && dispensacoes == old(dispensacoes)
    {
      filtros := FiltrosVazios;
    }
  }

  /** The two optional date bounds applied one after the other are the period filter. */
  lemma PeriodoPassoAPasso(tabela: seq<Registro>, f: Filtros, consulta: seq<Registro>)
    requires consulta ==
      var a := if f.dataInicio != "" then Filtrar(tabela, FiltroInicio(f)) else tabela;
      if f.dataFim != "" then Filtrar(a, FiltroFim(f)) else a
    ensures consulta == Filtrar(tabela, FiltroPeriodo(f))
  {
    var a := if f.dataInicio != "" then Filtrar(tabela, FiltroInicio(f)) else tabela;
    assert a == Filtrar(tabela, FiltroInicio(f)) by {
      if f.dataInicio == "" {
        FiltrarTodos(tabela, FiltroInicio(f));
      }
    }
    assert consulta == Filtrar(a, FiltroFim(f)) by {
      if f.dataFim == "" {
        FiltrarTodos(a, FiltroFim(f));
      }
    }
    FiltrarComposicao(tabela, FiltroInicio(f), FiltroFim(f), FiltroPeriodo(f));
  }

  /** The two optional text filters applied one after the other are the text filter. */
  lemma TextoPassoAPasso(consulta: seq<Registro>, f: Filtros, filtradas: seq<Registro>)
    requires filtradas ==
      var a := if f.paciente != "" then Filtrar(consulta, FiltroPaciente(f.paciente)) else consulta;
      if f.medicamento != "" then Filtrar(a, FiltroMedicamento(f.medicamento)) else a
    ensures filtradas == Filtrar(consulta, FiltroTexto(f))
  {
    var pf := (d: Registro) => f.paciente == "" || RegistroCasaPaciente(f.paciente, d);
    var mf := (d: Registro) => f.medicamento == "" || RegistroCasaMedicamento(f.medicamento, d);
    var a := if f.paciente != "" then Filtrar(consulta, FiltroPaciente(f.paciente)) else consulta;
    assert a == Filtrar(consulta, pf) by {
      if f.paciente == "" {
        FiltrarTodos(consulta, pf);
      } else {
        FiltrarExtensional(consulta, FiltroPaciente(f.paciente), pf);
      }
    }
    assert filtradas == Filtrar(a, mf) by {
      if f.medicamento == "" {
        FiltrarTodos(a, mf);
      } else {
        FiltrarExtensional(a, FiltroMedicamento(f.medicamento), mf);
      }
    }
    FiltrarComposicao(consulta, pf, mf, FiltroTexto(f));
  }
}
