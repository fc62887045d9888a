/** The login endpoint (supabase/edge_function/auth_usuario_2025_11_03_03_00.ts):
    it checks that both fields are present, looks up exactly one active row with
    that user name and password, and answers with the row minus its password. */
module AuthUsuario {
  import opened Colecoes
  import opened Registros

  /** A row of the system users table. */
  datatype LinhaUsuario = LinhaUsuario(id: string, usuario: string, senha: string, nomeCompleto: string, ativo: bool)

  /** The JSON body of the request; an absent field is `None`. */
  datatype CorpoRequisicao = CorpoRequisicao(usuario: Option<string>, senha: Option<string>)

  /** The JSON body of the response: none (the CORS preflight), an error
      message, or the success object. */
  datatype Corpo =
    | Vazio
    | Erro(error: string)
    | SucessoLogin(success: bool, usuario: Usuario, message: string)

  datatype Resposta = Resposta(status: int, corpo: Corpo)

  const MsgObrigatorios := "Usuário e senha são obrigatórios"
  const MsgInvalidos := "Usuário ou senha inválidos"
  const MsgSucesso := "Login realizado com sucesso"
  const MsgErroInterno := "Erro interno do servidor"

  /** `const { senha: _, ...usuarioSemSenha } = usuarioData`. */
  function SemSenha(l: LinhaUsuario): (u: Usuario)
    ensures u.id == l.id && u.usuario == l.usuario && u.nomeCompleto == l.nomeCompleto && u.ativo == l.ativo
  {
    Usuario(l.id, l.usuario, l.nomeCompleto, l.ativo)
  }

  /** JavaScript truthiness of an optional string field: present and non-empty. */
  predicate Preenchido(campo: Option<string>)
  {
    campo.Some? && campo.value != ""
  }

  /** `.eq('usuario', usuario).eq('senha', senha).eq('ativo', true)`. */
  predicate Corresponde(usuario: string, senha: string, l: LinhaUsuario)
  {
    l.usuario == usuario && l.senha == senha && l.ativo
  }

  function FiltroCorresponde(usuario: string, senha: string): LinhaUsuario -> bool
  {
    (l: LinhaUsuario) => Corresponde(usuario, senha, l)
  }

  /** The rows the lookup selects: only matching rows of the table, every
      matching row, and one entry per matching position. */
  function Correspondentes(tabela: seq<LinhaUsuario>, usuario: string, senha: string): (r: seq<LinhaUsuario>)
    ensures forall i :: 0 <= i < |r| ==> r[i] in tabela && Corresponde(usuario, senha, r[i])
    ensures forall i :: 0 <= i < |tabela| && Corresponde(usuario, senha, tabela[i]) ==> tabela[i] in r
    ensures |r| == |IndicesQue(tabela, FiltroCorresponde(usuario, senha))|
  {
    FiltrarPertence(tabela, FiltroCorresponde(usuario, senha));
    FiltrarConta(tabela, FiltroCorresponde(usuario, senha));
    Filtrar(tabela, FiltroCorresponde(usuario, senha))
  }

  /** The handler. `corpo` is `None` when the body is not valid JSON, and
      `consultaOk` is false when the lookup itself reports an error. */
  function AtenderLogin(metodo: string, corpo: Option<CorpoRequisicao>, tabela: seq<LinhaUsuario>, consultaOk: bool): (r: Resposta)
    ensures metodo == "OPTIONS" ==> r == Resposta(200, Vazio)
    ensures metodo != "OPTIONS" && corpo.None? ==> r == Resposta(500, Erro(MsgErroInterno))
    ensures metodo != "OPTIONS" && corpo.Some? && !(Preenchido(corpo.value.usuario) && Preenchido(corpo.value.senha)) ==>
      r == Resposta(400, Erro(MsgObrigatorios))
    ensures r.status == 200 && metodo != "OPTIONS" ==>
      && corpo.Some? && Preenchido(corpo.value.usuario) && Preenchido(corpo.value.senha) && consultaOk
      && var m := Correspondentes(tabela, corpo.value.usuario.value, corpo.value.senha.value);
         |m| == 1 && r.corpo == SucessoLogin(true, SemSenha(m[0]), MsgSucesso)
    ensures metodo != "OPTIONS" && corpo.Some? && Preenchido(corpo.value.usuario) && Preenchido(corpo.value.senha) ==>
      (r.status == 200 <==>
         consultaOk && |IndicesQue(tabela, FiltroCorresponde(corpo.value.usuario.value, corpo.value.senha.value))| == 1)
    ensures metodo != "OPTIONS" && corpo.Some? && Preenchido(corpo.value.usuario) && Preenchido(corpo.value.senha) ==>
      r.status == 200 || r == Resposta(401, Erro(MsgInvalidos))
    ensures r.status in {200, 400, 401, 500}
  {
    if metodo == "OPTIONS" then Resposta(200, Vazio)
    else match corpo
      case None => Resposta(500, Erro(MsgErroInterno))
      case Some(c) =>
        if !Preenchido(c.usuario) || !Preenchido(c.senha) then Resposta(400, Erro(MsgObrigatorios))
        else
          var m := Correspondentes(tabela, c.usuario.value, c.senha.value);
          if !consultaOk || |m| != 1 then Resposta(401, Erro(MsgInvalidos))
          else Resposta(200, SucessoLogin(true, SemSenha(m[0]), MsgSucesso))
  }

  /** A request body with both fields present and non-empty. */
  function Pedido(usuario: string, senha: string): CorpoRequisicao
  {
    CorpoRequisicao(Some(usuario), Some(senha))
  }

  /** The returned user does not depend on the stored password. */
  lemma SemSenhaIgnoraSenha(l: LinhaUsuario, outra: string)
    ensures SemSenha(l.(senha := outra)) == SemSenha(l)
    ensures SemSenha(l) == SemSenha(l.(senha := outra))
  {
  }

  /** Two rows with the same returned user differ at most in the password. */
  lemma SemSenhaSoEsqueceASenha(a: LinhaUsuario, b: LinhaUsuario)
    requires SemSenha(a) == SemSenha(b)
    ensures a.(senha := b.senha) == b
  {
  }

  /** A missing field is answered before any lookup: the users table does not matter. */
  lemma CamposFaltandoNaoConsulta(metodo: string, c: CorpoRequisicao, t1: seq<LinhaUsuario>, t2: seq<LinhaUsuario>, ok1: bool, ok2: bool)
    requires !(Preenchido(c.usuario) && Preenchido(c.senha))
    ensures AtenderLogin(metodo, Some(c), t1, ok1) == AtenderLogin(metodo, Some(c), t2, ok2)
  {
  }

  /** A successful login matched exactly one active row with that name and
      password, and returns that row's fields without the password. */
  lemma {:induction false} SucessoTemUmaLinha(usuario: string, senha: string, tabela: seq<LinhaUsuario>, consultaOk: bool)
    requires AtenderLogin("POST", Some(Pedido(usuario, senha)), tabela, consultaOk).status == 200
    ensures exists k :: (0 <= k < |tabela| && Corresponde(usuario, senha, tabela[k]) &&
      AtenderLogin("POST", Some(Pedido(usuario, senha)), tabela, consultaOk).corpo.usuario == SemSenha(tabela[k]))
    ensures |IndicesQue(tabela, FiltroCorresponde(usuario, senha))| == 1
  {
    var m := Correspondentes(tabela, usuario, senha);
    FiltrarPertence(tabela, FiltroCorresponde(usuario, senha));
    FiltrarConta(tabela, FiltroCorresponde(usuario, senha));
    var k :| 0 <= k < |tabela| && tabela[k] == m[0];
    assert Corresponde(usuario, senha, tabela[k]);
  }

  /** Two matching rows make `.single()` fail: the login is refused. */
  lemma {:induction false} DuplicadosRecusados(usuario: string, senha: string, tabela: seq<LinhaUsuario>, consultaOk: bool, i: int, j: int)
    requires 0 <= i < j < |tabela|
    requires Corresponde(usuario, senha, tabela[i]) && Corresponde(usuario, senha, tabela[j])
    requires usuario != "" && senha != ""
    ensures AtenderLogin("POST", Some(Pedido(usuario, senha)), tabela, consultaOk) == Resposta(401, Erro(MsgInvalidos))
  {
    var p := FiltroCorresponde(usuario, senha);
    FiltrarConta(tabela, p);
    assert {i, j} <= IndicesQue(tabela, p);
    assert |{i, j}| == 2;
    SubconjuntoNaoMaior({i, j}, IndicesQue(tabela, p));
  }

  lemma SubconjuntoNaoMaior(a: set<int>, b: set<int>)
    requires a <= b
    ensures |a| <= |b|
  {
    assert b == a + (b - a);
    assert a * (b - a) == {};
  }

  /** A user whose rows are all inactive is refused even with the right password. */
  lemma {:induction false} InativoRecusado(usuario: string, senha: string, tabela: seq<LinhaUsuario>, consultaOk: bool)
    requires usuario != "" && senha != ""
    requires forall k :: 0 <= k < |tabela| && tabela[k].usuario == usuario ==> !tabela[k].ativo
    ensures AtenderLogin("POST", Some(Pedido(usuario, senha)), tabela, consultaOk) == Resposta(401, Erro(MsgInvalidos))
  {
    FiltrarNenhum(tabela, FiltroCorresponde(usuario, senha));
  }

  /** User names are unique in the table. */
  ghost predicate UsuariosUnicos(tabela: seq<LinhaUsuario>)
  {
    forall i, j :: 0 <= i < j < |tabela| ==> tabela[i].usuario != tabela[j].usuario
  }

  /** When row `k` is the only row matching the given name and password, the
      login succeeds and answers with that row without its password. */
  lemma {:induction false} UnicaCorrespondenciaEntra(usuario: string, senha: string, tabela: seq<LinhaUsuario>, k: int)
    requires usuario != "" && senha != ""
    requires 0 <= k < |tabela| && Corresponde(usuario, senha, tabela[k])
    requires forall j :: 0 <= j < |tabela| && Corresponde(usuario, senha, tabela[j]) ==> j == k
    ensures AtenderLogin("POST", Some(Pedido(usuario, senha)), tabela, true) ==
      Resposta(200, SucessoLogin(true, SemSenha(tabela[k]), MsgSucesso))
  {
    var p := FiltroCorresponde(usuario, senha);
    assert IndicesQue(tabela, p) == {k};
    var m := Correspondentes(tabela, usuario, senha);
    var j :| 0 <= j < |tabela| && tabela[j] == m[0];
    assert p(tabela[j]);
  }

  /** With unique user names, an active row whose name and password are given
      logs in, and the answer is that row without its password. */
  lemma {:induction false} LinhaAtivaEntra(tabela: seq<LinhaUsuario>, k: int)
    requires UsuariosUnicos(tabela) && 0 <= k < |tabela| && tabela[k].ativo
    requires tabela[k].usuario != "" && tabela[k].senha != ""
    ensures AtenderLogin("POST", Some(Pedido(tabela[k].usuario, tabela[k].senha)), tabela, true) ==
      Resposta(200, SucessoLogin(true, SemSenha(tabela[k]), MsgSucesso))
  {
    var l := tabela[k];
    forall j | 0 <= j < |tabela| && j != k
      ensures tabela[j].usuario != l.usuario
    {
      if j < k {
        assert tabela[j].usuario != tabela[k].usuario;
      } else {
        assert tabela[k].usuario != tabela[j].usuario;
      }
    }
    UnicaCorrespondenciaEntra(l.usuario, l.senha, tabela, k);
  }
}
