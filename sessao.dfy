/** The session (src/contexts/AuthContext.tsx): the logged-in user held in
    memory and cached in the browser's storage under `farmacia_usuario`,
    kept in step by the initial load, login and logout. */
module Sessao {
  import opened Colecoes
  import opened Registros
  import AuthUsuario

  /** The storage key of the cached user. */
  const ChaveUsuario := "farmacia_usuario"

  /** What `supabase.functions.invoke` hands to `login`: an error (a non-2xx
      answer, a failed call or an exception while reading it), or the parsed body. */
  datatype RespostaInvoke = ErroInvoke | Dados(success: bool, usuario: Usuario)

  /** The login endpoint's answer as the client receives it. A 2xx answer
      without the success object behaves like an error in `login` (`success` is
      not true), so it is represented as one. */
  function Invocar(r: AuthUsuario.Resposta): (i: RespostaInvoke)
    ensures i.Dados? <==> 200 <= r.status < 300 && r.corpo.SucessoLogin?
    ensures i.Dados? ==> i.success == r.corpo.success && i.usuario == r.corpo.usuario
  {
    if 200 <= r.status < 300 && r.corpo.SucessoLogin? then Dados(r.corpo.success, r.corpo.usuario)
    else ErroInvoke
  }

  /** `login` succeeds on this answer. */
  predicate Aceita(i: RespostaInvoke)
  {
    i.Dados? && i.success
  }

  /** Whatever the request, data from the endpoint always carries `success`;
      the preflight and every error answer reach `login` as an error. */
  lemma InvocarDoEndpoint(metodo: string, corpo: Option<AuthUsuario.CorpoRequisicao>, tabela: seq<AuthUsuario.LinhaUsuario>, consultaOk: bool)
    ensures var r := AuthUsuario.AtenderLogin(metodo, corpo, tabela, consultaOk);
      Invocar(r).Dados? ==> Aceita(Invocar(r)) && r.status == 200 && metodo != "OPTIONS"
    ensures var r := AuthUsuario.AtenderLogin(metodo, corpo, tabela, consultaOk);
      Invocar(r).ErroInvoke? <==> metodo == "OPTIONS" || r.status != 200
  {
  }

  /** Through the endpoint, a login from the browser is accepted exactly when the
      endpoint answers 200, and the user it keeps is the matched row without
      its password. */
  lemma {:induction false} LoginPontaAPonta(usuario: string, senha: string, tabela: seq<AuthUsuario.LinhaUsuario>, consultaOk: bool)
    ensures var r := AuthUsuario.AtenderLogin("POST", Some(AuthUsuario.Pedido(usuario, senha)), tabela, consultaOk);
      Aceita(Invocar(r)) <==> r.status == 200
    ensures var r := AuthUsuario.AtenderLogin("POST", Some(AuthUsuario.Pedido(usuario, senha)), tabela, consultaOk);
      Aceita(Invocar(r)) ==>
        exists k :: (0 <= k < |tabela| && AuthUsuario.Corresponde(usuario, senha, tabela[k]) &&
                     Invocar(r).usuario == AuthUsuario.SemSenha(tabela[k]))
  {
    var r := AuthUsuario.AtenderLogin("POST", Some(AuthUsuario.Pedido(usuario, senha)), tabela, consultaOk);
    if r.status == 200 {
      AuthUsuario.SucessoTemUmaLinha(usuario, senha, tabela, consultaOk);
    }
  }

  /** The authentication provider's state, with the browser storage it writes. */
  class AuthProvider {
    var usuario: Option<Usuario>
    var loading: bool
    var armazenamento: map<string, Usuario>

    /** The in-memory user agrees with the cached one: present exactly when the
        key is stored, and then the same user. */
    predicate Sincronizado()
      reads this
    {
      (usuario.Some? <==> ChaveUsuario in armazenamento) &&
      (usuario.Some? ==> armazenamento[ChaveUsuario] == usuario.value)
    }

    /** The provider as first rendered, over whatever the storage already holds. */
    constructor (armazenamento: map<string, Usuario>)
      ensures usuario == None && loading
      ensures this.armazenamento == armazenamento
    {
      usuario := None;
      loading := true;
      this.armazenamento := armazenamento;
    }

    /** The mount effect: restore the cached user, if any, then stop loading. */
    method CarregarSessao()
      modifies this
      ensures usuario == if ChaveUsuario in old(armazenamento) then Some(old(armazenamento)[ChaveUsuario]) else old(usuario)
      ensures !loading && armazenamento == old(armazenamento)
      ensures old(usuario.None? || Sincronizado()) ==> Sincronizado()
    {
      if ChaveUsuario in armazenamento {
        usuario := Some(armazenamento[ChaveUsuario]);
      }
      loading := false;
    }

    /** `login`, given the endpoint's answer; `ok` is the value it resolves to. */
    method Login(resposta: RespostaInvoke) returns (ok: bool)
      modifies this
      ensures ok <==> Aceita(resposta)
      ensures ok ==> usuario == Some(resposta.usuario) &&
                     armazenamento == old(armazenamento)[ChaveUsuario := resposta.usuario]
      ensures !ok ==> usuario == old(usuario) && armazenamento == old(armazenamento)
      ensures loading == old(loading)
      ensures ok ==> Sincronizado()
      ensures old(Sincronizado()) ==> Sincronizado()
    {
      if resposta.ErroInvoke? || !resposta.success {
        return false;
      }
      usuario := Some(resposta.usuario);
      armazenamento := armazenamento[ChaveUsuario := resposta.usuario];
      return true;
    }

    /** `logout`: forget the user and remove the cached copy. */
    method Logout()
      modifies this
      ensures usuario == None && armazenamento == old(armazenamento) - {ChaveUsuario}
      ensures loading == old(loading)
      ensures Sincronizado()
    {
      usuario := None;
      armazenamento := armazenamento - {ChaveUsuario};
    }
  }
}
