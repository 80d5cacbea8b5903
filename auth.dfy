/**
 * The session (`src/services/AuthContext.tsx`): login stores the token and the user's id,
 * name and branch under four `localStorage` keys and installs the token as the default
 * `Authorization` header; logout removes them; on mount the session is restored from those
 * keys when all four are present and non-empty.
 */
module Auth {
  import opened Wrappers
  import opened Storage

  const TokenKey := "token"
  const UserIdKey := "user_id"
  const UserNameKey := "user_name"
  const UserSucKey := "user_suc"

  /** The four keys the session owns. */
  const Claves: set<string> := {TokenKey, UserIdKey, UserNameKey, UserSucKey}

  datatype AuthState = AuthState(token: string, userId: string, userName: string, userSuc: string)

  /** The operator record of the login response. */
  datatype Usuario = Usuario(op_codigo: string, op_nombre: string, op_sucursal: string)

  /** The login response; `usuario` is a one-element tuple. */
  datatype LoginData = LoginData(token: string, usuario: Usuario)

  /** The session a login response opens: the token behind `Bearer `, the operator's fields. */
  function AuthDe(data: LoginData): (r: AuthState)
    ensures r.token == "Bearer " + data.token && r.token != ""
    ensures r.userId == data.usuario.op_codigo
    ensures r.userName == data.usuario.op_nombre
    ensures r.userSuc == data.usuario.op_sucursal
  {
    AuthState("Bearer " + data.token, data.usuario.op_codigo, data.usuario.op_nombre, data.usuario.op_sucursal)
  }

  /** The store after login's four `setItem` calls. */
  function Escribir(m: map<string, string>, a: AuthState): (r: map<string, string>)
    ensures r.Keys == m.Keys + Claves
    ensures r[TokenKey] == a.token && r[UserIdKey] == a.userId
    ensures r[UserNameKey] == a.userName && r[UserSucKey] == a.userSuc
    ensures forall k :: k in m && k !in Claves ==> r[k] == m[k]
  {
    m[TokenKey := a.token][UserIdKey := a.userId][UserNameKey := a.userName][UserSucKey := a.userSuc]
  }

  /** The store after logout's four `removeItem` calls. */
  function Borrar(m: map<string, string>): (r: map<string, string>)
    ensures r.Keys == m.Keys - Claves
    ensures forall k :: k in r ==> r[k] == m[k]
  {
    m - {TokenKey} - {UserIdKey} - {UserNameKey} - {UserSucKey}
  }

  /** A stored string that JavaScript treats as true: present and non-empty. */
  predicate Presente(m: map<string, string>, k: string) {
    k in m && m[k] != ""
  }

  /** What the mount effect restores: a session exactly when all four keys hold non-empty strings. */
  function Restaurado(m: map<string, string>): (r: Option<AuthState>)
    ensures r.Some? <==> Presente(m, TokenKey) && Presente(m, UserIdKey) && Presente(m, UserNameKey) && Presente(m, UserSucKey)
    ensures r.Some? ==> r.value == AuthState(m[TokenKey], m[UserIdKey], m[UserNameKey], m[UserSucKey])
  {
    if Presente(m, TokenKey) && Presente(m, UserIdKey) && Presente(m, UserNameKey) && Presente(m, UserSucKey)
    then Some(AuthState(m[TokenKey], m[UserIdKey], m[UserNameKey], m[UserSucKey]))
    else None
  }

  /** A reload after a login whose operator fields are non-empty restores the session login opened. */
  lemma RestaurarTrasLogin(m: map<string, string>, data: LoginData)
    requires data.usuario.op_codigo != "" && data.usuario.op_nombre != "" && data.usuario.op_sucursal != ""
    ensures Restaurado(Escribir(m, AuthDe(data))) == Some(AuthDe(data))
  {
  }

  /** A login with an empty operator field is not restored after a reload, although login itself opened a session. */
  lemma LoginVacioNoSeRestaura(m: map<string, string>, data: LoginData)
    requires data.usuario.op_codigo == "" || data.usuario.op_nombre == "" || data.usuario.op_sucursal == ""
    ensures Restaurado(Escribir(m, AuthDe(data))) == None
  {
  }

  /** After logout nothing is restored, and the keys the session does not own are as they were. */
  lemma LogoutConservaOtras(m: map<string, string>)
    ensures Restaurado(Borrar(m)) == None
    ensures forall k :: k !in Claves ==> (k in Borrar(m) <==> k in m)
  {
    assert TokenKey !in Borrar(m);
  }

  class AuthProvider {
    const store: Store<string>
    var auth: Option<AuthState>
    /** `axios.defaults.headers.common['Authorization']`; `None` once deleted. */
    var authorization: Option<string>

    /** Logged in means the header carries the session's token. */
    ghost predicate Valid()
      reads this
    {
      auth.Some? ==> authorization == Some(auth.value.token)
    }

    /** The provider renders with no session, then runs the restore effect. */
    constructor(store: Store<string>)
      ensures this.store == store && Valid()
      ensures auth.None? && authorization.None?
    {
      this.store := store;
      auth := None;
      authorization := None;
    }

    /** The mount effect: read the four keys; when all are non-empty, open that session. */
    method Restore()
      requires Valid()
      modifies this
      ensures Valid()
      ensures Restaurado(store.entries).Some? ==>
        auth == Restaurado(store.entries) && authorization == Some(auth.value.token)
      ensures Restaurado(store.entries).None? ==> auth == old(auth) && authorization == old(authorization)
    {
      var token := store.GetItem(TokenKey);
      var userId := store.GetItem(UserIdKey);
      var userName := store.GetItem(UserNameKey);
      var userSuc := store.GetItem(UserSucKey);
      if token.Some? && token.value != "" && userId.Some? && userId.value != ""
         && userName.Some? && userName.value != "" && userSuc.Some? && userSuc.value != "" {
        auth := Some(AuthState(token.value, userId.value, userName.value, userSuc.value));
        authorization := Some(token.value);
      }
    }

    /** `login`: store the four keys, open the session, install the header. */
    method Login(data: LoginData)
      modifies this, store
      ensures Valid()
      ensures store.entries == Escribir(old(store.entries), AuthDe(data))
      ensures auth == Some(AuthDe(data)) && authorization == Some(AuthDe(data).token)
    {
      var authData := AuthDe(data);
      store.SetItem(TokenKey, authData.token);
      store.SetItem(UserIdKey, authData.userId);
      store.SetItem(UserNameKey, authData.userName);
      store.SetItem(UserSucKey, authData.userSuc);
      auth := Some(authData);
      authorization := Some(authData.token);
    }

    /** `logout`: remove the four keys, close the session, delete the header. */
    method Logout()
      modifies this, store
      ensures Valid()
      ensures store.entries == Borrar(old(store.entries))
      ensures auth.None? && authorization.None?
    {
      store.RemoveItem(TokenKey);
      store.RemoveItem(UserIdKey);
      store.RemoveItem(UserNameKey);
      store.RemoveItem(UserSucKey);
      auth := None;
      authorization := None;
    }
  }

  /** A reload after login: a fresh provider over the same store restores the session when the operator fields are non-empty. */
  method LoginYRecarga(store: Store<string>, data: LoginData) returns (p: AuthProvider)
    requires data.usuario.op_codigo != "" && data.usuario.op_nombre != "" && data.usuario.op_sucursal != ""
    modifies store
    ensures p.auth == Some(AuthDe(data))
  {
    var antes := new AuthProvider(store);
    antes.Login(data);
    p := new AuthProvider(store);
    RestaurarTrasLogin(old(store.entries), data);
    p.Restore();
  }

  const FueraDelProveedor := "useAuth must be used within an AuthProvider"

  /** `useAuth`: the provider's context, or the error thrown outside one. */
  function UseAuth(context: Option<AuthProvider>): (r: Result<AuthProvider, string>)
    ensures r.Success? <==> context.Some?
    ensures r.Success? ==> r.value == context.value
    ensures r.Failure? ==> r.error == FueraDelProveedor
  {
    match context
    case Some(p) => Success(p)
    case None => Failure(FueraDelProveedor)
  }
}
