/**
 * The client's helper library (`lib/api.ts`): the server base address and
 * the saved login, kept in the browser's two key-value stores
 * (`localStorage`, which persists, and `sessionStorage`, which does not).
 */
module Api {
  import opened Common

  /** `s.replace(/\/+$/, "")`: the trailing run of '/' removed. */
  function TrimSlashes(s: string): (r: string)
    ensures |r| <= |s| && r == s[..|r|]
    ensures r == [] || r[|r| - 1] != '/'
    ensures forall i :: |r| <= i < |s| ==> s[i] == '/'
  {
    if s == [] || s[|s| - 1] != '/' then s else TrimSlashes(s[..|s| - 1])
  }

  /** `VITE_BASE_URL?.replace(/\/+$/, "") || ""`: '' when the setting is missing. */
  function BaseUrl(env: Option<string>): (r: string)
    ensures env.None? ==> r == ""
    ensures env.Some? ==> r == TrimSlashes(env.value)
  {
    if env.Some? then TrimSlashes(env.value) else ""
  }

  /** Removing the slashes twice is the same as once, so the base address never ends in '/'. */
  lemma BaseUrlNoSlash(env: Option<string>)
    ensures TrimSlashes(BaseUrl(env)) == BaseUrl(env)
    ensures BaseUrl(env) == [] || BaseUrl(env)[|BaseUrl(env)| - 1] != '/'
  {
  }

  datatype Role = Member | Manager

  datatype AuthUser = AuthUser(id: int, name: string, email: string, role: Role)

  /** A saved login. */
  datatype Auth = Auth(token: string, user: AuthUser)

  const TokenKey := "auth_token"
  const UserKey := "auth_user"

  /** `store.getItem(key)`, with a missing key and '' both falsy (`None`). */
  function Item(store: map<string, string>, key: string): Option<string> {
    if key in store && store[key] != "" then Some(store[key]) else None
  }

  /** `a || b` over two lookups. */
  function EitherItem(local: map<string, string>, session: map<string, string>, key: string): Option<string> {
    if Item(local, key).Some? then Item(local, key) else Item(session, key)
  }

  /**
   * `getAuth` over the two stores: the token and the user are each read
   * from the lasting store first, then the session one; both must be there
   * and the user must parse (`parse` stands for `JSON.parse`).
   */
  function GetAuth(local: map<string, string>, session: map<string, string>, parse: string -> Option<AuthUser>): (r: Option<Auth>)
    ensures r.Some? <==> EitherItem(local, session, TokenKey).Some? && EitherItem(local, session, UserKey).Some?
                         && parse(EitherItem(local, session, UserKey).value).Some?
    ensures r.Some? ==> r.value.token == EitherItem(local, session, TokenKey).value && r.value.token != ""
    ensures r.Some? ==> r.value.user == parse(EitherItem(local, session, UserKey).value).value
  {
    var token := EitherItem(local, session, TokenKey);
    var userStr := EitherItem(local, session, UserKey);
    if token.None? || userStr.None? then None
    else
      var user := parse(userStr.value);
      if user.None? then None else Some(Auth(token.value, user.value))
  }

  /** The two browser stores. */
  class Storage {
    var local: map<string, string>
    var session: map<string, string>

    constructor(local0: map<string, string>, session0: map<string, string>)
      ensures local == local0 && session == session0
    {
      local := local0;
      session := session0;
    }

    /** `getAuth` on the current stores. */
    function Current(parse: string -> Option<AuthUser>): Option<Auth>
      reads this
    {
      GetAuth(local, session, parse)
    }

    /**
     * `saveAuth`: the token and the serialised user (`stringify`) go to the
     * lasting store when `remember` is set, to the session store otherwise;
     * nothing else changes.
     */
    method SaveAuth(auth: Auth, remember: bool, stringify: AuthUser -> string)
      modifies this
      ensures remember ==> local == old(local)[TokenKey := auth.token][UserKey := stringify(auth.user)] && session == old(session)
      ensures !remember ==> session == old(session)[TokenKey := auth.token][UserKey := stringify(auth.user)] && local == old(local)
    {
      if remember {
        local := local[TokenKey := auth.token];
        local := local[UserKey := stringify(auth.user)];
      } else {
        session := session[TokenKey := auth.token];
        session := session[UserKey := stringify(auth.user)];
      }
    }

    /** `clearAuth`: both keys leave both stores; every other key stays. */
    method ClearAuth()
      modifies this
      ensures local == old(local) - {TokenKey, UserKey} && session == old(session) - {TokenKey, UserKey}
    {
      local := local - {TokenKey, UserKey};
      session := session - {TokenKey, UserKey};
    }
  }

  /** After `clearAuth` nobody is logged in. */
  lemma ClearedHasNoAuth(local: map<string, string>, session: map<string, string>, parse: string -> Option<AuthUser>)
    ensures GetAuth(local - {TokenKey, UserKey}, session - {TokenKey, UserKey}, parse).None?
  {
  }

  /**
   * A remembered login reads back as saved (when `parse` undoes
   * `stringify`). A session-only login reads back only while the lasting
   * store holds no login of its own: an older remembered token shadows it
   * and is still the one read back.
   */
  lemma SavedAuthReadsBack(local: map<string, string>, session: map<string, string>, auth: Auth,
                           parse: string -> Option<AuthUser>, stringify: AuthUser -> string)
    requires auth.token != "" && stringify(auth.user) != ""
    requires parse(stringify(auth.user)) == Some(auth.user)
    ensures GetAuth(local[TokenKey := auth.token][UserKey := stringify(auth.user)], session, parse) == Some(auth)
    ensures Item(local, TokenKey).None? && Item(local, UserKey).None? ==>
      GetAuth(local, session[TokenKey := auth.token][UserKey := stringify(auth.user)], parse) == Some(auth)
    ensures Item(local, TokenKey).Some? ==>
      EitherItem(local, session[TokenKey := auth.token][UserKey := stringify(auth.user)], TokenKey) == Item(local, TokenKey)
    ensures Item(local, TokenKey).Some? && GetAuth(local, session[TokenKey := auth.token][UserKey := stringify(auth.user)], parse).Some? ==>
      GetAuth(local, session[TokenKey := auth.token][UserKey := stringify(auth.user)], parse).value.token == Item(local, TokenKey).value
    ensures Item(local, TokenKey).Some? && Item(local, TokenKey).value != auth.token ==>
      GetAuth(local, session[TokenKey := auth.token][UserKey := stringify(auth.user)], parse) != Some(auth)
  {
    assert TokenKey != UserKey;
  }
}
