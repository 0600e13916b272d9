/**
 * The session helper: `login`, `logout`, `getCurrentUser` and `isAuthenticated`
 * over the three session keys in browser storage.
 */
module AuthService {
  import opened Wrappers
  import opened Js
  import opened Http
  import opened BrowserStorage

  const TokenKey := "token"
  const UserKey := "user"
  const UserIdKey := "userId"
  const SessionKeys: set<string> := {TokenKey, UserKey, UserIdKey}

  /** Why `login` rejects: the re-raised HTTP error, an incomplete answer, or a TypeError. */
  datatype LoginError =
    | Transport(failure: JsError)    // the request itself failed; re-raised unchanged
    | InvalidResponseFormat          // no token or no user in the answer
    | TypeError                      // reading `.token` of a null body, or `.id.toString()` of a missing id

  /** Storage after `logout`: the three session keys gone, every other key as it was. */
  function Cleared(m: map<string, string>): (r: map<string, string>)
    ensures r.Keys == m.Keys - SessionKeys
    ensures forall k :: k in r ==> r[k] == m[k]
  {
    m - SessionKeys
  }

  /** Logging out twice leaves what logging out once leaves. */
  lemma ClearedIdempotent(m: map<string, string>)
    ensures Cleared(Cleared(m)) == Cleared(m)
  {
  }

  /** Writing session keys and then logging out is the same as logging out. */
  lemma ClearedAbsorbsSessionWrites(m: map<string, string>, t: string, u: string)
    ensures Cleared(m[TokenKey := t][UserKey := u]) == Cleared(m)
  {
  }

  /** The answer carries a truthy token and a truthy user with a readable id. */
  predicate ResponseComplete(data: Json)
  {
    && data != JNull
    && TruthyOpt(Prop(data, TokenKey))
    && TruthyOpt(Prop(data, UserKey))
    && var id := Prop(Prop(data, UserKey).value, "id"); id.Some? && id.value != JNull
  }

  /** `m'` is `m` with the three session keys written from a complete answer, all else unchanged. */
  predicate SessionWritten(m: map<string, string>, m': map<string, string>, c: Codec, data: Json)
    requires ResponseComplete(data)
  {
    var user := Prop(data, UserKey).value;
    && m'.Keys == m.Keys + SessionKeys
    && m'[TokenKey] == Str(Prop(data, TokenKey).value)
    && m'[UserKey] == Stringify(c, user)
    && m'[UserIdKey] == Str(Prop(user, "id").value)
    && forall k :: k in m && k !in SessionKeys ==> m'[k] == m[k]
  }

  /** What `login` returns and what it leaves in storage `m`, given the backend's reply. */
  function LoginSpec(m: map<string, string>, c: Codec, reply: Reply): (o: (Result<Json, LoginError>, map<string, string>))
    ensures o.0.Ok? <==> reply.Answered? && ResponseComplete(reply.data)
    ensures o.0.Ok? ==> o.0.value == reply.data && SessionWritten(m, o.1, c, reply.data)
    ensures o.0.Err? ==> o.1 == Cleared(m)
    ensures reply.Failed? ==> o.0 == Err(Transport(reply.failure))
    ensures reply.Answered? && reply.data != JNull
            && !(TruthyOpt(Prop(reply.data, TokenKey)) && TruthyOpt(Prop(reply.data, UserKey)))
            ==> o.0 == Err(InvalidResponseFormat)
  {
    match reply
    case Failed(e) => (Err(Transport(e)), Cleared(m))
    case Answered(_, data) =>
      if data == JNull then (Err(TypeError), Cleared(m))
      else
        var token := Prop(data, TokenKey);
        var user := Prop(data, UserKey);
        if TruthyOpt(token) && TruthyOpt(user) then
          var id := Prop(user.value, "id");
          if id.None? || id.value == JNull then (Err(TypeError), Cleared(m))
          else (Ok(data), m[TokenKey := Str(token.value)][UserKey := Stringify(c, user.value)][UserIdKey := Str(id.value)])
        else (Err(InvalidResponseFormat), Cleared(m))
  }

  /** What `getCurrentUser` returns (JNull for null) and what it leaves in storage. */
  function CurrentUserSpec(m: map<string, string>, c: Codec): (o: (Json, map<string, string>))
    ensures (UserKey !in m || m[UserKey] == "") ==> o == (JNull, m)
    ensures UserKey in m && m[UserKey] != "" && Parse(c, m[UserKey]).None? ==> o == (JNull, Cleared(m))
    ensures UserKey in m && m[UserKey] != "" && Parse(c, m[UserKey]).Some? ==> o == (Parse(c, m[UserKey]).value, m)
    ensures o.1 == m || o.1 == Cleared(m)
  {
    if UserKey !in m || m[UserKey] == "" then (JNull, m)
    else match Parse(c, m[UserKey])
      case None => (JNull, Cleared(m))
      case Some(u) => (u, m)
  }

  /** What `isAuthenticated` returns and what it leaves in storage. */
  function AuthenticatedSpec(m: map<string, string>, c: Codec): (o: (bool, map<string, string>))
    ensures o.0 <==> TokenKey in m && m[TokenKey] != "" && Truthy(CurrentUserSpec(m, c).0)
    ensures o.1 == CurrentUserSpec(m, c).1
  {
    var token := if TokenKey in m then Some(m[TokenKey]) else None;
    var (user, m') := CurrentUserSpec(m, c);
    (Filled(token) && Truthy(user), m')
  }

  /** Without a stored token or user nobody is authenticated. */
  lemma NoSessionNotAuthenticated(m: map<string, string>, c: Codec)
    requires TokenKey !in m || UserKey !in m
    ensures !AuthenticatedSpec(m, c).0
  {
  }

  /** A stored token beside a corrupt stored user: no user, and storage loses the session. */
  lemma CorruptUserClearsSession(m: map<string, string>, c: Codec)
    requires TokenKey in m && UserKey in m && m[UserKey] != "" && Parse(c, m[UserKey]).None?
    ensures CurrentUserSpec(m, c) == (JNull, Cleared(m))
    ensures !AuthenticatedSpec(m, c).0 && AuthenticatedSpec(m, c).1 == Cleared(m)
  {
  }

  /** After logout nobody is authenticated, and the check leaves storage alone. */
  lemma LogoutEndsSession(m: map<string, string>, c: Codec)
    ensures AuthenticatedSpec(Cleared(m), c) == (false, Cleared(m))
  {
  }

  /** After a successful login whose user serialises to a truthy value, the session is authenticated. */
  lemma LoginThenAuthenticated(m: map<string, string>, c: Codec, reply: Reply)
    requires LoginSpec(m, c, reply).0.Ok?
    requires var user := Prop(reply.data, UserKey).value;
             Stringify(c, user) != "" && Parse(c, Stringify(c, user)).Some? && Truthy(Parse(c, Stringify(c, user)).value)
    ensures var m' := LoginSpec(m, c, reply).1;
            AuthenticatedSpec(m', c) == (true, m')
            && CurrentUserSpec(m', c).0 == Parse(c, Stringify(c, Prop(reply.data, UserKey).value)).value
  {
    var m' := LoginSpec(m, c, reply).1;
    var token := Prop(reply.data, TokenKey).value;
    assert m'[TokenKey] == Str(token);
    assert Str(token) != "";
  }

  /** `logout()`. */
  method Logout(storage: Storage)
    modifies storage
    ensures storage.items == Cleared(old(storage.items))
  {
    storage.RemoveItem(TokenKey);
    storage.RemoveItem(UserKey);
    storage.RemoveItem(UserIdKey);
  }

  /** `login(credentials)`, with the POST's outcome given as `reply`. */
  method Login(storage: Storage, c: Codec, reply: Reply) returns (r: Result<Json, LoginError>)
    modifies storage
    ensures (r, storage.items) == LoginSpec(old(storage.items), c, reply)
  {
    match reply {
      case Failed(e) =>
        Logout(storage);
        return Err(Transport(e));
      case Answered(_, data) =>
        if data == JNull {
          Logout(storage);
          return Err(TypeError);
        }
        var token := Prop(data, TokenKey);
        var user := Prop(data, UserKey);
        if TruthyOpt(token) && TruthyOpt(user) {
          storage.SetItem(TokenKey, Str(token.value));
          storage.SetItem(UserKey, Stringify(c, user.value));
          var id := Prop(user.value, "id");
          if id.None? || id.value == JNull {
            ClearedAbsorbsSessionWrites(old(storage.items), Str(token.value), Stringify(c, user.value));
            Logout(storage);
            return Err(TypeError);
          }
          storage.SetItem(UserIdKey, Str(id.value));
          return Ok(data);
        }
        Logout(storage);
        return Err(InvalidResponseFormat);
    }
  }

  /** `getCurrentUser()`: JNull stands for null. */
  method GetCurrentUser(storage: Storage, c: Codec) returns (user: Json)
    modifies storage
    ensures (user, storage.items) == CurrentUserSpec(old(storage.items), c)
  {
    var userStr := storage.GetItem(UserKey);
    if !Filled(userStr) {
      return JNull;
    }
    var parsed := Parse(c, userStr.value);
    if parsed.None? {
      Logout(storage);
      return JNull;
    }
    return parsed.value;
  }

  /** `isAuthenticated()`: reads the token, then the user (which may clear storage). */
  method IsAuthenticated(storage: Storage, c: Codec) returns (b: bool)
    modifies storage
    ensures (b, storage.items) == AuthenticatedSpec(old(storage.items), c)
  {
    var token := storage.GetItem(TokenKey);
    var user := GetCurrentUser(storage, c);
    b := Filled(token) && Truthy(user);
  }
}
