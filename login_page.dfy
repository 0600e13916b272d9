/** The login page's submit handler: log in, then send the user to the section of their role. */
module LoginPage {
  import opened Wrappers
  import opened Js
  import opened Http
  import opened BrowserStorage
  import opened AuthService
  import ProtectedRoute

  const InvalidRole := "Invalid user role"
  const InvalidResponse := "Invalid response from server"
  const AuthenticationFailed := "Authentication failed"

  /** Where a submit ends: a navigation, or an error shown on the page. */
  datatype Landing = Navigate(path: string) | ShowError(message: string)

  /** `response?.user?.role` of what `login` returned. */
  function RoleOf(response: Json): Option<Json>
  {
    var user := Prop(response, UserKey);
    if user.Some? then Prop(user.value, "role") else None
  }

  /** The role switch of the submit handler. */
  function LandingFor(role: Option<Json>): (l: Landing)
    ensures l == Navigate("/admin") <==> role == Some(JStr("ADMIN"))
    ensures l == Navigate("/agent") <==> role == Some(JStr("AGENT"))
    ensures l == Navigate("/client") <==> role == Some(JStr("CLIENT"))
    ensures l.Navigate? ==> l.path in {"/admin", "/agent", "/client"}
    ensures !TruthyOpt(role) ==> l == ShowError(InvalidResponse)
    ensures TruthyOpt(role) && l.ShowError? ==> l.message == InvalidRole
  {
    if !TruthyOpt(role) then ShowError(InvalidResponse)
    else if role.value == JStr("ADMIN") then Navigate("/admin")
    else if role.value == JStr("AGENT") then Navigate("/agent")
    else if role.value == JStr("CLIENT") then Navigate("/client")
    else ShowError(InvalidRole)
  }

  /** `err.response?.data?.message || 'Authentication failed'` for what `login` threw. */
  function LoginErrorText(e: LoginError): (text: string)
    ensures e.Transport? ==> text == MessageOr(e.failure, AuthenticationFailed)
    ensures !e.Transport? ==> text == AuthenticationFailed
  {
    match e
    case Transport(f) => MessageOr(f, AuthenticationFailed)
    case _ => AuthenticationFailed
  }

  /** The page a user lands on after login is one whose guard lets that user in. */
  lemma {:induction false} LandingPassesGuard(user: Json)
    requires LandingFor(Prop(user, "role")).Navigate?
    ensures var path := LandingFor(Prop(user, "role")).path;
            ProtectedRoute.Decide(true, user, ProtectedRoute.SectionRoles(path)) == ProtectedRoute.RenderChildren
  {
    var role := Prop(user, "role");
    if role == Some(JStr("ADMIN")) {
      assert ProtectedRoute.SectionRoles("/admin") == Some(["ADMIN"]);
    } else if role == Some(JStr("AGENT")) {
      assert ProtectedRoute.SectionRoles("/agent") == Some(["AGENT"]);
    } else {
      assert role == Some(JStr("CLIENT"));
      assert ProtectedRoute.SectionRoles("/client") == Some(["CLIENT"]);
    }
  }

  /** Re-storing the token `login` stored changes nothing. */
  lemma RestoreTokenIsNoop(m: map<string, string>, c: Codec, reply: Reply)
    requires LoginSpec(m, c, reply).0.Ok?
    ensures var m' := LoginSpec(m, c, reply).1;
            m'[TokenKey := Str(Prop(reply.data, TokenKey).value)] == m'
  {
  }

  class LoginForm {
    var error: string

    constructor ()
      ensures error == ""
    {
      error := "";
    }

    /** `handleSubmit`, with the login POST's outcome given as `reply`; answers where it navigated. */
    method HandleSubmit(storage: Storage, c: Codec, reply: Reply) returns (nav: Option<string>)
      modifies this, storage
      ensures var (r, m') := LoginSpec(old(storage.items), c, reply);
              && storage.items == m'
              && (r.Err? ==> nav.None? && error == LoginErrorText(r.error))
              && (r.Ok? ==> match LandingFor(RoleOf(r.value))
                            case Navigate(p) => nav == Some(p) && error == ""
                            case ShowError(msg) => nav.None? && error == msg)
    {
      error := "";
      var r := Login(storage, c, reply);
      if r.Err? {
        error := LoginErrorText(r.error);
        return None;
      }
      RestoreTokenIsNoop(old(storage.items), c, reply);
      storage.SetItem(TokenKey, Str(Prop(r.value, TokenKey).value));
      match LandingFor(RoleOf(r.value)) {
        case Navigate(p) =>
          nav := Some(p);
        case ShowError(msg) =>
          error := msg;
          nav := None;
      }
    }
  }
}
