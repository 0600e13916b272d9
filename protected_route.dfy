/** The route guard: redirect to login, redirect home, or render the protected children. */
module ProtectedRoute {
  import opened Wrappers
  import opened Js
  import opened BrowserStorage
  import opened AuthService

  datatype Decision = RedirectToLogin | RedirectHome | RenderChildren

  /** `user?.role` is truthy and `allowedRoles.includes(user.role)`. */
  predicate RoleAllowed(user: Json, allowedRoles: seq<string>)
  {
    var role := Prop(user, "role");
    TruthyOpt(role) && role.value.JStr? && role.value.s in allowedRoles
  }

  /** The guard's decision; `allowedRoles` is None when the route names no roles. */
  function Decide(authenticated: bool, user: Json, allowedRoles: Option<seq<string>>): (d: Decision)
    ensures d == RedirectToLogin <==> !authenticated
    ensures d == RedirectHome <==> authenticated && allowedRoles.Some? && !RoleAllowed(user, allowedRoles.value)
    ensures d == RenderChildren <==> authenticated && (allowedRoles.None? || RoleAllowed(user, allowedRoles.value))
  {
    if !authenticated then RedirectToLogin
    else if allowedRoles.Some? && !RoleAllowed(user, allowedRoles.value) then RedirectHome
    else RenderChildren
  }

  /** The roles `App` gives the guard in front of each protected section. */
  function SectionRoles(section: string): (roles: Option<seq<string>>)
    ensures section == "/admin" ==> roles == Some(["ADMIN"])
    ensures section == "/agent" ==> roles == Some(["AGENT"])
    ensures section == "/client" ==> roles == Some(["CLIENT"])
  {
    if section == "/admin" then Some(["ADMIN"])
    else if section == "/agent" then Some(["AGENT"])
    else if section == "/client" then Some(["CLIENT"])
    else None
  }

  /** A user whose role is not a string of the allowed list is sent home, never rendered. */
  lemma WrongRoleGoesHome(user: Json, allowedRoles: seq<string>)
    requires Prop(user, "role").None? || !Prop(user, "role").value.JStr?
             || Prop(user, "role").value.s !in allowedRoles
    ensures Decide(true, user, Some(allowedRoles)) == RedirectHome
  {
  }

  /** A CLIENT asking for the admin section is sent home. */
  lemma ClientKeptOutOfAdmin(user: Json)
    requires Prop(user, "role") == Some(JStr("CLIENT"))
    ensures Decide(true, user, SectionRoles("/admin")) == RedirectHome
  {
  }

  /** The guard as rendered: read the user, check authentication, then decide. */
  method Guard(storage: Storage, c: Codec, allowedRoles: Option<seq<string>>) returns (d: Decision)
    modifies storage
    ensures d == Decide(AuthenticatedSpec(old(storage.items), c).0, CurrentUserSpec(old(storage.items), c).0, allowedRoles)
    ensures d == RedirectToLogin ==> storage.items == Cleared(old(storage.items))
    ensures d != RedirectToLogin ==> storage.items == old(storage.items)
  {
    var user := GetCurrentUser(storage, c);
    var authenticated := IsAuthenticated(storage, c);
    if !authenticated {
      Logout(storage);
      return RedirectToLogin;
    }
    if allowedRoles.Some? && !RoleAllowed(user, allowedRoles.value) {
      return RedirectHome;
    }
    return RenderChildren;
  }
}
