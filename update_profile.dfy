/** The profile page: the profile is loaded from the endpoint the cached user's role selects, then PUT back,
  * with an optional password change and a merge into the cached user. */
module UpdateProfile {
  import opened Wrappers
  import opened Js
  import opened Http
  import opened BrowserStorage
  import opened ProfileForm
  import AuthService

  const AgentProfilePath := "/agent/profile"
  const ClientsPath := "/agent/clients/"
  const UpdatePasswordPath := "/auth/update-password"
  const NoUserData := "No user data found. Please try logging in again."
  const LoadFailed := "Failed to load user data. Please check your connection and try again."

  datatype PageState = PageState(
    form: map<string, string>, error: string, success: string, isSubmitting: bool, showPasswordSection: bool)

  /** The profile endpoint for a cached user: an agent's own profile, otherwise the client record by id. */
  function ProfileEndpoint(user: Json): string
  {
    if Prop(user, "role") == Some(JStr("AGENT")) then AgentProfilePath
    else ClientsPath + StrOpt(Prop(user, "id"))
  }

  /** Only a cached user whose role is `AGENT` reaches the agent's own profile; any other user reaches a client record. */
  lemma AgentProfileOnlyForAgents(user: Json)
    ensures ProfileEndpoint(user) == AgentProfilePath <==> Prop(user, "role") == Some(JStr("AGENT"))
    ensures Prop(user, "role") != Some(JStr("AGENT")) ==> ProfileEndpoint(user)[..|ClientsPath|] == ClientsPath
  {
    if Prop(user, "role") != Some(JStr("AGENT")) {
      var p := ProfileEndpoint(user);
      assert p[7] == ClientsPath[7];
    }
  }

  /** The user the load effect reads: present only when storage holds a non-empty string that parses to non-null. */
  function LoadUser(m: map<string, string>, c: Codec): (r: Option<Json>)
    ensures r.Some? <==> AuthService.UserKey in m && m[AuthService.UserKey] != ""
                         && Parse(c, m[AuthService.UserKey]).Some? && Parse(c, m[AuthService.UserKey]).value != JNull
    ensures r.Some? ==> r.value == Parse(c, m[AuthService.UserKey]).value
  {
    if AuthService.UserKey in m && m[AuthService.UserKey] != "" then
      match Parse(c, m[AuthService.UserKey])
      case Some(u) => if u == JNull then None else Some(u)
      case None => None
    else None
  }

  /** The outcome of the load effect: the new state, the requests issued, and whether the page's render fails.
    * The form update reads the answer's fields inside the state updater, which React runs outside the `try`:
    * a null body makes that updater throw during render, no message is set, and the page is unmounted. */
  function Load(s: PageState, m: map<string, string>, c: Codec, reply: Reply): (o: (PageState, seq<Request>, bool))
    // no cached user: the page says so and asks for nothing
    ensures !(AuthService.UserKey in m && m[AuthService.UserKey] != "") ==> o == (s.(error := NoUserData), [], false)
    // the GET goes out exactly when a usable user is cached, to the endpoint its role selects
    ensures o.1 != [] <==> LoadUser(m, c).Some?
    ensures o.1 != [] ==> o.1 == [Get(ProfileEndpoint(LoadUser(m, c).value), map[])]
    // the form changes only by a successful load, and then only its four profile fields
    ensures o.0.form != s.form ==> o.1 != [] && reply.Answered? && reply.data != JNull
    ensures o.1 != [] && reply.Answered? && reply.data != JNull
            ==> o.0 == s.(form := WithLoadedProfile(s.form, reply.data))
    // a null body sets no message: the render fails instead
    ensures o.2 <==> o.1 != [] && reply.Answered? && reply.data == JNull
    ensures o.2 ==> o.0 == s
    // every failure the `catch` sees shows the same message
    ensures AuthService.UserKey in m && m[AuthService.UserKey] != "" && !(o.1 != [] && reply.Answered?)
            ==> o.0 == s.(error := LoadFailed) && !o.2
  {
    if !(AuthService.UserKey in m && m[AuthService.UserKey] != "") then (s.(error := NoUserData), [], false)
    else match LoadUser(m, c)
      // JSON.parse threw, or reading `role` of null did: the catch sets the message
      case None => (s.(error := LoadFailed), [], false)
      case Some(user) =>
        var req := Get(ProfileEndpoint(user), map[]);
        match reply
        case Failed(_) => (s.(error := LoadFailed), [req], false)
        case Answered(_, data) =>
          if data == JNull then (s, [req], true)
          else (s.(form := WithLoadedProfile(s.form, data)), [req], false)
  }

  /** The user a submit reads: `JSON.parse(userStr || '{}')`, with the empty object when nothing is cached. */
  function SubmitUser(m: map<string, string>, c: Codec): (r: Option<Json>)
    ensures !(AuthService.UserKey in m && m[AuthService.UserKey] != "") ==> r == Some(JObj(map[]))
    ensures AuthService.UserKey in m && m[AuthService.UserKey] != "" ==> r == Parse(c, m[AuthService.UserKey])
  {
    if AuthService.UserKey in m && m[AuthService.UserKey] != "" then Parse(c, m[AuthService.UserKey])
    else Some(JObj(map[]))
  }

  /** A submit gets as far as the requests: the user parsed and is not null. */
  predicate UserUsable(m: map<string, string>, c: Codec)
  {
    SubmitUser(m, c).Some? && SubmitUser(m, c).value != JNull
  }

  /** The outcome of `handleSubmit`: new state, new storage, and the requests issued. */
  function Submit(s: PageState, m: map<string, string>, c: Codec, putReply: Reply, postReply: Reply)
    : (o: (PageState, map<string, string>, seq<Request>))
    requires Fields <= s.form.Keys
    // the form is never cleared, the section never toggled, and the submit always ends
    ensures o.0.form == s.form && o.0.showPasswordSection == s.showPasswordSection && !o.0.isSubmitting
    // requests go out only for a usable user, the PUT first to the endpoint its role selects
    ensures o.2 != [] <==> UserUsable(m, c)
    ensures o.2 != [] ==> o.2[0] == Put(ProfileEndpoint(SubmitUser(m, c).value), JObj(ProfileData(s.form)))
    // the password POST follows an accepted PUT whenever one is wanted, with no strength check
    ensures |o.2| <= 2
    ensures |o.2| == 2 <==> UserUsable(m, c) && putReply.Answered? && WantsPasswordChange(s.form, s.showPasswordSection)
    ensures |o.2| == 2 ==> o.2[1] == Post(UpdatePasswordPath, PasswordBody(s.form))
    // success exactly when every step went through, and then the cached user holds the merged profile
    ensures o.0.success == ProfileUpdated <==>
              UserUsable(m, c) && putReply.Answered? && (!WantsPasswordChange(s.form, s.showPasswordSection) || postReply.Answered?)
    ensures o.0.success == ProfileUpdated ==>
              o.0.error == "" && o.1 == m[AuthService.UserKey := Stringify(c, Merge(SubmitUser(m, c).value, ProfileData(s.form)))]
    ensures o.0.success != ProfileUpdated ==> o.0.success == "" && o.1 == m
    // the error shown for each failure
    ensures !UserUsable(m, c) ==> o.0.error == ProfileUpdateFailed
    ensures UserUsable(m, c) && putReply.Failed? ==> o.0.error == MessageOr(putReply.failure, ProfileUpdateFailed)
    ensures |o.2| == 2 && postReply.Failed? ==> o.0.error == MessageOr(postReply.failure, ProfileUpdateFailed)
  {
    var started := s.(error := "", success := "", isSubmitting := true);
    if !UserUsable(m, c) then
      // JSON.parse threw, or reading `role` of null did; neither error has a response
      (started.(error := ProfileUpdateFailed, isSubmitting := false), m, [])
    else
      var (s', m', calls) := Send(started, m, c, SubmitUser(m, c).value, putReply, postReply);
      (s'.(isSubmitting := false), m', calls)
  }

  /** The requests of a submit once the cached user is read: the PUT, the optional POST, then the merge. */
  function Send(s: PageState, m: map<string, string>, c: Codec, user: Json, putReply: Reply, postReply: Reply)
    : (o: (PageState, map<string, string>, seq<Request>))
    requires Fields <= s.form.Keys
    ensures o.0.form == s.form && o.0.showPasswordSection == s.showPasswordSection && o.0.isSubmitting == s.isSubmitting
    ensures 1 <= |o.2| <= 2 && o.2[0] == Put(ProfileEndpoint(user), JObj(ProfileData(s.form)))
    ensures |o.2| == 2 <==> putReply.Answered? && WantsPasswordChange(s.form, s.showPasswordSection)
    ensures |o.2| == 2 ==> o.2[1] == Post(UpdatePasswordPath, PasswordBody(s.form))
    ensures putReply.Failed? ==> o == (s.(error := MessageOr(putReply.failure, ProfileUpdateFailed)), m, o.2)
    ensures |o.2| == 2 && postReply.Failed? ==> o == (s.(error := MessageOr(postReply.failure, ProfileUpdateFailed)), m, o.2)
    ensures putReply.Answered? && (|o.2| == 1 || postReply.Answered?) ==>
              o == (s.(success := ProfileUpdated), m[AuthService.UserKey := Stringify(c, Merge(user, ProfileData(s.form)))], o.2)
  {
    var put := Put(ProfileEndpoint(user), JObj(ProfileData(s.form)));
    match putReply
    case Failed(e) => (s.(error := MessageOr(e, ProfileUpdateFailed)), m, [put])
    case Answered(_, _) =>
      if WantsPasswordChange(s.form, s.showPasswordSection) then
        var calls := [put, Post(UpdatePasswordPath, PasswordBody(s.form))];
        match postReply
        case Failed(e) => (s.(error := MessageOr(e, ProfileUpdateFailed)), m, calls)
        case Answered(_, _) =>
          (s.(success := ProfileUpdated), m[AuthService.UserKey := Stringify(c, Merge(user, ProfileData(s.form)))], calls)
      else
        (s.(success := ProfileUpdated), m[AuthService.UserKey := Stringify(c, Merge(user, ProfileData(s.form)))], [put])
  }

  /** Unlike the agent dashboard, a weak new password is sent as it is: the page checks nothing before the POST. */
  lemma WeakPasswordStillSent(s: PageState, m: map<string, string>, c: Codec, putReply: Reply, postReply: Reply)
    requires Fields <= s.form.Keys && UserUsable(m, c) && putReply.Answered?
    requires s.showPasswordSection && s.form["currentPassword"] != "" && s.form["newPassword"] == "a"
    ensures Submit(s, m, c, putReply, postReply).2[1] == Post(UpdatePasswordPath, PasswordBody(s.form))
  {
    assert WantsPasswordChange(s.form, s.showPasswordSection);
  }

  class ProfilePage {
    var form: map<string, string>
    var error: string
    var success: string
    var isSubmitting: bool
    var showPasswordSection: bool

    ghost predicate Valid()
      reads this
    {
      Fields <= form.Keys
    }

    function State(): PageState
      reads this
    {
      PageState(form, error, success, isSubmitting, showPasswordSection)
    }

    constructor ()
      ensures Valid() && State() == PageState(EmptyForm(), "", "", false, false)
    {
      form := EmptyForm();
      error := "";
      success := "";
      isSubmitting := false;
      showPasswordSection := false;
    }

    /** `loadUserData`, with the GET's outcome given. */
    method LoadUserData(storage: Storage, c: Codec, reply: Reply) returns (calls: seq<Request>, unmounted: bool)
      requires Valid()
      modifies this
      ensures Valid() && (State(), calls, unmounted) == Load(old(State()), storage.items, c, reply)
    {
      calls := [];
      unmounted := false;
      var userStr := storage.GetItem(AuthService.UserKey);
      if !Filled(userStr) {
        error := NoUserData;
        return;
      }
      var user := Parse(c, userStr.value);
      if user.None? || user.value == JNull {
        error := LoadFailed;
        return;
      }
      calls := [Get(ProfileEndpoint(user.value), map[])];
      if reply.Failed? {
        error := LoadFailed;
        return;
      }
      if reply.data == JNull {
        unmounted := true;
        return;
      }
      form := WithLoadedProfile(form, reply.data);
    }

    /** `handleChange`: only the named field changes. */
    method HandleChange(name: string, value: string)
      requires Valid()
      modifies this
      ensures Valid() && State() == old(State()).(form := old(form)[name := value])
    {
      form := form[name := value];
    }

    /** Shows or hides the password section. */
    method TogglePasswordSection()
      modifies this
      ensures form == old(form) && State() == old(State()).(showPasswordSection := !old(showPasswordSection))
    {
      showPasswordSection := !showPasswordSection;
    }

    /** `handleSubmit`, with the PUT's and the POST's outcomes given. */
    method HandleSubmit(storage: Storage, c: Codec, putReply: Reply, postReply: Reply) returns (calls: seq<Request>)
      requires Valid()
      modifies this, storage
      ensures Valid()
      ensures (State(), storage.items, calls) == Submit(old(State()), old(storage.items), c, putReply, postReply)
    {
      error := "";
      success := "";
      isSubmitting := true;
      calls := [];
      var userStr := storage.GetItem(AuthService.UserKey);
      var user := if Filled(userStr) then Parse(c, userStr.value) else Some(JObj(map[]));
      if user.None? || user.value == JNull {
        error := ProfileUpdateFailed;
        isSubmitting := false;
        return;
      }
      ghost var started := State();
      assert UserUsable(old(storage.items), c) && user == SubmitUser(old(storage.items), c);
      calls := SendRequests(storage, c, user.value, putReply, postReply);
      ghost var sent := (State(), storage.items, calls);
      assert sent == Send(started, old(storage.items), c, user.value, putReply, postReply);
      isSubmitting := false;
    }

    /** The requests of `handleSubmit` once the cached user is read, with their outcomes given. */
    method SendRequests(storage: Storage, c: Codec, user: Json, putReply: Reply, postReply: Reply) returns (calls: seq<Request>)
      requires Valid()
      modifies this, storage
      ensures form == old(form)
      ensures (State(), storage.items, calls) == Send(old(State()), old(storage.items), c, user, putReply, postReply)
    {
      var put := Put(ProfileEndpoint(user), JObj(ProfileData(form)));
      calls := [put];
      if putReply.Failed? {
        error := MessageOr(putReply.failure, ProfileUpdateFailed);
        return;
      }
      if showPasswordSection && form["currentPassword"] != "" && form["newPassword"] != "" {
        calls := [put, Post(UpdatePasswordPath, PasswordBody(form))];
        if postReply.Failed? {
          error := MessageOr(postReply.failure, ProfileUpdateFailed);
          return;
        }
      }
      Commit(storage, c, user);
    }

    /** The end of a submit whose requests all went through: the success message, and the merged user cached. */
    method Commit(storage: Storage, c: Codec, user: Json)
      requires Valid()
      modifies this, storage
      ensures form == old(form)
      ensures State() == old(State()).(success := ProfileUpdated)
      ensures storage.items == old(storage.items)[AuthService.UserKey := Stringify(c, Merge(user, ProfileData(form)))]
    {
      success := ProfileUpdated;
      storage.SetItem(AuthService.UserKey, Stringify(c, Merge(user, ProfileData(form))));
    }
  }
}
