/** The agent's own profile page: profile PUT, then the optional password change, then the cached-user merge. */
module AgentDashboard {
  import opened Wrappers
  import opened Js
  import opened Http
  import opened BrowserStorage
  import opened PasswordRule
  import opened ProfileForm
  import AuthService

  const ProfilePath := "/agent/profile"
  const UpdatePasswordPath := "/auth/update-password"
  const Mismatch := "Passwords do not match"
  const TooWeak := "Password must contain at least 8 characters, one uppercase letter, one lowercase letter, one number, and one special character"
  const LoadFailed := "Failed to load user data"

  datatype DashboardState = DashboardState(
    form: map<string, string>, error: string, success: string, isSubmitting: bool, showPasswordSection: bool)

  function ProfileRequest(form: map<string, string>): Request
    requires Fields <= form.Keys
  {
    Put(ProfilePath, JObj(ProfileData(form)))
  }

  function PasswordRequest(form: map<string, string>): Request
    requires Fields <= form.Keys
  {
    Post(UpdatePasswordPath, PasswordBody(form))
  }

  /** The cached user in storage `m` with the profile fields merged in, if one is stored and parses. */
  function MergedStore(m: map<string, string>, c: Codec, form: map<string, string>): (r: Option<map<string, string>>)
    requires Fields <= form.Keys
    ensures !(AuthService.UserKey in m && m[AuthService.UserKey] != "") ==> r == Some(m)
    ensures AuthService.UserKey in m && m[AuthService.UserKey] != "" && Parse(c, m[AuthService.UserKey]).None? ==> r.None?
    ensures AuthService.UserKey in m && m[AuthService.UserKey] != "" && Parse(c, m[AuthService.UserKey]).Some?
            ==> r == Some(m[AuthService.UserKey := Stringify(c, Merge(Parse(c, m[AuthService.UserKey]).value, ProfileData(form)))])
  {
    if AuthService.UserKey in m && m[AuthService.UserKey] != "" then
      match Parse(c, m[AuthService.UserKey])
      case None => None
      case Some(u) => Some(m[AuthService.UserKey := Stringify(c, Merge(u, ProfileData(form)))])
    else Some(m)
  }

  /** The steps after the requests: merge the profile into the cached user, report success, clear the passwords. */
  function Finish(s: DashboardState, m: map<string, string>, c: Codec): (o: (DashboardState, map<string, string>))
    requires Fields <= s.form.Keys
    ensures MergedStore(m, c, s.form).None? ==> o == (s.(error := ProfileUpdateFailed), m)
    ensures MergedStore(m, c, s.form).Some? ==> o.1 == MergedStore(m, c, s.form).value && o.0.success == ProfileUpdated
    ensures MergedStore(m, c, s.form).Some? && s.showPasswordSection ==> o.0.form == ClearPasswords(s.form)
    ensures MergedStore(m, c, s.form).Some? ==> o.0.(form := s.form) == s.(success := ProfileUpdated)
    ensures MergedStore(m, c, s.form).Some? && !s.showPasswordSection ==> o.0.form == s.form
  {
    match MergedStore(m, c, s.form)
    case None => (s.(error := ProfileUpdateFailed), m)
    case Some(m') =>
      (s.(success := ProfileUpdated, form := if s.showPasswordSection then ClearPasswords(s.form) else s.form), m')
  }

  /** What follows a successful profile PUT: the password checks and POST, then the finishing steps. */
  function AfterProfileSent(s: DashboardState, m: map<string, string>, c: Codec, postReply: Reply)
    : (o: (DashboardState, map<string, string>, seq<Request>))
    requires Fields <= s.form.Keys
    // the password POST goes out only when every password check passed
    ensures o.2 != [] <==> WantsPasswordChange(s.form, s.showPasswordSection)
                           && s.form["newPassword"] == s.form["confirmPassword"] && ValidatePassword(s.form["newPassword"])
    ensures o.2 != [] ==> o.2 == [PasswordRequest(s.form)]
    // a mismatch is reported first, a weak password second; both stop the submit
    ensures WantsPasswordChange(s.form, s.showPasswordSection) && s.form["newPassword"] != s.form["confirmPassword"]
            ==> o == (s.(error := Mismatch), m, [])
    ensures WantsPasswordChange(s.form, s.showPasswordSection)
            && s.form["newPassword"] == s.form["confirmPassword"] && !ValidatePassword(s.form["newPassword"])
            ==> o == (s.(error := TooWeak), m, [])
    // a failed POST stops the submit before the cached user is touched
    ensures o.2 != [] && postReply.Failed? ==> o == (s.(error := MessageOr(postReply.failure, ProfileUpdateFailed)), m, o.2)
    // otherwise the finishing steps run
    ensures !WantsPasswordChange(s.form, s.showPasswordSection) || (o.2 != [] && postReply.Answered?)
            ==> (o.0, o.1) == Finish(s, m, c)
  {
    if WantsPasswordChange(s.form, s.showPasswordSection) then
      if s.form["newPassword"] != s.form["confirmPassword"] then (s.(error := Mismatch), m, [])
      else if !ValidatePassword(s.form["newPassword"]) then (s.(error := TooWeak), m, [])
      else
        match postReply
        case Failed(e) => (s.(error := MessageOr(e, ProfileUpdateFailed)), m, [PasswordRequest(s.form)])
        case Answered(_, _) => var (s', m') := Finish(s, m, c); (s', m', [PasswordRequest(s.form)])
    else var (s', m') := Finish(s, m, c); (s', m', [])
  }

  /** The outcome of `handleSubmit`: new state, new storage, and the requests issued. */
  function Submit(s: DashboardState, m: map<string, string>, c: Codec, putReply: Reply, postReply: Reply)
    : (o: (DashboardState, map<string, string>, seq<Request>))
    requires Fields <= s.form.Keys
    ensures !o.0.isSubmitting && o.0.showPasswordSection == s.showPasswordSection
    // the profile PUT always goes out, and before any password check
    ensures 1 <= |o.2| <= 2 && o.2[0] == ProfileRequest(s.form)
    ensures putReply.Failed? ==> o == (s.(error := MessageOr(putReply.failure, ProfileUpdateFailed), success := "", isSubmitting := false), m, o.2)
    // the password POST follows an accepted PUT exactly when every password check passed
    ensures |o.2| == 2 <==> putReply.Answered? && WantsPasswordChange(s.form, s.showPasswordSection)
                            && s.form["newPassword"] == s.form["confirmPassword"] && ValidatePassword(s.form["newPassword"])
    ensures |o.2| == 2 ==> o.2[1] == PasswordRequest(s.form)
    // storage changes only by the merge, and only when the submit succeeds
    ensures o.1 != m ==> o.0.success == ProfileUpdated && MergedStore(m, c, s.form) == Some(o.1)
  {
    var started := s.(error := "", success := "", isSubmitting := true);
    var put := ProfileRequest(s.form);
    match putReply
    case Failed(e) => (started.(error := MessageOr(e, ProfileUpdateFailed), isSubmitting := false), m, [put])
    case Answered(_, _) =>
      var (s', m', more) := AfterProfileSent(started, m, c, postReply);
      (s'.(isSubmitting := false), m', [put] + more)
  }

  /** The merged cached user keeps every field it had and takes the four profile fields from the form. */
  lemma {:induction false} MergeKeepsOtherFields(m: map<string, string>, c: Codec, form: map<string, string>, u: Json)
    requires Fields <= form.Keys
    requires AuthService.UserKey in m && m[AuthService.UserKey] != "" && Parse(c, m[AuthService.UserKey]) == Some(u)
    ensures var merged := Merge(u, ProfileData(form));
            && MergedStore(m, c, form) == Some(m[AuthService.UserKey := Stringify(c, merged)])
            && merged.fields.Keys == Spread(u).Keys + ProfileFields
            && (forall k :: k in ProfileFields ==> merged.fields[k] == JStr(form[k]))
            && (forall k :: k in Spread(u) && k !in ProfileFields ==> merged.fields[k] == Spread(u)[k])
  {
  }

  class Dashboard {
    var form: map<string, string>
    var error: string
    var success: string
    var isSubmitting: bool
    var showPasswordSection: bool

    ghost predicate Valid()
      reads this
    {
      Fields <= form.Keys
    }

    function State(): DashboardState
      reads this
    {
      DashboardState(form, error, success, isSubmitting, showPasswordSection)
    }

    constructor ()
      ensures Valid() && State() == DashboardState(EmptyForm(), "", "", false, false)
    {
      form := EmptyForm();
      error := "";
      success := "";
      isSubmitting := false;
      showPasswordSection := false;
    }

    /** `loadAgentData`: fetch the profile into the four profile fields; answers whether the page's render fails.
      * The fields are read inside the state updater, which React runs outside the `try`: a null body makes
      * that updater throw during render, no message is set, and the page is unmounted. */
    method LoadAgentData(reply: Reply) returns (calls: seq<Request>, unmounted: bool)
      requires Valid()
      modifies this
      ensures Valid() && calls == [Get(ProfilePath, map[])]
      ensures unmounted <==> reply.Answered? && reply.data == JNull
      ensures reply.Answered? && reply.data != JNull ==> State() == old(State()).(form := WithLoadedProfile(old(form), reply.data))
      ensures reply.Answered? && reply.data == JNull ==> State() == old(State())
      ensures reply.Failed? ==> State() == old(State()).(error := ErrorDataOr(reply.failure, LoadFailed))
    {
      calls := [Get(ProfilePath, map[])];
      unmounted := false;
      match reply {
        case Answered(_, data) =>
          if data == JNull {
            unmounted := true;
          } else {
            form := WithLoadedProfile(form, data);
          }
        case Failed(e) =>
          error := ErrorDataOr(e, LoadFailed);
      }
    }

    /** `handleChange`: only the named field changes. */
    method HandleChange(name: string, value: string)
      requires Valid()
      modifies this
      ensures Valid() && State() == old(State()).(form := old(form)[name := value])
    {
      form := form[name := value];
    }

    /** Shows or hides the password section. */
    method TogglePasswordSection()
      modifies this
      ensures form == old(form) && State() == old(State()).(showPasswordSection := !old(showPasswordSection))
    {
      showPasswordSection := !showPasswordSection;
    }

    /** The merge into the cached user; answers whether the stored user parsed. */
    method MergeIntoStorage(storage: Storage, c: Codec) returns (merged: bool)
      requires Valid()
      modifies storage
      ensures merged <==> MergedStore(old(storage.items), c, form).Some?
      ensures merged ==> storage.items == MergedStore(old(storage.items), c, form).value
      ensures !merged ==> storage.items == old(storage.items)
    {
      merged := true;
      var userStr := storage.GetItem(AuthService.UserKey);
      if Filled(userStr) {
        var user := Parse(c, userStr.value);
        if user.None? {
          merged := false;   // JSON.parse threw
          return;
        }
        storage.SetItem(AuthService.UserKey, Stringify(c, Merge(user.value, ProfileData(form))));
      }
    }

    /** The steps after the requests: merge the profile into the cached user, report success, clear the passwords. */
    method FinishUpdate(storage: Storage, c: Codec)
      requires Valid()
      modifies this, storage
      ensures Valid()
      ensures (State(), storage.items) == Finish(old(State()), old(storage.items), c)
    {
      var merged := MergeIntoStorage(storage, c);
      if !merged {
        error := ProfileUpdateFailed;   // no response, so the fallback text
        return;
      }
      success := ProfileUpdated;
      if showPasswordSection {
        form := ClearPasswords(form);
      }
    }

    /** The password checks and POST of a submit, then the finishing steps; answers the requests issued. */
    method PasswordStepAndFinish(storage: Storage, c: Codec, postReply: Reply) returns (more: seq<Request>)
      requires Valid()
      modifies this, storage
      ensures Valid()
      ensures (State(), storage.items, more) == AfterProfileSent(old(State()), old(storage.items), c, postReply)
    {
      more := [];
      if showPasswordSection && form["currentPassword"] != "" && form["newPassword"] != "" {
        if form["newPassword"] != form["confirmPassword"] {
          error := Mismatch;
          return;
        }
        if !ValidatePassword(form["newPassword"]) {
          error := TooWeak;
          return;
        }
        more := [Post(UpdatePasswordPath, PasswordBody(form))];
        if postReply.Failed? {
          error := MessageOr(postReply.failure, ProfileUpdateFailed);
          return;
        }
      }
      FinishUpdate(storage, c);
    }

    /** `handleSubmit`, with the PUT's and the POST's outcomes given. */
    method HandleSubmit(storage: Storage, c: Codec, putReply: Reply, postReply: Reply) returns (calls: seq<Request>)
      requires Valid()
      modifies this, storage
      ensures Valid()
      ensures (State(), storage.items, calls) == Submit(old(State()), old(storage.items), c, putReply, postReply)
    {
      calls := [ProfileRequest(form)];
      error := "";
      success := "";
      isSubmitting := true;
      if putReply.Failed? {
        error := MessageOr(putReply.failure, ProfileUpdateFailed);
        isSubmitting := false;
        return;
      }
      ghost var started := State();
      var more := PasswordStepAndFinish(storage, c, postReply);
      assert (State(), storage.items, more) == AfterProfileSent(started, old(storage.items), c, postReply);
      calls := calls + more;
      isSubmitting := false;
    }
  }
}
