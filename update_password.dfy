/** The password-change form: ordered checks, then the update request. */
module UpdatePassword {
  import opened Wrappers
  import opened Js
  import opened Http
  import opened BrowserStorage
  import opened PasswordRule
  import AuthService

  const NotConnected := "Vous n'êtes pas connecté. Veuillez vous reconnecter."
  const Mismatch := "Les mots de passe ne correspondent pas"
  const TooWeak := "Le mot de passe doit contenir au moins 8 caractères, une majuscule, une minuscule, un chiffre et un caractère spécial"
  const Updated := "Mot de passe mis à jour avec succès"
  const SessionExpired := "Session expirée. Veuillez vous reconnecter."
  const UpdateFailed := "Erreur lors de la mise à jour du mot de passe"
  const UpdatePasswordPath := "/auth/update-password"

  const Fields: set<string> := {"currentPassword", "newPassword", "confirmPassword"}

  /** The form with all three fields empty. */
  function EmptyForm(): (f: map<string, string>)
    ensures f.Keys == Fields && forall k :: k in f ==> f[k] == ""
  {
    map["currentPassword" := "", "newPassword" := "", "confirmPassword" := ""]
  }

  /** The component's state. */
  datatype PasswordState = PasswordState(form: map<string, string>, error: string, success: string, isSubmitting: bool)

  /** The request that changes the password: the current and the new password only. */
  function PasswordRequest(form: map<string, string>): Request
    requires Fields <= form.Keys
  {
    Post(UpdatePasswordPath, ObjOf(map["currentPassword" := form["currentPassword"], "newPassword" := form["newPassword"]]))
  }

  /** The outcome of `handleSubmit` from state `s`, the stored token, and the POST's outcome. */
  function Submit(s: PasswordState, token: Option<string>, reply: Reply): (o: (PasswordState, seq<Request>))
    requires Fields <= s.form.Keys
    ensures !o.0.isSubmitting
    ensures Fields <= o.0.form.Keys
    // the request goes out exactly when every check passes
    ensures o.1 != [] <==> Filled(token) && s.form["newPassword"] == s.form["confirmPassword"] && ValidatePassword(s.form["newPassword"])
    ensures o.1 != [] ==> o.1 == [PasswordRequest(s.form)]
    // the checks, in order
    ensures !Filled(token) ==> o.0 == s.(error := NotConnected, success := "", isSubmitting := false)
    ensures Filled(token) && s.form["newPassword"] != s.form["confirmPassword"]
            ==> o.0 == s.(error := Mismatch, success := "", isSubmitting := false)
    ensures Filled(token) && s.form["newPassword"] == s.form["confirmPassword"] && !ValidatePassword(s.form["newPassword"])
            ==> o.0 == s.(error := TooWeak, success := "", isSubmitting := false)
    // the answers
    ensures o.1 != [] && reply.Answered? && reply.status == 200
            ==> o.0.success == Updated && o.0.error == "" && o.0.form == EmptyForm()
    ensures o.1 != [] && reply.Answered? && reply.status != 200
            ==> o.0 == s.(error := "", success := "", isSubmitting := false)
    ensures o.1 != [] && reply.Failed? && IsForbidden(reply.failure) ==> o.0.error == SessionExpired && o.0.form == s.form
    ensures o.1 != [] && reply.Failed? && !IsForbidden(reply.failure)
            ==> o.0.error == MessageOr(reply.failure, UpdateFailed) && o.0.form == s.form
  {
    var cleared := s.(error := "", success := "", isSubmitting := false);
    if !Filled(token) then (cleared.(error := NotConnected), [])
    else if s.form["newPassword"] != s.form["confirmPassword"] then (cleared.(error := Mismatch), [])
    else if !ValidatePassword(s.form["newPassword"]) then (cleared.(error := TooWeak), [])
    else
      var calls := [PasswordRequest(s.form)];
      match reply
      case Answered(status, _) =>
        if status == 200 then (cleared.(success := Updated, form := EmptyForm()), calls)
        else (cleared, calls)
      case Failed(e) =>
        if IsForbidden(e) then (cleared.(error := SessionExpired), calls)
        else (cleared.(error := MessageOr(e, UpdateFailed)), calls)
  }

  /** A mismatch is reported even when the new password is also too weak. */
  lemma MismatchReportedBeforeStrength(s: PasswordState, token: Option<string>, reply: Reply)
    requires Fields <= s.form.Keys && Filled(token)
    requires s.form["newPassword"] != s.form["confirmPassword"] && !ValidatePassword(s.form["newPassword"])
    ensures Submit(s, token, reply).0.error == Mismatch
  {
  }

  class UpdatePasswordForm {
    var form: map<string, string>
    var error: string
    var success: string
    var isSubmitting: bool

    ghost predicate Valid()
      reads this
    {
      Fields <= form.Keys
    }

    function State(): PasswordState
      reads this
    {
      PasswordState(form, error, success, isSubmitting)
    }

    constructor ()
      ensures Valid() && State() == PasswordState(EmptyForm(), "", "", false)
    {
      form := EmptyForm();
      error := "";
      success := "";
      isSubmitting := false;
    }

    /** `handleChange`: only the named field changes. */
    method HandleChange(name: string, value: string)
      requires Valid()
      modifies this
      ensures Valid() && State() == old(State()).(form := old(form)[name := value])
    {
      form := form[name := value];
    }

    /** `handleSubmit`, with the stored token read from `storage` and the POST's outcome as `reply`. */
    method HandleSubmit(storage: Storage, reply: Reply) returns (calls: seq<Request>)
      requires Valid()
      modifies this
      ensures Valid()
      ensures (State(), calls) == Submit(old(State()), storage.GetItem(AuthService.TokenKey), reply)
    {
      error := "";
      success := "";
      isSubmitting := true;
      calls := [];
      var token := storage.GetItem(AuthService.TokenKey);
      if !Filled(token) {
        error := NotConnected;
        isSubmitting := false;
        return;
      }
      if form["newPassword"] != form["confirmPassword"] {
        error := Mismatch;
        isSubmitting := false;
        return;
      }
      if !ValidatePassword(form["newPassword"]) {
        error := TooWeak;
        isSubmitting := false;
        return;
      }
      calls := [PasswordRequest(form)];
      match reply {
        case Answered(status, _) =>
          if status == 200 {
            success := Updated;
            form := EmptyForm();
          }
        case Failed(e) =>
          if IsForbidden(e) {
            error := SessionExpired;
          } else {
            error := MessageOr(e, UpdateFailed);
          }
      }
      isSubmitting := false;
    }
  }
}
