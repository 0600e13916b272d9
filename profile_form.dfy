/** The profile form the agent dashboard and the profile page share: four profile fields and three password fields. */
module ProfileForm {
  import opened Js

  const ProfileFields: set<string> := {"firstName", "lastName", "email", "phone"}
  const PasswordFields: set<string> := {"currentPassword", "newPassword", "confirmPassword"}
  const Fields: set<string> := ProfileFields + PasswordFields

  const ProfileUpdated := "Profile updated successfully"
  const ProfileUpdateFailed := "Error updating profile"

  /** The form with every field empty. */
  function EmptyForm(): (f: map<string, string>)
    ensures f.Keys == Fields && forall k :: k in f ==> f[k] == ""
  {
    map k | k in Fields :: ""
  }

  /** `profileData`: exactly the four profile fields of the form. */
  function ProfileData(form: map<string, string>): (p: map<string, Json>)
    requires Fields <= form.Keys
    ensures p.Keys == ProfileFields
    ensures forall k :: k in p ==> p[k] == JStr(form[k])
  {
    map k | k in ProfileFields :: JStr(form[k])
  }

  /** Wants a password change: the section is shown and both the current and the new password are filled. */
  predicate WantsPasswordChange(form: map<string, string>, showPasswordSection: bool)
    requires Fields <= form.Keys
  {
    showPasswordSection && form["currentPassword"] != "" && form["newPassword"] != ""
  }

  /** The password change request. */
  function PasswordBody(form: map<string, string>): Json
    requires Fields <= form.Keys
  {
    ObjOf(map["currentPassword" := form["currentPassword"], "newPassword" := form["newPassword"]])
  }

  /** The three password fields emptied, the profile fields kept. */
  function ClearPasswords(form: map<string, string>): (f: map<string, string>)
    requires Fields <= form.Keys
    ensures f.Keys == form.Keys
    ensures forall k :: k in PasswordFields ==> f[k] == ""
    ensures forall k :: k in form && k !in PasswordFields ==> f[k] == form[k]
  {
    form["currentPassword" := ""]["newPassword" := ""]["confirmPassword" := ""]
  }

  /** A profile field loaded from the backend: `userData.f || ''`, as the input shows it. */
  function LoadedField(data: Json, f: string): string
  {
    Str(OrElse(Prop(data, f), JStr("")))
  }

  /** The form after loading a profile: the four fields replaced, the passwords kept. */
  function WithLoadedProfile(form: map<string, string>, data: Json): (r: map<string, string>)
    ensures r.Keys == form.Keys + ProfileFields
    ensures forall k :: k in ProfileFields ==> r[k] == LoadedField(data, k)
    ensures forall k :: k in form && k !in ProfileFields ==> r[k] == form[k]
  {
    form["firstName" := LoadedField(data, "firstName")]["lastName" := LoadedField(data, "lastName")]
        ["email" := LoadedField(data, "email")]["phone" := LoadedField(data, "phone")]
  }
}
