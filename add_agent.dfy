/** The admin's "add agent" page: a twelve-field form, live e-mail and phone availability checks,
  * and a submit that replaces the password with a generated one. */
module AddAgent {
  import opened Js
  import opened Http
  import PasswordRule

  const PasswordLength := 12
  /** The generator's 70 characters: the lower-case and upper-case letters, the digits and the rule's specials. */
  const Charset := "abcdefghijklmnopqrstuvwxyz" + "ABCDEFGHIJKLMNOPQRSTUVWXYZ" + "0123456789" + PasswordRule.Specials

  const AgentsPath := "/admin/agents"
  const CheckEmailPath := "/admin/check-email"
  const CheckPhonePath := "/admin/check-phone"
  const EmailMismatch := "Les adresses email ne correspondent pas"
  const EmailTaken := "Cet email existe déjà."
  const PhoneTaken := "Ce numéro de téléphone existe déjà."
  const AgentAdded := "Agent ajouté avec succès!"
  const AddFailed := "Erreur lors de l'ajout de l'agent"

  const AgentFields: set<string> := {"firstName", "lastName", "email", "confirmEmail", "phone", "password",
    "identityType", "identityNumber", "birthDate", "address", "registrationNumber", "patentNumber"}

  /** Twelve draws of `Math.random()`, each in [0, 1). */
  predicate Draws(ds: seq<real>)
  {
    |ds| == PasswordLength && forall i :: 0 <= i < |ds| ==> 0.0 <= ds[i] < 1.0
  }

  /** `Math.floor(d * charset.length)`: always an index into the charset. */
  function CharIndex(d: real): (k: int)
    requires 0.0 <= d < 1.0
    ensures 0 <= k < |Charset|
  {
    (d * |Charset| as real).Floor
  }

  /** Every character of the charset can be drawn. */
  lemma EveryCharDrawable(k: nat)
    requires k < |Charset|
    ensures 0.0 <= k as real / |Charset| as real < 1.0 && CharIndex(k as real / |Charset| as real) == k
  {
  }

  /** The password `generateSecurePassword` builds from its draws. */
  function GeneratedPassword(ds: seq<real>): (p: string)
    requires Draws(ds)
    ensures |p| == PasswordLength
    ensures forall i :: 0 <= i < |p| ==> p[i] in Charset
  {
    seq(PasswordLength, i requires 0 <= i < PasswordLength => Charset[CharIndex(ds[i])])
  }

  /** `generateSecurePassword()`, with the random draws given: one charset character appended per draw. */
  method GenerateSecurePassword(ds: seq<real>) returns (password: string)
    requires Draws(ds)
    ensures |password| == PasswordLength && (forall i :: 0 <= i < |password| ==> password[i] in Charset)
    ensures password == GeneratedPassword(ds)
  {
    password := "";
    var i := 0;
    while i < PasswordLength
      invariant 0 <= i <= PasswordLength
      invariant |password| == i
      invariant forall j :: 0 <= j < i ==> password[j] == Charset[CharIndex(ds[j])]
    {
      password := password + [Charset[CharIndex(ds[i])]];
      i := i + 1;
    }
  }

  /** The generator does not follow the strength rule of the password forms: all-zero draws give a password it rejects. */
  lemma GeneratedMayBeWeak()
    ensures Draws(seq(PasswordLength, _ => 0.0))
    ensures GeneratedPassword(seq(PasswordLength, _ => 0.0)) == "aaaaaaaaaaaa"
    ensures !PasswordRule.ValidatePassword(GeneratedPassword(seq(PasswordLength, _ => 0.0)))
  {
    var ds := seq(PasswordLength, _ => 0.0);
    var p := GeneratedPassword(ds);
    assert CharIndex(0.0) == 0 && Charset[0] == 'a';
    forall i | 0 <= i < |p|
      ensures p[i] == 'a'
    {
      assert ds[i] == 0.0;
    }
    assert p == "aaaaaaaaaaaa";
    PasswordRule.LowerCaseOnlyRejected(p);
  }

  /** The initial and the reset form: every field empty, the identity type `CIN`. */
  function InitialForm(): (f: map<string, string>)
    ensures f.Keys == AgentFields && f["identityType"] == "CIN"
    ensures forall k :: k in f && k != "identityType" ==> f[k] == ""
  {
    map k | k in AgentFields :: if k == "identityType" then "CIN" else ""
  }

  /** `{ ...restData, password: generatedPassword }`: the form without `confirmEmail`, with the generated password. */
  function SubmissionData(form: map<string, string>, password: string): (j: Json)
    requires AgentFields <= form.Keys
    ensures j.JObj? && j.fields.Keys == form.Keys - {"confirmEmail"}
    ensures j.fields["password"] == JStr(password)
    ensures forall k :: k in j.fields && k != "password" ==> j.fields[k] == JStr(form[k])
  {
    ObjOf((form - {"confirmEmail"})["password" := password])
  }

  /** The state of the page. The availability flags hold the raw answers of the checks. */
  datatype AddAgentState = AddAgentState(
    form: map<string, string>, error: string, success: string, emailExists: Json, phoneExists: Json)

  /** `handleChange`: the field is stored, and an e-mail or phone change fires its availability check. */
  function Change(s: AddAgentState, name: string, value: string): (o: (AddAgentState, seq<Request>))
    ensures o.0 == s.(form := s.form[name := value])
    ensures name == "email" ==> o.1 == [Get(CheckEmailPath, map["email" := value])]
    ensures name == "phone" ==> o.1 == [Get(CheckPhonePath, map["phone" := value])]
    ensures name != "email" && name != "phone" ==> o.1 == []
  {
    var s' := s.(form := s.form[name := value]);
    if name == "email" then (s', [Get(CheckEmailPath, map["email" := value])])
    else if name == "phone" then (s', [Get(CheckPhonePath, map["phone" := value])])
    else (s', [])
  }

  /** `handleSubmit`, with the draws of the generator and the outcome of the POST given. */
  function Submit(s: AddAgentState, ds: seq<real>, reply: Reply): (o: (AddAgentState, seq<Request>))
    requires AgentFields <= s.form.Keys && Draws(ds)
    // the availability flags are never touched by a submit
    ensures o.0.emailExists == s.emailExists && o.0.phoneExists == s.phoneExists
    // the agent is posted exactly when the e-mails agree and neither check found a taken value
    ensures o.1 != [] <==> s.form["email"] == s.form["confirmEmail"] && !Truthy(s.emailExists) && !Truthy(s.phoneExists)
    ensures o.1 != [] ==> o.1 == [Post(AgentsPath, SubmissionData(s.form, GeneratedPassword(ds)))]
    // the rejections, in the order the page tests them
    ensures s.form["email"] != s.form["confirmEmail"] ==> o.0 == s.(error := EmailMismatch, success := "")
    ensures s.form["email"] == s.form["confirmEmail"] && Truthy(s.emailExists) ==> o.0 == s.(error := EmailTaken, success := "")
    ensures s.form["email"] == s.form["confirmEmail"] && !Truthy(s.emailExists) && Truthy(s.phoneExists)
            ==> o.0 == s.(error := PhoneTaken, success := "")
    // an accepted agent resets the form; a failure keeps it
    ensures o.1 != [] && reply.Answered? ==> o.0 == s.(form := InitialForm(), error := "", success := AgentAdded)
    ensures o.1 != [] && reply.Failed? ==> o.0 == s.(error := MessageOr(reply.failure, AddFailed), success := "")
  {
    var started := s.(error := "", success := "");
    if s.form["email"] != s.form["confirmEmail"] then (started.(error := EmailMismatch), [])
    else if Truthy(s.emailExists) then (started.(error := EmailTaken), [])
    else if Truthy(s.phoneExists) then (started.(error := PhoneTaken), [])
    else
      var req := Post(AgentsPath, SubmissionData(s.form, GeneratedPassword(ds)));
      match reply
      case Answered(_, _) => (started.(success := AgentAdded, form := InitialForm()), [req])
      case Failed(e) => (started.(error := MessageOr(e, AddFailed)), [req])
  }

  /** The password the admin typed never reaches the backend: the posted one is always generated. */
  lemma TypedPasswordIgnored(s: AddAgentState, ds: seq<real>, reply: Reply)
    requires AgentFields <= s.form.Keys && Draws(ds)
    requires Submit(s, ds, reply).1 != []
    ensures Submit(s, ds, reply).1[0].body.fields["password"] == JStr(GeneratedPassword(ds))
    ensures "confirmEmail" !in Submit(s, ds, reply).1[0].body.fields
  {
  }

  class AddAgentPage {
    var form: map<string, string>
    var error: string
    var success: string
    var emailExists: Json
    var phoneExists: Json

    ghost predicate Valid()
      reads this
    {
      AgentFields <= form.Keys
    }

    function State(): AddAgentState
      reads this
    {
      AddAgentState(form, error, success, emailExists, phoneExists)
    }

    constructor ()
      ensures Valid() && State() == AddAgentState(InitialForm(), "", "", JBool(false), JBool(false))
    {
      form := InitialForm();
      error := "";
      success := "";
      emailExists := JBool(false);
      phoneExists := JBool(false);
    }

    /** `handleChange`; answers the availability check it fires, if any. */
    method HandleChange(name: string, value: string) returns (calls: seq<Request>)
      requires Valid()
      modifies this
      ensures Valid() && (State(), calls) == Change(old(State()), name, value)
    {
      form := form[name := value];
      calls := [];
      if name == "email" {
        calls := [Get(CheckEmailPath, map["email" := value])];
      }
      if name == "phone" {
        calls := [Get(CheckPhonePath, map["phone" := value])];
      }
    }

    /** The end of `checkEmail`. */
    method OnEmailChecked(reply: Reply)
      modifies this
      ensures State() == old(State()).(emailExists := CheckResult(old(emailExists), reply))
    {
      if reply.Answered? {
        emailExists := reply.data;
      }
    }

    /** The end of `checkPhone`. */
    method OnPhoneChecked(reply: Reply)
      modifies this
      ensures State() == old(State()).(phoneExists := CheckResult(old(phoneExists), reply))
    {
      if reply.Answered? {
        phoneExists := reply.data;
      }
    }

    /** `handleSubmit`, with the generator's draws and the POST's outcome given. */
    method HandleSubmit(ds: seq<real>, reply: Reply) returns (calls: seq<Request>)
      requires Valid() && Draws(ds)
      modifies this
      ensures Valid() && (State(), calls) == Submit(old(State()), ds, reply)
    {
      error := "";
      success := "";
      calls := [];
      if form["email"] != form["confirmEmail"] {
        error := EmailMismatch;
        return;
      }
      if Truthy(emailExists) {
        error := EmailTaken;
        return;
      }
      if Truthy(phoneExists) {
        error := PhoneTaken;
        return;
      }
      var generated := GenerateSecurePassword(ds);
      calls := [Post(AgentsPath, SubmissionData(form, generated))];
      if reply.Failed? {
        error := MessageOr(reply.failure, AddFailed);
        return;
      }
      success := AgentAdded;
      form := InitialForm();
    }
  }
}
