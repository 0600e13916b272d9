/** The agent's "add client" page: a five-field form, live e-mail and phone availability checks,
  * the client POST, and the e-mail that carries the temporary password the backend returns. */
module AddClient {
  import opened Wrappers
  import opened Js
  import opened Http

  const ClientsPath := "/agent/clients"
  const CheckEmailPath := "/client/check-email"
  const CheckPhonePath := "/client/check-phone"
  /** The mail service is called directly, not through the backend instance. */
  const SendEmailUrl := "https://notifcationservice.onrender.com/send-email"
  const MailSubject := "Your Temporary Password"

  const EmailTaken := "Cet email existe déjà."
  const PhoneTaken := "Ce numéro de téléphone existe déjà."
  const MailFailed := "Failed to send email with temporary password. Please contact support."
  const CreateFailed := "Une erreur est survenue lors de la création du client"
  /** The message of the TypeError thrown by reading `temporaryPassword` of a null body (V8's wording). */
  const NullBodyMessage := "Cannot read properties of null (reading 'temporaryPassword')"

  const ClientFields: set<string> := {"firstName", "lastName", "email", "phone", "ceilingType"}

  /** The initial form: every field empty, the account type `HSSAB1`. */
  function InitialForm(): (f: map<string, string>)
    ensures f.Keys == ClientFields && f["ceilingType"] == "HSSAB1"
    ensures forall k :: k in f && k != "ceilingType" ==> f[k] == ""
  {
    map k | k in ClientFields :: if k == "ceilingType" then "HSSAB1" else ""
  }

  /** The form field an input writes: the account-type select writes `ceilingType`. */
  function FieldFor(name: string): (k: string)
    ensures name == "accountType" ==> k == "ceilingType"
    ensures name != "accountType" ==> k == name
  {
    if name == "accountType" then "ceilingType" else name
  }

  /** The mail text, with the names and the temporary password filled in. */
  function MailText(first: string, last: string, password: string): string
  {
    "Dear " + first + " " + last + ",\n\nYour temporary password is: " + password
      + "\n\nPlease change this password upon your first login.\n\nBest regards,\nYour App Team"
  }

  /** The mail carries the password it is about. */
  lemma MailCarriesPassword(first: string, last: string, password: string)
    ensures Includes(MailText(first, last, password), password)
  {
    var pre := "Dear " + first + " " + last + ",\n\nYour temporary password is: ";
    var post := "\n\nPlease change this password upon your first login.\n\nBest regards,\nYour App Team";
    var text := MailText(first, last, password);
    assert text == pre + password + post;
    assert text[|pre|..|pre| + |password|] == password;
    assert OccursAt(text, password, |pre|);
    IncludesIff(text, password);
  }

  /** `emailService.sendEmail(to, subject, text)`: a GET with the three as query parameters. */
  function MailRequest(to: string, text: string): (r: Request)
    ensures r.verb == GET && r.path == SendEmailUrl
    ensures r.params == map["to" := to, "subject" := MailSubject, "text" := text]
  {
    Get(SendEmailUrl, map["to" := to, "subject" := MailSubject, "text" := text])
  }

  /** `apiError.response?.data || apiError.message || fallback`. */
  function CreateErrorText(e: JsError): (text: string)
    ensures e.response.Some? && Truthy(e.response.value.data) ==> text == Str(e.response.value.data)
    ensures !(e.response.Some? && Truthy(e.response.value.data)) && e.message != "" ==> text == e.message
    ensures !(e.response.Some? && Truthy(e.response.value.data)) && e.message == "" ==> text == CreateFailed
  {
    ErrorDataOr(e, if e.message != "" then e.message else CreateFailed)
  }

  datatype AddClientState = AddClientState(
    form: map<string, string>, error: string, emailExists: Json, phoneExists: Json, isSubmitting: bool)

  /** What the page does once the POST is answered. */
  datatype Outcome = Outcome(state: AddClientState, calls: seq<Request>, navigateTo: Option<string>)

  /** `handleChange`: the field is stored; a non-empty e-mail or phone fires its availability check. */
  function Change(s: AddClientState, name: string, value: string): (o: (AddClientState, seq<Request>))
    ensures o.0 == s.(form := s.form[FieldFor(name) := value])
    ensures o.1 != [] <==> (name == "email" || name == "phone") && value != ""
    ensures o.1 != [] && name == "email" ==> o.1 == [Get(CheckEmailPath, map["email" := value])]
    ensures o.1 != [] && name == "phone" ==> o.1 == [Get(CheckPhonePath, map["phone" := value])]
  {
    var s' := s.(form := s.form[FieldFor(name) := value]);
    if name == "email" && value != "" then (s', [Get(CheckEmailPath, map["email" := value])])
    else if name == "phone" && value != "" then (s', [Get(CheckPhonePath, map["phone" := value])])
    else (s', [])
  }

  /** Emptying the e-mail does not fire a check, so a "taken" answer from before stays in force. */
  lemma ClearingEmailKeepsFlag(s: AddClientState)
    ensures Change(s, "email", "").0.emailExists == s.emailExists && Change(s, "email", "").1 == []
  {
  }

  /** The submit button's `disabled`. */
  predicate SubmitDisabled(s: AddClientState)
  {
    s.isSubmitting || Truthy(s.emailExists) || Truthy(s.phoneExists)
  }

  /** The end of a submit whose POST answered with a body: the optional mail, then the move to the client list. */
  function Created(s: AddClientState, post: Request, data: Json, mailReply: Reply): (o: Outcome)
    requires ClientFields <= s.form.Keys
    ensures o.state == s.(error := o.state.error, isSubmitting := false)
    // a mail goes out exactly when the answer carries a temporary password, to the client's address
    ensures 1 <= |o.calls| <= 2 && o.calls[0] == post && o.navigateTo == Some(ClientsPath)
    ensures |o.calls| == 2 <==> TruthyOpt(Prop(data, "temporaryPassword"))
    ensures |o.calls| == 2 ==> o.calls[1] == MailRequest(s.form["email"],
              MailText(s.form["firstName"], s.form["lastName"], Str(Prop(data, "temporaryPassword").value)))
    // only a failed mail leaves an error behind
    ensures o.state.error == (if |o.calls| == 2 && mailReply.Failed? then MailFailed else s.error)
  {
    var pw := Prop(data, "temporaryPassword");
    if TruthyOpt(pw) then
      var mail := MailRequest(s.form["email"], MailText(s.form["firstName"], s.form["lastName"], Str(pw.value)));
      var s' := if mailReply.Failed? then s.(error := MailFailed) else s;
      Outcome(s'.(isSubmitting := false), [post, mail], Some(ClientsPath))
    else Outcome(s.(isSubmitting := false), [post], Some(ClientsPath))
  }

  /** `handleSubmit`, with the outcomes of the client POST and of the mail given. */
  function Submit(s: AddClientState, postReply: Reply, mailReply: Reply): (o: Outcome)
    requires ClientFields <= s.form.Keys
    // the form and the flags are kept, and the submit always ends
    ensures o.state.form == s.form && o.state.emailExists == s.emailExists && o.state.phoneExists == s.phoneExists
    ensures !o.state.isSubmitting
    // the client is posted, as the form stands, exactly when neither check found a taken value
    ensures o.calls != [] <==> !Truthy(s.emailExists) && !Truthy(s.phoneExists)
    ensures o.calls != [] ==> o.calls[0] == Post(ClientsPath, ObjOf(s.form))
    ensures Truthy(s.emailExists) ==> o.state.error == EmailTaken
    ensures !Truthy(s.emailExists) && Truthy(s.phoneExists) ==> o.state.error == PhoneTaken
    // the page moves on to the client list exactly when the POST answered with a body
    ensures o.navigateTo.Some? <==> o.calls != [] && postReply.Answered? && postReply.data != JNull
    ensures o.navigateTo.Some? ==> o == Created(s.(error := ""), o.calls[0], postReply.data, mailReply)
    // the errors of a failed creation
    ensures o.calls != [] && postReply.Failed? ==> o.state.error == CreateErrorText(postReply.failure)
    ensures o.calls != [] && postReply.Answered? && postReply.data == JNull ==> o.state.error == NullBodyMessage
  {
    var started := s.(error := "", isSubmitting := true);
    if Truthy(s.emailExists) then Outcome(started.(error := EmailTaken, isSubmitting := false), [], None)
    else if Truthy(s.phoneExists) then Outcome(started.(error := PhoneTaken, isSubmitting := false), [], None)
    else
      var post := Post(ClientsPath, ObjOf(s.form));
      match postReply
      case Failed(e) => Outcome(started.(error := CreateErrorText(e), isSubmitting := false), [post], None)
      case Answered(_, data) =>
        if data == JNull then
          // reading `temporaryPassword` of null throws; the TypeError has no response
          Outcome(started.(error := CreateErrorText(JsError(None, NullBodyMessage)), isSubmitting := false), [post], None)
        else Created(started, post, data, mailReply)
  }

  /** A mail that went out carries the temporary password the backend returned. */
  lemma MailHasTemporaryPassword(s: AddClientState, postReply: Reply, mailReply: Reply)
    requires ClientFields <= s.form.Keys
    requires |Submit(s, postReply, mailReply).calls| == 2
    ensures postReply.Answered? && TruthyOpt(Prop(postReply.data, "temporaryPassword"))
    ensures Includes(Submit(s, postReply, mailReply).calls[1].params["text"],
                     Str(Prop(postReply.data, "temporaryPassword").value))
  {
    MailCarriesPassword(s.form["firstName"], s.form["lastName"], Str(Prop(postReply.data, "temporaryPassword").value));
  }

  /** The button's rule and the submit's own guards agree: with no submit running, the button blocks exactly the
    * pages a submit would not post; after any submit it is disabled exactly when nothing was posted. */
  lemma DisabledButtonMatchesGuards(s: AddClientState, postReply: Reply, mailReply: Reply)
    requires ClientFields <= s.form.Keys
    ensures !s.isSubmitting ==> (SubmitDisabled(s) <==> Submit(s, postReply, mailReply).calls == [])
    ensures SubmitDisabled(Submit(s, postReply, mailReply).state) <==> Submit(s, postReply, mailReply).calls == []
  {
  }

  /** A check that answers "taken" disables the button, and a submit of that page posts nothing. */
  lemma TakenAnswerDisablesSubmit(s: AddClientState, name: string, value: string, reply: Reply,
                                  postReply: Reply, mailReply: Reply)
    requires ClientFields <= s.form.Keys
    requires (name == "email" || name == "phone") && value != ""
    requires reply.Answered? && Truthy(reply.data)
    ensures var s' := Change(s, name, value).0;
            var checked := if name == "email" then s'.(emailExists := CheckResult(s'.emailExists, reply))
                           else s'.(phoneExists := CheckResult(s'.phoneExists, reply));
            ClientFields <= checked.form.Keys
            && Change(s, name, value).1 != []
            && SubmitDisabled(checked)
            && Submit(checked, postReply, mailReply).calls == []
  {
  }

  class AddClientPage {
    var form: map<string, string>
    var error: string
    var emailExists: Json
    var phoneExists: Json
    var isSubmitting: bool

    ghost predicate Valid()
      reads this
    {
      ClientFields <= form.Keys
    }

    function State(): AddClientState
      reads this
    {
      AddClientState(form, error, emailExists, phoneExists, isSubmitting)
    }

    constructor ()
      ensures Valid() && State() == AddClientState(InitialForm(), "", JBool(false), JBool(false), false)
    {
      form := InitialForm();
      error := "";
      emailExists := JBool(false);
      phoneExists := JBool(false);
      isSubmitting := false;
    }

    /** `handleChange`; answers the availability check it fires, if any. */
    method HandleChange(name: string, value: string) returns (calls: seq<Request>)
      requires Valid()
      modifies this
      ensures Valid() && (State(), calls) == Change(old(State()), name, value)
    {
      form := form[FieldFor(name) := value];
      calls := [];
      if name == "email" && value != "" {
        calls := [Get(CheckEmailPath, map["email" := value])];
      }
      if name == "phone" && value != "" {
        calls := [Get(CheckPhonePath, map["phone" := value])];
      }
    }

    /** The end of `checkEmail`. */
    method OnEmailChecked(reply: Reply)
      modifies this
      ensures State() == old(State()).(emailExists := CheckResult(old(emailExists), reply))
    {
      if reply.Answered? {
        emailExists := reply.data;
      }
    }

    /** The end of `checkPhone`. */
    method OnPhoneChecked(reply: Reply)
      modifies this
      ensures State() == old(State()).(phoneExists := CheckResult(old(phoneExists), reply))
    {
      if reply.Answered? {
        phoneExists := reply.data;
      }
    }

    /** `handleSubmit`, with the outcomes of the POST and of the mail given; answers the requests and the navigation. */
    method HandleSubmit(postReply: Reply, mailReply: Reply) returns (calls: seq<Request>, navigateTo: Option<string>)
      requires Valid()
      modifies this
      ensures Valid() && Outcome(State(), calls, navigateTo) == Submit(old(State()), postReply, mailReply)
    {
      error := "";
      isSubmitting := true;
      calls := [];
      navigateTo := None;
      if Truthy(emailExists) {
        error := EmailTaken;
        isSubmitting := false;
        return;
      }
      if Truthy(phoneExists) {
        error := PhoneTaken;
        isSubmitting := false;
        return;
      }
      var post := Post(ClientsPath, ObjOf(form));
      calls := [post];
      if postReply.Failed? {
        error := CreateErrorText(postReply.failure);
      } else if postReply.data == JNull {
        error := CreateErrorText(JsError(None, NullBodyMessage));
      } else {
        calls, navigateTo := AfterCreated(post, postReply.data, mailReply);
      }
      isSubmitting := false;
    }
  
    /** The end of `handleSubmit` once the POST answered with a body. */
    method AfterCreated(post: Request, data: Json, mailReply: Reply) returns (calls: seq<Request>, navigateTo: Option<string>)
      requires Valid()
      modifies this
      ensures Valid() && Outcome(State(), calls, navigateTo) == Created(old(State()), post, data, mailReply)
    {
      calls := [post];
      var pw := Prop(data, "temporaryPassword");
      if TruthyOpt(pw) {
        calls := [post, MailRequest(form["email"], MailText(form["firstName"], form["lastName"], Str(pw.value)))];
        if mailReply.Failed? {
          error := MailFailed;
        }
      }
      navigateTo := Some(ClientsPath);
      isSubmitting := false;
    }
  }
}
