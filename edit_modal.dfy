/** The agent and client edit modals: a form reset from the record being edited, uniqueness checks that
  * skip unchanged values, and a PUT of the form. */
module EditModal {
  import opened Wrappers
  import opened Js
  import opened Http

  const RequiredEmpty := "Required fields cannot be empty"
  const FixErrors := "Please fix the validation errors before submitting"
  const EmailInUse := "This email is already in use"
  const PhoneNumberInUse := "This phone number is already in use"
  const AgentUpdateFailed := "Error updating agent"
  const AgentUpdateRetry := "Error updating agent. Please try again."
  const ClientUpdateFailed := "Error updating client"

  /** The two callbacks the modal's owner passes in. */
  datatype Event = OnUpdate | OnClose

  /**
   * The state of a modal. `form` holds the `formData` fields that are set; a field set to `undefined` is left out.
   * `validationErrors` maps a key to its message, or to None once the key was reset to `undefined`.
   */
  datatype ModalState = ModalState(
    form: map<string, Json>, error: string, loading: bool, validationErrors: map<string, Option<string>>)

  /** `formData.k || ''`. */
  function FormValue(form: map<string, Json>, k: string): (v: Json)
    ensures k in form && Truthy(form[k]) ==> v == form[k]
    ensures !(k in form && Truthy(form[k])) ==> v == JStr("")
  {
    if k in form && Truthy(form[k]) then form[k] else JStr("")
  }

  /** `record.f`, for the copies the reset effects make: an absent field stays absent. */
  function Pick(record: Json, fields: seq<string>): (m: map<string, Json>)
    ensures forall f :: f in m <==> f in fields && Prop(record, f).Some?
    ensures forall f :: f in m ==> m[f] == Prop(record, f).value
  {
    if fields == [] then map[]
    else
      var rest := Pick(record, fields[1..]);
      match Prop(record, fields[0])
      case Some(v) => rest[fields[0] := v]
      case None => rest
  }

  /**
   * `validateField(field, value)` against the record being edited, with the check's outcome given:
   * the validity and the check request it issued. `space` is `admin` or `agent`.
   */
  function ValidateField(space: string, original: Option<Json>, field: string, value: Json, answer: Reply)
    : (r: (bool, seq<Request>))
    // no truthy record, or the value it already has: valid, and nothing is asked
    ensures !TruthyOpt(original) || Prop(original.value, field) == Some(value) ==> r == (true, [])
    // otherwise one check goes out, and the value is valid iff the check answered with a falsy body
    ensures TruthyOpt(original) && Prop(original.value, field) != Some(value) ==>
              r.1 == [Get("/" + space + "/check-" + field, map[field := Str(value)])]
              && (r.0 <==> answer.Answered? && !Truthy(answer.data))
  {
    if !TruthyOpt(original) || Prop(original.value, field) == Some(value) then (true, [])
    else
      var req := Get("/" + space + "/check-" + field, map[field := Str(value)]);
      match answer
      case Answered(_, data) => (!Truthy(data), [req])
      case Failed(_) => (false, [req])
  }

  /** The four user fields the agent form copies as they are. */
  const UserFields := ["firstName", "lastName", "email", "phone"]

  /** The agent fields the form fills with a default when the agent has none. */
  const AgentDefaults: map<string, Json> := map["address" := JStr(""), "birthDate" := JStr(""),
    "identityType" := JStr("CIN"), "identityNumber" := JStr(""), "registrationNumber" := JStr(""),
    "patentNumber" := JStr("")]

  /** The agent form reset from the agent being edited: the four user fields as they are, the rest defaulted. */
  function AgentForm(agent: Json): (f: map<string, Json>)
    ensures forall k :: k in f <==> k in AgentDefaults || (k in UserFields && Prop(agent, k).Some?)
    ensures forall k :: k in AgentDefaults ==> f[k] == OrElse(Prop(agent, k), AgentDefaults[k])
    ensures forall k :: k in f && k !in AgentDefaults ==> f[k] == Prop(agent, k).value
  {
    Pick(agent, UserFields) + map k | k in AgentDefaults :: OrElse(Prop(agent, k), AgentDefaults[k])
  }

  /** The client form reset from the client being edited: seven fields copied as they are. */
  function ClientForm(client: Json): (f: map<string, Json>)
    ensures forall k :: k in f <==> k in ["firstName", "lastName", "email", "phone", "ceilingType", "status", "balance"]
                                    && Prop(client, k).Some?
    ensures forall k :: k in f ==> f[k] == Prop(client, k).value
  {
    Pick(client, ["firstName", "lastName", "email", "phone", "ceilingType", "status", "balance"])
  }

  /** The reset effect: a truthy record replaces the form and clears the validation errors; a missing or falsy one changes nothing. */
  function Reset(s: ModalState, record: Option<Json>, formOf: Json -> map<string, Json>): (o: ModalState)
    ensures !TruthyOpt(record) ==> o == s
    ensures TruthyOpt(record) ==> o == s.(form := formOf(record.value), validationErrors := map[])
  {
    if TruthyOpt(record) then s.(form := formOf(record.value), validationErrors := map[]) else s
  }

  /**
   * `handleChange` with the check's outcome given: the field is stored, and an e-mail or phone change
   * records its check's verdict under its own key. `value` is what the form stores (a number for a
   * client's balance).
   */
  function Change(space: string, s: ModalState, original: Option<Json>, name: string, value: Json, answer: Reply)
    : (o: (ModalState, seq<Request>))
    ensures o.0.form == s.form[name := value] && o.0.error == s.error && o.0.loading == s.loading
    ensures name != "email" && name != "phone" ==> o == (s.(form := s.form[name := value]), [])
    ensures name == "email" || name == "phone" ==>
              var (valid, calls) := ValidateField(space, original, name, value, answer);
              o.1 == calls
              && o.0.validationErrors == s.validationErrors[name := if valid then None else Some("This " + name + " is already in use")]
  {
    var s' := s.(form := s.form[name := value]);
    if name == "email" || name == "phone" then
      var (valid, calls) := ValidateField(space, original, name, value, answer);
      var message := if valid then None else Some("This " + name + " is already in use");
      (s'.(validationErrors := s'.validationErrors[name := message]), calls)
    else (s', [])
  }

  /** The value a client-modal input stores: the balance goes through `parseFloat`, the rest stay strings. */
  function ClientValue(name: string, value: string, parseFloat: string -> Json): (v: Json)
    ensures name == "balance" ==> v == parseFloat(value)
    ensures name != "balance" ==> v == JStr(value)
  {
    if name == "balance" then parseFloat(value) else JStr(value)
  }

  /** What a submit did: the new state, the requests issued, and the callbacks called, in order. */
  datatype Outcome = Outcome(state: ModalState, calls: seq<Request>, events: seq<Event>)

  /** `PUT /admin/agents/{id}` with the form as its body. */
  function AgentPutRequest(agent: Json, form: map<string, Json>): Request
  {
    Put("/admin/agents/" + StrOpt(Prop(agent, "id")), JObj(form))
  }

  /** What the agent PUT's outcome leaves behind: the error to show, if any, and the callbacks called. */
  function AgentPutResult(putReply: Reply): (r: (Option<string>, seq<Event>))
    // a 200 calls `onUpdate` then `onClose` and shows nothing; every other outcome shows an error and calls nothing
    ensures r.1 == [OnUpdate, OnClose] <==> r.0.None?
    ensures r.0.None? <==> putReply.Answered? && putReply.status == 200
    ensures r.1 != [] ==> r.1 == [OnUpdate, OnClose]
    ensures putReply.Answered? && putReply.status != 200 ==> r == (Some(DataOr(putReply.data, AgentUpdateFailed)), [])
    ensures putReply.Failed? ==> r == (Some(ErrorDataOr(putReply.failure, AgentUpdateRetry)), [])
  {
    match putReply
    case Answered(status, data) =>
      if status == 200 then (None, [OnUpdate, OnClose]) else (Some(DataOr(data, AgentUpdateFailed)), [])
    case Failed(e) => (Some(ErrorDataOr(e, AgentUpdateRetry)), [])
  }

  /** The four fields the agent modal requires. */
  predicate RequiredFilled(form: map<string, Json>)
  {
    forall k :: k in ["firstName", "lastName", "email", "phone"] ==> k in form && Truthy(form[k])
  }

  /** The validation errors a submit's checks leave: a message under each key whose check failed. */
  function CheckedErrors(emailValid: bool, phoneValid: bool): (m: map<string, Option<string>>)
    ensures m.Keys == {"email", "phone"}
    ensures m["email"].Some? <==> !emailValid
    ensures m["phone"].Some? <==> !phoneValid
  {
    map["email" := if emailValid then None else Some(EmailInUse), "phone" := if phoneValid then None else Some(PhoneNumberInUse)]
  }

  /** `AgentEditModal.handleSubmit`, with the outcomes of the two checks and of the PUT given. */
  function AgentSubmit(s: ModalState, agent: Option<Json>, emailAnswer: Reply, phoneAnswer: Reply, putReply: Reply)
    : (o: Outcome)
    // no truthy agent: nothing at all
    ensures !TruthyOpt(agent) ==> o == Outcome(s, [], [])
    // otherwise the form is kept, and loading ends false on every path
    ensures TruthyOpt(agent) ==> o.state.form == s.form && !o.state.loading
    // an empty required field stops the submit before any request
    ensures TruthyOpt(agent) && !RequiredFilled(s.form) ==> o == Outcome(s.(error := RequiredEmpty, loading := false), [], [])
    ensures TruthyOpt(agent) && RequiredFilled(s.form) ==>
              var (emailValid, emailCalls) := ValidateField("admin", agent, "email", FormValue(s.form, "email"), emailAnswer);
              var (phoneValid, phoneCalls) := ValidateField("admin", agent, "phone", FormValue(s.form, "phone"), phoneAnswer);
              // after the checks, each key holds a message exactly when its check failed
              && o.state.validationErrors == CheckedErrors(emailValid, phoneValid)
              // a failed check stops the submit before the PUT
              && (!(emailValid && phoneValid) ==> o == Outcome(o.state, emailCalls + phoneCalls, []) && o.state.error == FixErrors)
              // otherwise the PUT follows the checks, and its outcome decides the error and the callbacks
              && (emailValid && phoneValid ==>
                    && o.calls == emailCalls + phoneCalls + [AgentPutRequest(agent.value, s.form)]
                    && o.events == AgentPutResult(putReply).1
                    && o.state.error == (if AgentPutResult(putReply).0.Some? then AgentPutResult(putReply).0.value else ""))
  {
    if !TruthyOpt(agent) then Outcome(s, [], [])
    else
      var started := s.(loading := true, error := "");
      if !RequiredFilled(s.form) then Outcome(started.(error := RequiredEmpty, loading := false), [], [])
      else
        var (emailValid, emailCalls) := ValidateField("admin", agent, "email", FormValue(s.form, "email"), emailAnswer);
        var (phoneValid, phoneCalls) := ValidateField("admin", agent, "phone", FormValue(s.form, "phone"), phoneAnswer);
        var checked := started.(validationErrors := CheckedErrors(emailValid, phoneValid));
        if !(emailValid && phoneValid) then Outcome(checked.(error := FixErrors, loading := false), emailCalls + phoneCalls, [])
        else
          var (error, events) := AgentPutResult(putReply);
          var shown := if error.Some? then error.value else checked.error;
          Outcome(checked.(error := shown, loading := false),
                  emailCalls + phoneCalls + [AgentPutRequest(agent.value, s.form)], events)
  }

  /** `PUT /agent/clients/{id}` with the form as its body. */
  function ClientPutRequest(client: Json, form: map<string, Json>): Request
  {
    Put("/agent/clients/" + StrOpt(Prop(client, "id")), JObj(form))
  }

  /** `ClientEditModal.handleSubmit`, with the outcomes of the two checks and of the PUT given. */
  function ClientSubmit(s: ModalState, client: Option<Json>, emailAnswer: Reply, phoneAnswer: Reply, putReply: Reply)
    : (o: Outcome)
    ensures !TruthyOpt(client) ==> o == Outcome(s, [], [])
    // no required-field check, and the validation errors are never touched by a submit
    ensures TruthyOpt(client) ==> o.state.form == s.form && !o.state.loading && o.state.validationErrors == s.validationErrors
    ensures TruthyOpt(client) ==>
              var (emailValid, emailCalls) := ValidateField("agent", client, "email", FormValue(s.form, "email"), emailAnswer);
              var (phoneValid, phoneCalls) := ValidateField("agent", client, "phone", FormValue(s.form, "phone"), phoneAnswer);
              && (!(emailValid && phoneValid) ==> o == Outcome(o.state, emailCalls + phoneCalls, []) && o.state.error == FixErrors)
              && (emailValid && phoneValid ==>
                    && o.calls == emailCalls + phoneCalls + [ClientPutRequest(client.value, s.form)]
                    // a 200 calls `onUpdate` then `onClose`; another status shows nothing; a failure shows an error
                    && (o.events != [] <==> putReply.Answered? && putReply.status == 200)
                    && (o.events != [] ==> o.events == [OnUpdate, OnClose])
                    && o.state.error == (if putReply.Failed? then ErrorDataOr(putReply.failure, ClientUpdateFailed) else ""))
  {
    if !TruthyOpt(client) then Outcome(s, [], [])
    else
      var started := s.(loading := true, error := "");
      var (emailValid, emailCalls) := ValidateField("agent", client, "email", FormValue(s.form, "email"), emailAnswer);
      var (phoneValid, phoneCalls) := ValidateField("agent", client, "phone", FormValue(s.form, "phone"), phoneAnswer);
      if !(emailValid && phoneValid) then Outcome(started.(error := FixErrors, loading := false), emailCalls + phoneCalls, [])
      else
        var calls := emailCalls + phoneCalls + [ClientPutRequest(client.value, s.form)];
        match putReply
        case Answered(status, _) =>
          Outcome(started.(loading := false), calls, if status == 200 then [OnUpdate, OnClose] else [])
        case Failed(e) => Outcome(started.(error := ErrorDataOr(e, ClientUpdateFailed), loading := false), calls, [])
  }

  /** The submit button's `disabled`, as written: any key in `validationErrors` disables it, even one reset to `undefined`. */
  predicate SubmitDisabled(s: ModalState)
  {
    s.loading || |s.validationErrors.Keys| > 0
  }

  /** What the button evidently means: disabled while loading or while a validation message is shown. */
  predicate SubmitBlocked(s: ModalState)
  {
    s.loading || exists k :: k in s.validationErrors && s.validationErrors[k].Some?
  }

  /** As written, an edited e-mail or phone leaves its key in `validationErrors` for good, so the button stays disabled. */
  lemma CheckedFieldDisablesSubmit(space: string, s: ModalState, original: Option<Json>, name: string, value: Json, answer: Reply)
    requires name == "email" || name == "phone"
    ensures SubmitDisabled(Change(space, s, original, name, value, answer).0)
  {
    var o := Change(space, s, original, name, value, answer).0;
    assert name in o.validationErrors.Keys;
  }

  /** A concrete case: the e-mail is fixed to a free one, no message is shown, yet the button stays disabled. */
  lemma FixedEmailStillDisabled()
    ensures var s := ModalState(map[], "", false, map["email" := Some(EmailInUse)]);
            var o := Change("admin", s, Some(JObj(map["email" := JStr("a@b")])), "email", JStr("c@d"), Answered(200, JBool(false))).0;
            o.validationErrors == map["email" := None] && SubmitDisabled(o) && !SubmitBlocked(o)
  {
    var s := ModalState(map[], "", false, map["email" := Some(EmailInUse)]);
    var original := Some(JObj(map["email" := JStr("a@b")]));
    assert Prop(original.value, "email") == Some(JStr("a@b"));
    var o := Change("admin", s, original, "email", JStr("c@d"), Answered(200, JBool(false))).0;
    assert o.validationErrors == map["email" := None];
    assert "email" in o.validationErrors.Keys;
  }

  /** As corrected, an edit blocks the button exactly when its check failed or another message is still shown. */
  lemma CheckedFieldBlocksIff(space: string, s: ModalState, original: Option<Json>, name: string, value: Json, answer: Reply)
    requires name == "email" || name == "phone"
    ensures SubmitBlocked(Change(space, s, original, name, value, answer).0) <==>
              || s.loading
              || !ValidateField(space, original, name, value, answer).0
              || exists k :: k in s.validationErrors && k != name && s.validationErrors[k].Some?
  {
    var o := Change(space, s, original, name, value, answer).0;
    if !ValidateField(space, original, name, value, answer).0 {
      assert o.validationErrors[name].Some?;
    }
    if exists k :: k in o.validationErrors && o.validationErrors[k].Some? {
      var k :| k in o.validationErrors && o.validationErrors[k].Some?;
      if k != name {
        assert k in s.validationErrors && s.validationErrors[k].Some?;
      }
    }
    if exists k :: k in s.validationErrors && k != name && s.validationErrors[k].Some? {
      var k :| k in s.validationErrors && k != name && s.validationErrors[k].Some?;
      assert k in o.validationErrors && o.validationErrors[k].Some?;
    }
  }

  /** As written, once a submit reached the checks the button is disabled even when both checks passed;
    * as corrected it is blocked exactly when a check failed. */
  lemma CheckedSubmitDisables(s: ModalState, agent: Option<Json>, emailAnswer: Reply, phoneAnswer: Reply, putReply: Reply)
    requires TruthyOpt(agent) && RequiredFilled(s.form)
    ensures SubmitDisabled(AgentSubmit(s, agent, emailAnswer, phoneAnswer, putReply).state)
    ensures !SubmitBlocked(AgentSubmit(s, agent, emailAnswer, phoneAnswer, putReply).state) <==>
              && ValidateField("admin", agent, "email", FormValue(s.form, "email"), emailAnswer).0
              && ValidateField("admin", agent, "phone", FormValue(s.form, "phone"), phoneAnswer).0
  {
    var o := AgentSubmit(s, agent, emailAnswer, phoneAnswer, putReply);
    assert "email" in o.state.validationErrors.Keys;
  }

  /** The agent edit modal. `agent` is the record it edits, as its owner passes it in. */
  class AgentEditModal {
    var agent: Option<Json>
    var form: map<string, Json>
    var error: string
    var loading: bool
    var validationErrors: map<string, Option<string>>

    function State(): ModalState
      reads this
    {
      ModalState(form, error, loading, validationErrors)
    }

    /** Whether the submit button can be pressed, with the corrected rule. */
    function CanSubmit(): (b: bool)
      reads this
      ensures b ==> !loading
      ensures b <==> !SubmitBlocked(State())
    {
      !loading && forall k :: k in validationErrors ==> validationErrors[k].None?
    }

    /** The modal as first rendered, before the reset effect: an empty form, no messages. */
    constructor (agent: Option<Json>)
      ensures this.agent == agent && State() == ModalState(map[], "", false, map[])
    {
      this.agent := agent;
      form := map[];
      error := "";
      loading := false;
      validationErrors := map[];
    }

    /** The owner passes a new `agent`, and the reset effect runs. */
    method SetAgent(a: Option<Json>)
      modifies this
      ensures agent == a && State() == Reset(old(State()), a, AgentForm)
    {
      agent := a;
      if TruthyOpt(a) {
        form := AgentForm(a.value);
        validationErrors := map[];
      }
    }

    /** `handleChange`, with the answer of the check it may issue given. */
    method HandleChange(name: string, value: string, answer: Reply) returns (calls: seq<Request>)
      modifies this
      ensures agent == old(agent) && (State(), calls) == Change("admin", old(State()), agent, name, JStr(value), answer)
    {
      form := form[name := JStr(value)];
      calls := [];
      if name == "email" || name == "phone" {
        var (valid, checks) := ValidateField("admin", agent, name, JStr(value), answer);
        calls := checks;
        validationErrors := validationErrors[name := if valid then None else Some("This " + name + " is already in use")];
      }
    }

    /** `handleSubmit`, with the answers of the two checks and of the PUT given. */
    method HandleSubmit(emailAnswer: Reply, phoneAnswer: Reply, putReply: Reply) returns (calls: seq<Request>, events: seq<Event>)
      modifies this
      ensures agent == old(agent)
      ensures Outcome(State(), calls, events) == AgentSubmit(old(State()), agent, emailAnswer, phoneAnswer, putReply)
    {
      calls := [];
      events := [];
      if !TruthyOpt(agent) {
        return;
      }
      loading := true;
      error := "";
      if !RequiredFilled(form) {
        error := RequiredEmpty;
        loading := false;
        return;
      }
      var (emailValid, emailCalls) := ValidateField("admin", agent, "email", FormValue(form, "email"), emailAnswer);
      var (phoneValid, phoneCalls) := ValidateField("admin", agent, "phone", FormValue(form, "phone"), phoneAnswer);
      validationErrors := CheckedErrors(emailValid, phoneValid);
      if !(emailValid && phoneValid) {
        calls := emailCalls + phoneCalls;
        error := FixErrors;
        loading := false;
        return;
      }
      calls := emailCalls + phoneCalls + [AgentPutRequest(agent.value, form)];
      var (shown, called) := AgentPutResult(putReply);
      events := called;
      if shown.Some? {
        error := shown.value;
      }
      loading := false;
    }
  }

  /** The client edit modal. `client` is the record it edits, as its owner passes it in. */
  class ClientEditModal {
    var client: Option<Json>
    var form: map<string, Json>
    var error: string
    var loading: bool
    var validationErrors: map<string, Option<string>>

    function State(): ModalState
      reads this
    {
      ModalState(form, error, loading, validationErrors)
    }

    /** Whether the submit button can be pressed, with the corrected rule. */
    function CanSubmit(): (b: bool)
      reads this
      ensures b ==> !loading
      ensures b <==> !SubmitBlocked(State())
    {
      !loading && forall k :: k in validationErrors ==> validationErrors[k].None?
    }

    /** The modal as first rendered, before the reset effect: an empty form, no messages. */
    constructor (client: Option<Json>)
      ensures this.client == client && State() == ModalState(map[], "", false, map[])
    {
      this.client := client;
      form := map[];
      error := "";
      loading := false;
      validationErrors := map[];
    }

    /** The owner passes a new `client`, and the reset effect runs. */
    method SetClient(c: Option<Json>)
      modifies this
      ensures client == c && State() == Reset(old(State()), c, ClientForm)
    {
      client := c;
      if TruthyOpt(c) {
        form := ClientForm(c.value);
        validationErrors := map[];
      }
    }

    /** `handleChange`, with `parseFloat` and the answer of the check it may issue given. */
    method HandleChange(name: string, value: string, parseFloat: string -> Json, answer: Reply) returns (calls: seq<Request>)
      modifies this
      ensures client == old(client)
      ensures (State(), calls) == Change("agent", old(State()), client, name, ClientValue(name, value, parseFloat), answer)
    {
      var stored := ClientValue(name, value, parseFloat);
      form := form[name := stored];
      calls := [];
      if name == "email" || name == "phone" {
        var (valid, checks) := ValidateField("agent", client, name, stored, answer);
        calls := checks;
        validationErrors := validationErrors[name := if valid then None else Some("This " + name + " is already in use")];
      }
    }

    /** `handleSubmit`, with the answers of the two checks and of the PUT given. */
    method HandleSubmit(emailAnswer: Reply, phoneAnswer: Reply, putReply: Reply) returns (calls: seq<Request>, events: seq<Event>)
      modifies this
      ensures client == old(client)
      ensures Outcome(State(), calls, events) == ClientSubmit(old(State()), client, emailAnswer, phoneAnswer, putReply)
    {
      calls := [];
      events := [];
      if !TruthyOpt(client) {
        return;
      }
      loading := true;
      error := "";
      var (emailValid, emailCalls) := ValidateField("agent", client, "email", FormValue(form, "email"), emailAnswer);
      var (phoneValid, phoneCalls) := ValidateField("agent", client, "phone", FormValue(form, "phone"), phoneAnswer);
      calls := emailCalls + phoneCalls;
      if !(emailValid && phoneValid) {
        error := FixErrors;
        loading := false;
        return;
      }
      calls := calls + [ClientPutRequest(client.value, form)];
      match putReply {
        case Answered(status, _) =>
          if status == 200 {
            events := [OnUpdate, OnClose];
          }
        case Failed(e) =>
          error := ErrorDataOr(e, ClientUpdateFailed);
      }
      loading := false;
    }
  }
}
