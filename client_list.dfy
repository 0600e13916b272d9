/** The client table shared by the admin and agent spaces: a fetch from the role's endpoint, a search
  * filter, deactivation behind a confirmation, and the edit modal's selection. */
module ClientList {
  import opened Wrappers
  import opened Js
  import opened Http

  const ViewForbidden := "You do not have permission to view clients"
  const FetchFailed := "Failed to fetch clients"
  const DeactivateForbidden := "You do not have permission to deactivate clients"
  const DeactivateFailed := "Error deactivating client"

  /** The fields of a client the table searches and acts on. */
  datatype Client = Client(id: int, firstName: string, lastName: string, email: string, phone: string)

  /** `getBaseEndpoint()`: the admin reads the clients through the admin API, anyone else through the agent API. */
  function BaseEndpoint(userRole: string): (path: string)
    ensures userRole == "admin" <==> path == "/admin/clients"
    ensures userRole != "admin" <==> path == "/agent/clients"
  {
    if userRole == "admin" then "/admin/clients" else "/agent/clients"
  }

  /** The search predicate: the full name or the e-mail, both lower-cased, or the phone as typed. */
  predicate ClientMatches(c: Client, term: string)
  {
    || Includes(ToLower(c.firstName + " " + c.lastName), ToLower(term))
    || Includes(c.phone, term)
    || (c.email != "" && Includes(ToLower(c.email), ToLower(term)))
  }

  /** `filteredClients`. */
  function FilteredClients(clients: seq<Client>, term: string): (r: seq<Client>)
    ensures |r| <= |clients|
    ensures forall c :: c in r ==> c in clients && ClientMatches(c, term)
  {
    Filter(clients, c => ClientMatches(c, term))
  }

  /** A client is shown exactly when it is in the list and matches, and the shown clients keep the list's order. */
  lemma FilteredClientsSpec(clients: seq<Client>, term: string, c: Client)
    ensures c in FilteredClients(clients, term) <==> c in clients && ClientMatches(c, term)
    ensures IsSubsequence(FilteredClients(clients, term), clients)
  {
    FilterMembership(clients, c => ClientMatches(c, term), c);
    FilterIsSubsequence(clients, c => ClientMatches(c, term));
  }

  /** An empty search shows every client. */
  lemma EmptySearchKeepsAll(clients: seq<Client>)
    ensures FilteredClients(clients, "") == clients
  {
    forall i | 0 <= i < |clients|
      ensures ClientMatches(clients[i], "")
    {
      IncludesEmpty(clients[i].phone);
    }
    FilterKeepsAll(clients, c => ClientMatches(c, ""));
  }

  /** The message a failed fetch shows. */
  function FetchErrorText(e: JsError): (text: string)
    ensures IsForbidden(e) <==> text == ViewForbidden
    ensures !IsForbidden(e) <==> text == FetchFailed
  {
    if IsForbidden(e) then ViewForbidden else FetchFailed
  }

  /** The message a failed deactivation shows. */
  function DeactivateErrorText(e: JsError): (text: string)
    ensures IsForbidden(e) <==> text == DeactivateForbidden
    ensures !IsForbidden(e) <==> text == DeactivateFailed
  {
    if IsForbidden(e) then DeactivateForbidden else DeactivateFailed
  }

  /** The state of the table. `isDeleting` is the id whose deactivation is in flight. */
  datatype ListState = ListState(
    clients: seq<Client>, searchTerm: string, loading: bool, error: string,
    isDeleting: Option<int>, selected: Option<Client>, editOpen: bool)

  /** `fetchClients`, with the answer given: a list replaces the clients and clears the error; a failure keeps them. */
  function Fetch(s: ListState, reply: ListReply<Client>): (o: ListState)
    ensures !o.loading && o.searchTerm == s.searchTerm && o.isDeleting == s.isDeleting
    ensures o.selected == s.selected && o.editOpen == s.editOpen
    ensures reply.Listed? ==> o.clients == reply.items && o.error == ""
    ensures reply.ListFailed? ==> o.clients == s.clients && o.error == FetchErrorText(reply.failure)
  {
    match reply
    case Listed(items) => s.(clients := items, error := "", loading := false)
    case ListFailed(e) => s.(error := FetchErrorText(e), loading := false)
  }

  /** `DELETE {endpoint}/{id}`. */
  function DeactivateRequest(userRole: string, id: int): Request
  {
    Delete(BaseEndpoint(userRole) + "/" + IntToDecimal(id))
  }

  /**
   * `handleDeactivate(id)`, with the confirmation, the DELETE's outcome and the refetch's answer given:
   * the new state and the requests issued.
   */
  function Deactivate(s: ListState, userRole: string, id: int, confirmed: bool, deleteReply: Reply, listReply: ListReply<Client>)
    : (o: (ListState, seq<Request>))
    // unconfirmed: nothing happens
    ensures !confirmed ==> o == (s, [])
    // confirmed: the DELETE goes out first, and no deactivation is left in flight
    ensures confirmed ==> 1 <= |o.1| <= 2 && o.1[0] == DeactivateRequest(userRole, id) && o.0.isDeleting == None
    // a refetch follows only a DELETE that went through
    ensures confirmed && deleteReply.Answered? ==>
              o.1 == [DeactivateRequest(userRole, id), Get(BaseEndpoint(userRole), map[])]
              && o.0 == Fetch(s, listReply).(isDeleting := None)
    ensures confirmed && deleteReply.Failed? ==>
              o == (s.(error := DeactivateErrorText(deleteReply.failure), isDeleting := None), [DeactivateRequest(userRole, id)])
  {
    if !confirmed then (s, [])
    else
      var deleting := s.(isDeleting := Some(id));
      match deleteReply
      case Answered(_, _) =>
        (Fetch(deleting, listReply).(isDeleting := None), [DeactivateRequest(userRole, id), Get(BaseEndpoint(userRole), map[])])
      case Failed(e) =>
        (deleting.(error := DeactivateErrorText(e), isDeleting := None), [DeactivateRequest(userRole, id)])
  }

  class ClientListPage {
    const userRole: string
    var clients: seq<Client>
    var searchTerm: string
    var loading: bool
    var error: string
    var isDeleting: Option<int>
    var selected: Option<Client>
    var editOpen: bool

    function State(): ListState
      reads this
    {
      ListState(clients, searchTerm, loading, error, isDeleting, selected, editOpen)
    }

    /** The rows on screen. */
    function Shown(): (r: seq<Client>)
      reads this
      ensures forall c :: c in r <==> c in clients && ClientMatches(c, searchTerm)
    {
      var r := FilteredClients(clients, searchTerm);
      assert forall c :: c in r <==> c in clients && ClientMatches(c, searchTerm) by {
        forall c
          ensures c in r <==> c in clients && ClientMatches(c, searchTerm)
        {
          FilteredClientsSpec(clients, searchTerm, c);
        }
      }
      r
    }

    /** The table as first rendered, before its fetch: no clients, loading. */
    constructor (userRole: string)
      ensures this.userRole == userRole
      ensures State() == ListState([], "", true, "", None, None, false)
    {
      this.userRole := userRole;
      clients := [];
      searchTerm := "";
      loading := true;
      error := "";
      isDeleting := None;
      selected := None;
      editOpen := false;
    }

    /** `fetchClients`, run on mount, after a deactivation and as the modal's `onUpdate`. */
    method FetchClients(reply: ListReply<Client>) returns (calls: seq<Request>)
      modifies this
      ensures State() == Fetch(old(State()), reply)
      ensures calls == [Get(BaseEndpoint(userRole), map[])]
    {
      loading := true;
      calls := [Get(BaseEndpoint(userRole), map[])];
      match reply {
        case Listed(items) =>
          clients := items;
          error := "";
        case ListFailed(e) =>
          error := FetchErrorText(e);
      }
      loading := false;
    }

    /** The search box. */
    method SetSearchTerm(term: string)
      modifies this
      ensures State() == old(State()).(searchTerm := term)
    {
      searchTerm := term;
    }

    /** `handleEdit`: the client is selected and the modal opens. */
    method HandleEdit(c: Client)
      modifies this
      ensures State() == old(State()).(selected := Some(c), editOpen := true)
    {
      selected := Some(c);
      editOpen := true;
    }

    /** The modal's `onClose`: the modal closes and the selection is cleared. */
    method CloseModal()
      modifies this
      ensures State() == old(State()).(selected := None, editOpen := false)
    {
      editOpen := false;
      selected := None;
    }

    /** `handleDeactivate(id)`, with the confirmation and the answers given. */
    method HandleDeactivate(id: int, confirmed: bool, deleteReply: Reply, listReply: ListReply<Client>)
      returns (calls: seq<Request>)
      modifies this
      ensures (State(), calls) == Deactivate(old(State()), userRole, id, confirmed, deleteReply, listReply)
    {
      calls := [];
      if !confirmed {
        return;
      }
      isDeleting := Some(id);
      calls := [DeactivateRequest(userRole, id)];
      if deleteReply.Failed? {
        error := DeactivateErrorText(deleteReply.failure);
      } else {
        var refetch := FetchClients(listReply);
        assert State() == Fetch(old(State()).(isDeleting := Some(id)), listReply);
        calls := calls + refetch;
        assert calls == [DeactivateRequest(userRole, id), Get(BaseEndpoint(userRole), map[])];
      }
      isDeleting := None;
    }

    /** The timer a failed deactivation sets: three seconds later the message is cleared. */
    method ErrorTimeout()
      modifies this
      ensures State() == old(State()).(error := "")
    {
      error := "";
    }
  }
}
