/** The admin's agent table: a fetch of all agents, a search filter, deactivation behind a confirmation,
  * and the edit modal's selection. */
module AgentList {
  import opened Wrappers
  import opened Js
  import opened Http

  const AgentsPath := "/admin/agents"

  /** The fields of an agent the table searches and acts on. */
  datatype Agent = Agent(id: int, firstName: string, lastName: string, email: string, phone: string)

  /** The search predicate: the lower-cased first name, or the phone as typed. */
  predicate AgentMatches(a: Agent, term: string)
  {
    Includes(ToLower(a.firstName), ToLower(term)) || Includes(a.phone, term)
  }

  /** `filteredAgents`. */
  function FilteredAgents(agents: seq<Agent>, term: string): (r: seq<Agent>)
    ensures |r| <= |agents|
    ensures forall a :: a in r ==> a in agents && AgentMatches(a, term)
  {
    Filter(agents, a => AgentMatches(a, term))
  }

  /** An agent is shown exactly when it is in the list and matches, and the shown agents keep the list's order. */
  lemma FilteredAgentsSpec(agents: seq<Agent>, term: string, a: Agent)
    ensures a in FilteredAgents(agents, term) <==> a in agents && AgentMatches(a, term)
    ensures IsSubsequence(FilteredAgents(agents, term), agents)
  {
    FilterMembership(agents, a => AgentMatches(a, term), a);
    FilterIsSubsequence(agents, a => AgentMatches(a, term));
  }

  /** The last name and the e-mail are not searched: two agents that differ only there are shown or hidden together. */
  lemma LastNameAndEmailIgnored(a: Agent, lastName: string, email: string, term: string)
    ensures AgentMatches(a, term) <==> AgentMatches(a.(lastName := lastName, email := email), term)
  {
  }

  /** An empty search shows every agent. */
  lemma EmptySearchKeepsAll(agents: seq<Agent>)
    ensures FilteredAgents(agents, "") == agents
  {
    forall i | 0 <= i < |agents|
      ensures AgentMatches(agents[i], "")
    {
      IncludesEmpty(agents[i].phone);
    }
    FilterKeepsAll(agents, a => AgentMatches(a, ""));
  }

  /** The state of the table. */
  datatype ListState = ListState(agents: seq<Agent>, searchTerm: string, selected: Option<Agent>, editOpen: bool)

  /** `fetchAgents`, with the answer given: a list replaces the agents; a failure changes nothing. */
  function Fetch(s: ListState, reply: ListReply<Agent>): (o: ListState)
    ensures reply.Listed? ==> o == s.(agents := reply.items)
    ensures reply.ListFailed? ==> o == s
  {
    match reply
    case Listed(items) => s.(agents := items)
    case ListFailed(_) => s
  }

  /** `DELETE /admin/agents/{id}`. */
  function DeactivateRequest(id: int): Request
  {
    Delete(AgentsPath + "/" + IntToDecimal(id))
  }

  /** `handleDeactivate(id)`, with the confirmation, the DELETE's outcome and the refetch's answer given. */
  function Deactivate(s: ListState, id: int, confirmed: bool, deleteReply: Reply, listReply: ListReply<Agent>)
    : (o: (ListState, seq<Request>))
    // unconfirmed: no request and no change
    ensures !confirmed ==> o == (s, [])
    // confirmed: the DELETE goes out first; a refetch follows only a DELETE that went through
    ensures confirmed && deleteReply.Answered? ==> o == (Fetch(s, listReply), [DeactivateRequest(id), Get(AgentsPath, map[])])
    // a failed DELETE is only logged
    ensures confirmed && deleteReply.Failed? ==> o == (s, [DeactivateRequest(id)])
  {
    if !confirmed then (s, [])
    else if deleteReply.Failed? then (s, [DeactivateRequest(id)])
    else (Fetch(s, listReply), [DeactivateRequest(id), Get(AgentsPath, map[])])
  }

  /** Only a confirmed deactivation touches the list, and only through a refetch after the DELETE. */
  lemma DeactivateNeedsConfirmation(s: ListState, id: int, confirmed: bool, deleteReply: Reply, listReply: ListReply<Agent>)
    ensures Deactivate(s, id, confirmed, deleteReply, listReply).1 != [] <==> confirmed
    ensures Deactivate(s, id, confirmed, deleteReply, listReply).0.agents != s.agents ==>
              confirmed && Deactivate(s, id, confirmed, deleteReply, listReply).1 == [DeactivateRequest(id), Get(AgentsPath, map[])]
  {
  }

  class AgentListPage {
    var agents: seq<Agent>
    var searchTerm: string
    var selected: Option<Agent>
    var editOpen: bool

    function State(): ListState
      reads this
    {
      ListState(agents, searchTerm, selected, editOpen)
    }

    /** The rows on screen. */
    function Shown(): (r: seq<Agent>)
      reads this
      ensures forall a :: a in r <==> a in agents && AgentMatches(a, searchTerm)
    {
      var r := FilteredAgents(agents, searchTerm);
      assert forall a :: a in r <==> a in agents && AgentMatches(a, searchTerm) by {
        forall a
          ensures a in r <==> a in agents && AgentMatches(a, searchTerm)
        {
          FilteredAgentsSpec(agents, searchTerm, a);
        }
      }
      r
    }

    /** The table as first rendered, before its fetch. */
    constructor ()
      ensures State() == ListState([], "", None, false)
    {
      agents := [];
      searchTerm := "";
      selected := None;
      editOpen := false;
    }

    /** `fetchAgents`, run on mount, after a deactivation and as the modal's `onUpdate`. */
    method FetchAgents(reply: ListReply<Agent>) returns (calls: seq<Request>)
      modifies this
      ensures State() == Fetch(old(State()), reply) && calls == [Get(AgentsPath, map[])]
    {
      calls := [Get(AgentsPath, map[])];
      if reply.Listed? {
        agents := reply.items;
      }
    }

    /** The search box. */
    method SetSearchTerm(term: string)
      modifies this
      ensures State() == old(State()).(searchTerm := term)
    {
      searchTerm := term;
    }

    /** `handleEdit`: the agent is selected and the modal opens. */
    method HandleEdit(a: Agent)
      modifies this
      ensures State() == old(State()).(selected := Some(a), editOpen := true)
    {
      selected := Some(a);
      editOpen := true;
    }

    /** The modal's `onClose`: the modal closes and the selection is cleared. */
    method CloseModal()
      modifies this
      ensures State() == old(State()).(selected := None, editOpen := false)
    {
      editOpen := false;
      selected := None;
    }

    /** `handleDeactivate(id)`, with the confirmation and the answers given. */
    method HandleDeactivate(id: int, confirmed: bool, deleteReply: Reply, listReply: ListReply<Agent>)
      returns (calls: seq<Request>)
      modifies this
      ensures (State(), calls) == Deactivate(old(State()), id, confirmed, deleteReply, listReply)
    {
      calls := [];
      if !confirmed {
        return;
      }
      calls := [DeactivateRequest(id)];
      if deleteReply.Answered? {
        var refetch := FetchAgents(listReply);
        calls := calls + refetch;
        assert calls == [DeactivateRequest(id), Get(AgentsPath, map[])];
      }
    }
  }
}
