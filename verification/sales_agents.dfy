/** The Sales Agent Management screen's per-agent lead statistics. Unlike
    the Reports screen, it matches a lead to an agent only through a
    populated agent document; a bare identifier is not recognised. */
module SalesAgentManagement {
  import opened CrmModel
  import Reports

  /** `l.salesAgent?._id === agentId`. */
  predicate PopulatedBy(ref: AgentRef, agentId: Id) {
    ref.Populated? && ref.id == agentId
  }

  /** The leads `getLeadStats` counts for an agent, in list order. */
  function AgentLeads(leads: seq<Lead>, agentId: Id): (r: seq<Lead>)
    ensures IsSubsequence(r, leads)
    ensures forall l :: l in r <==> l in leads && PopulatedBy(l.salesAgent, agentId)
  {
    if leads == [] then []
    else
      var rest := AgentLeads(leads[1..], agentId);
      assert forall l :: l in leads <==> l == leads[0] || l in leads[1..];
      if PopulatedBy(leads[0].salesAgent, agentId) then [leads[0]] + rest else rest
  }

  datatype LeadStats = LeadStats(total: nat, closed: nat)

  /** `getLeadStats`: how many leads the agent holds and how many of them are
      Closed. */
  function GetLeadStats(leads: seq<Lead>, agentId: Id): (stats: LeadStats)
    ensures stats.total == |AgentLeads(leads, agentId)| <= |leads|
    ensures stats.closed == CountStatus(AgentLeads(leads, agentId), Closed)
    ensures stats.closed <= stats.total
  {
    var agentLeads := AgentLeads(leads, agentId);
    SubsequenceLength(agentLeads, leads);
    LeadStats(|agentLeads|, CountStatus(agentLeads, Closed))
  }

  lemma {:induction false} SubsequenceLength(a: seq<Lead>, b: seq<Lead>)
    requires IsSubsequence(a, b)
    ensures |a| <= |b|
    decreases |b|
  {
    if a != [] {
      if a[0] == b[0] && IsSubsequence(a[1..], b[1..]) {
        SubsequenceLength(a[1..], b[1..]);
      } else {
        SubsequenceLength(a, b[1..]);
      }
    }
  }

  lemma {:induction false} AgentLeadsAppend(a: seq<Lead>, b: seq<Lead>, agentId: Id)
    ensures AgentLeads(a + b, agentId) == AgentLeads(a, agentId) + AgentLeads(b, agentId)
  {
    if a == [] {
      assert a + b == b;
    } else {
      assert (a + b)[1..] == a[1..] + b;
      AgentLeadsAppend(a[1..], b, agentId);
    }
  }

  /** A lead that refers to the agent by bare identifier, or to no agent or
      another agent, does not change the agent's statistics wherever it is
      inserted. */
  lemma RawReferenceNotCounted(a: seq<Lead>, l: Lead, b: seq<Lead>, agentId: Id)
    requires !PopulatedBy(l.salesAgent, agentId)
    ensures GetLeadStats(a + [l] + b, agentId) == GetLeadStats(a + b, agentId)
  {
    AgentLeadsAppend(a + [l], b, agentId);
    AgentLeadsAppend(a, [l], agentId);
    AgentLeadsAppend(a, b, agentId);
    assert [l][1..] == [];
    assert AgentLeads([l], agentId) == [];
    assert AgentLeads(a, agentId) + [] == AgentLeads(a, agentId);
    assert AgentLeads(a + [l] + b, agentId) == AgentLeads(a + b, agentId);
  }

  /** This screen never shows more leads for an agent than the Reports screen
      does, and the two agree exactly when no lead names the agent by bare
      identifier. */
  lemma {:induction false} AtMostReportsTotal(leads: seq<Lead>, agentId: Id)
    ensures GetLeadStats(leads, agentId).total <= |Reports.LeadsOfAgent(leads, agentId)|
    ensures GetLeadStats(leads, agentId).total == |Reports.LeadsOfAgent(leads, agentId)|
      <==> forall l :: l in leads ==> l.salesAgent != RawId(agentId)
  {
    if leads != [] {
      AtMostReportsTotal(leads[1..], agentId);
      assert forall l :: l in leads <==> l == leads[0] || l in leads[1..];
    }
  }

  /** The sum of the lead totals shown on the agents' cards. */
  function TotalsShown(leads: seq<Lead>, agents: seq<Agent>): nat {
    if agents == [] then 0 else GetLeadStats(leads, agents[0].id).total + TotalsShown(leads, agents[1..])
  }

  /** How many of the agents have identifier `id`. */
  function AgentsWithId(agents: seq<Agent>, id: Id): nat {
    if agents == [] then 0 else (if agents[0].id == id then 1 else 0) + AgentsWithId(agents[1..], id)
  }

  predicate DistinctIds(agents: seq<Agent>) {
    forall i, j :: 0 <= i < j < |agents| ==> agents[i].id != agents[j].id
  }

  lemma {:induction false} AgentsWithIdAtMostOne(agents: seq<Agent>, id: Id)
    requires DistinctIds(agents)
    ensures AgentsWithId(agents, id) <= 1
  {
    if agents != [] {
      AgentsWithIdAtMostOne(agents[1..], id);
      if agents[0].id == id {
        AgentsWithIdZero(agents[1..], id);
      }
    }
  }

  lemma {:induction false} AgentsWithIdZero(agents: seq<Agent>, id: Id)
    requires forall i :: 0 <= i < |agents| ==> agents[i].id != id
    ensures AgentsWithId(agents, id) == 0
  {
    if agents != [] {
      AgentsWithIdZero(agents[1..], id);
    }
  }

  /** Taking the first lead off the list lowers the shown totals by the
      number of agents that lead is populated with. */
  lemma {:induction false} TotalsShownFirstLead(leads: seq<Lead>, agents: seq<Agent>)
    requires leads != []
    ensures TotalsShown(leads, agents) == TotalsShown(leads[1..], agents)
      + (if leads[0].salesAgent.Populated? then AgentsWithId(agents, leads[0].salesAgent.id) else 0)
  {
    if agents != [] {
      TotalsShownFirstLead(leads, agents[1..]);
    }
  }

  /** For agents with distinct identifiers, the lead totals on their cards add
      up to at most the number of leads: no lead is counted for two agents. */
  lemma {:induction false} TotalsShownAtMostLeads(leads: seq<Lead>, agents: seq<Agent>)
    requires DistinctIds(agents)
    ensures TotalsShown(leads, agents) <= |leads|
  {
    if leads == [] {
      TotalsShownNoLeads(agents);
    } else {
      TotalsShownFirstLead(leads, agents);
      TotalsShownAtMostLeads(leads[1..], agents);
      if leads[0].salesAgent.Populated? {
        AgentsWithIdAtMostOne(agents, leads[0].salesAgent.id);
      }
    }
  }

  lemma {:induction false} TotalsShownNoLeads(agents: seq<Agent>)
    ensures TotalsShown([], agents) == 0
  {
    if agents != [] {
      TotalsShownNoLeads(agents[1..]);
    }
  }
}
