/** The aggregates of the Reports screen: the status histogram, the leads
    closed in the last week, per-agent performance and the pipeline. */
module Reports {
  import opened CrmModel

  /** One week in milliseconds: the screen's `setDate(getDate() - 7)` cutoff. */
  const WeekMs: int := 7 * 24 * 60 * 60 * 1000

  // ---------------------------------------------------------------------
  // Status histogram

  /** The strings of `ss` in order of first occurrence, each once: the key
      order of a JavaScript object filled by assignment in list order. */
  function Distinct(ss: seq<string>): (d: seq<string>)
    ensures forall x :: x in d <==> x in ss
    ensures NoDuplicates(d)
  {
    if ss == [] then []
    else
      var d0 := Distinct(ss[..|ss| - 1]);
      assert forall x :: x in ss <==> x in ss[..|ss| - 1] || x == ss[|ss| - 1];
      if ss[|ss| - 1] in d0 then d0 else d0 + [ss[|ss| - 1]]
  }

  /** `keys` are the statuses of `seen`, in order of first occurrence. */
  ghost predicate KeysSeen(seen: seq<Lead>, keys: seq<string>) {
    keys == Distinct(Statuses(seen))
  }

  /** The map's keys are exactly the listed ones. */
  ghost predicate SameKeys(acc: map<string, nat>, keys: seq<string>) {
    forall s :: s in acc <==> s in keys
  }

  /** Each key of the map holds the number of leads of `seen` with it. */
  ghost predicate CountsSeen(seen: seq<Lead>, acc: map<string, nat>) {
    forall s :: s in acc ==> acc[s] == CountStatus(seen, s)
  }

  /** `keys` and `acc` are the object `statusCounts` holds once the leads of
      `seen` have been reduced. */
  ghost predicate Tallied(seen: seq<Lead>, keys: seq<string>, acc: map<string, nat>) {
    KeysSeen(seen, keys) && SameKeys(acc, keys) && CountsSeen(seen, acc)
  }

  /** The status of one more lead extends the distinct statuses seen so far
      only when it is new. */
  lemma DistinctStep(seen: seq<Lead>, l: Lead)
    ensures Distinct(Statuses(seen + [l])) ==
      var d := Distinct(Statuses(seen));
      if l.status in d then d else d + [l.status]
  {
    var ss := Statuses(seen + [l]);
    assert ss[..|ss| - 1] == Statuses(seen);
  }

  /** A status not among those seen so far has count zero so far. */
  lemma UnseenCountZero(seen: seq<Lead>, s: string)
    requires s !in Distinct(Statuses(seen))
    ensures CountStatus(seen, s) == 0
  {
    forall l | l in seen ensures l.status != s {
      var j :| 0 <= j < |seen| && seen[j] == l;
      assert Statuses(seen)[j] == l.status;
    }
    CountStatusExtremes(seen, s);
  }

  /** One more lead adds one to its status's count, starting from zero when
      the status is new, and leaves every other count alone. */
  lemma CountsStep(seen: seq<Lead>, l: Lead, acc: map<string, nat>, old_count: nat)
    requires CountsSeen(seen, acc)
    requires old_count == CountStatus(seen, l.status)
    ensures CountsSeen(seen + [l], acc[l.status := old_count + 1])
  {
    var next := acc[l.status := old_count + 1];
    forall t | t in next ensures next[t] == CountStatus(seen + [l], t) {
      CountStatusAppend(seen, [l], t);
    }
  }

  /** Setting a key keeps the map's keys in step with the key list, which
      grows only when the key is new. */
  lemma SameKeysStep(acc: map<string, nat>, keys: seq<string>, k: string, v: nat)
    requires SameKeys(acc, keys)
    ensures k in acc ==> SameKeys(acc[k := v], keys)
    ensures k !in acc ==> SameKeys(acc[k := v], keys + [k])
  {
  }

  /** Taking a lead whose status is already a key: only that count grows. */
  lemma TallySeen(seen: seq<Lead>, l: Lead, keys: seq<string>, acc: map<string, nat>)
    requires Tallied(seen, keys, acc) && l.status in acc
    ensures Tallied(seen + [l], keys, acc[l.status := acc[l.status] + 1])
  {
    DistinctStep(seen, l);
    CountsStep(seen, l, acc, acc[l.status]);
    SameKeysStep(acc, keys, l.status, acc[l.status] + 1);
  }

  /** Taking a lead with a new status: the status is appended to the keys
      with count one. */
  lemma TallyNew(seen: seq<Lead>, l: Lead, keys: seq<string>, acc: map<string, nat>)
    requires Tallied(seen, keys, acc) && l.status !in acc
    ensures Tallied(seen + [l], keys + [l.status], acc[l.status := 1])
  {
    DistinctStep(seen, l);
    UnseenCountZero(seen, l.status);
    CountsStep(seen, l, acc, 0);
    SameKeysStep(acc, keys, l.status, 1);
  }

  /** The loop's step on the prefixes of `leads`. */
  lemma TallyStep(leads: seq<Lead>, i: nat, keys: seq<string>, acc: map<string, nat>)
    requires i < |leads| && Tallied(leads[..i], keys, acc)
    ensures leads[i].status in acc ==>
      Tallied(leads[..i + 1], keys, acc[leads[i].status := acc[leads[i].status] + 1])
    ensures leads[i].status !in acc ==>
      Tallied(leads[..i + 1], keys + [leads[i].status], acc[leads[i].status := 1])
  {
    assert leads[..i + 1] == leads[..i] + [leads[i]];
    if leads[i].status in acc {
      TallySeen(leads[..i], leads[i], keys, acc);
    } else {
      TallyNew(leads[..i], leads[i], keys, acc);
    }
  }

  /** Once every lead is reduced, the object describes the whole list. */
  lemma TalliedAll(leads: seq<Lead>, keys: seq<string>, acc: map<string, nat>)
    requires Tallied(leads[..|leads|], keys, acc)
    ensures keys == Distinct(Statuses(leads))
    ensures forall s :: s in acc <==> s in keys
    ensures forall s :: s in acc ==> acc[s] == CountStatus(leads, s)
  {
    assert leads[..|leads|] == leads;
  }

  /** The labels of the whole list are exactly the statuses that occur, and
      counts listed against them add up to the number of leads. */
  lemma HistogramTotal(leads: seq<Lead>, data: seq<nat>)
    requires |data| == |Distinct(Statuses(leads))|
    requires forall k :: 0 <= k < |data| ==> data[k] == CountStatus(leads, Distinct(Statuses(leads))[k])
    ensures forall s :: s in Distinct(Statuses(leads)) <==> exists i :: 0 <= i < |leads| && leads[i].status == s
    ensures Sum(data) == |leads|
  {
    var labels := Distinct(Statuses(leads));
    forall s | s in labels ensures exists i :: 0 <= i < |leads| && leads[i].status == s {
      var j :| 0 <= j < |leads| && Statuses(leads)[j] == s;
    }
    forall l | l in leads ensures l.status in labels {
      var j :| 0 <= j < |leads| && leads[j] == l;
      assert Statuses(leads)[j] == l.status;
    }
    SumOfCounts(leads, labels, data);
    CountInAll(leads, labels);
  }

  /** The `statusCounts` reduce: a JavaScript object from status to count,
      given as its keys in insertion order and the map behind them. */
  method StatusCountMap(leads: seq<Lead>) returns (keys: seq<string>, acc: map<string, nat>)
    ensures keys == Distinct(Statuses(leads))
    ensures forall s :: s in acc <==> s in keys
    ensures forall s :: s in acc ==> acc[s] == CountStatus(leads, s)
  {
    acc := map[];
    keys := [];
    var i := 0;
    while i < |leads|
      invariant i <= |leads| && Tallied(leads[..i], keys, acc)
    {
      var s := leads[i].status;
      TallyStep(leads, i, keys, acc);
      if s in acc {
        acc := acc[s := acc[s] + 1];
      } else {
        acc := acc[s := 1];
        keys := keys + [s];
      }
      i := i + 1;
    }
    TalliedAll(leads, keys, acc);
  }

  /** The status chart data: `labels` are the keys of `statusCounts`, `data`
      its values, aligned. */
  method StatusCounts(leads: seq<Lead>) returns (labels: seq<string>, data: seq<nat>)
    ensures labels == Distinct(Statuses(leads))
    ensures forall s :: s in labels <==> exists i :: 0 <= i < |leads| && leads[i].status == s
    ensures NoDuplicates(labels)
    ensures |data| == |labels|
    ensures forall k :: 0 <= k < |labels| ==> data[k] == CountStatus(leads, labels[k])
    ensures Sum(data) == |leads|
  {
    var acc;
    labels, acc := StatusCountMap(leads);
    data := ValuesInKeyOrder(labels, acc);
    HistogramTotal(leads, data);
  }

  /** `Object.values`: the map's values listed in the order of its keys. */
  method ValuesInKeyOrder(keys: seq<string>, acc: map<string, nat>) returns (values: seq<nat>)
    requires forall s :: s in keys ==> s in acc
    ensures |values| == |keys|
    ensures forall k :: 0 <= k < |keys| ==> values[k] == acc[keys[k]]
  {
    values := [];
    var k := 0;
    while k < |keys|
      invariant 0 <= k <= |keys|
      invariant |values| == k
      invariant forall j :: 0 <= j < k ==> values[j] == acc[keys[j]]
    {
      values := values + [acc[keys[k]]];
      k := k + 1;
    }
  }

  // ---------------------------------------------------------------------
  // Leads closed in the last week

  predicate ClosedSince(lead: Lead, cutoff: int) {
    lead.status == Closed && lead.closedAt.Some? && lead.closedAt.value >= cutoff
  }

  /** `closedLastWeek`: the leads with status Closed and a valid `closedAt`
      no earlier than one week before `now`, in list order. */
  function ClosedLastWeek(leads: seq<Lead>, now: int): (r: seq<Lead>)
    ensures IsSubsequence(r, leads)
    ensures forall l :: l in r ==> l.status == Closed && l.closedAt.Some? && l.closedAt.value >= now - WeekMs
    ensures forall l :: l in leads && l.status == Closed && l.closedAt.Some? && l.closedAt.value >= now - WeekMs ==> l in r
  {
    if leads == [] then []
    else
      var rest := ClosedLastWeek(leads[1..], now);
      assert forall l :: l in leads <==> l == leads[0] || l in leads[1..];
      if ClosedSince(leads[0], now - WeekMs) then [leads[0]] + rest else rest
  }

  /** The filter distributes over concatenation, so a qualifying lead is kept
      once for every time it occurs. */
  lemma {:induction false} ClosedLastWeekAppend(a: seq<Lead>, b: seq<Lead>, now: int)
    ensures ClosedLastWeek(a + b, now) == ClosedLastWeek(a, now) + ClosedLastWeek(b, now)
  {
    if a == [] {
      assert a + b == b;
    } else {
      assert (a + b)[1..] == a[1..] + b;
      ClosedLastWeekAppend(a[1..], b, now);
    }
  }

  /** One more lead adds one to `closedLastWeek.length` when it was Closed
      within the week, and nothing otherwise. */
  lemma ClosedLastWeekOneMore(leads: seq<Lead>, l: Lead, now: int)
    ensures ClosedLastWeek(leads + [l], now)
      == ClosedLastWeek(leads, now) + (if ClosedSince(l, now - WeekMs) then [l] else [])
    ensures |ClosedLastWeek(leads + [l], now)|
      == |ClosedLastWeek(leads, now)| + (if ClosedSince(l, now - WeekMs) then 1 else 0)
  {
    ClosedLastWeekAppend(leads, [l], now);
    assert [l][1..] == [];
  }

  /** No more leads closed last week than Closed leads overall. */
  lemma {:induction false} ClosedLastWeekAtMostClosed(leads: seq<Lead>, now: int)
    ensures |ClosedLastWeek(leads, now)| <= CountStatus(leads, Closed)
  {
    if leads != [] {
      ClosedLastWeekAtMostClosed(leads[1..], now);
    }
  }

  // ---------------------------------------------------------------------
  // Agent performance

  /** The Reports matching rule: a lead belongs to an agent when its
      `salesAgent` is the populated agent document or the bare identifier. */
  predicate AssignedTo(ref: AgentRef, agentId: Id)
    ensures AssignedTo(ref, agentId) <==> !ref.Unassigned? && ref.id == agentId
  {
    match ref
    case Unassigned => false
    case RawId(i) => i == agentId
    case Populated(i, _) => i == agentId
  }

  function LeadsOfAgent(leads: seq<Lead>, agentId: Id): (r: seq<Lead>)
    ensures IsSubsequence(r, leads)
    ensures forall l :: l in r <==> l in leads && AssignedTo(l.salesAgent, agentId)
  {
    if leads == [] then []
    else
      var rest := LeadsOfAgent(leads[1..], agentId);
      assert forall l :: l in leads <==> l == leads[0] || l in leads[1..];
      if AssignedTo(leads[0].salesAgent, agentId) then [leads[0]] + rest else rest
  }

  /** The agent filter distributes over concatenation, so a matching lead is
      kept once for every time it occurs. */
  lemma {:induction false} LeadsOfAgentAppend(a: seq<Lead>, b: seq<Lead>, agentId: Id)
    ensures LeadsOfAgent(a + b, agentId) == LeadsOfAgent(a, agentId) + LeadsOfAgent(b, agentId)
  {
    if a == [] {
      assert a + b == b;
    } else {
      assert (a + b)[1..] == a[1..] + b;
      LeadsOfAgentAppend(a[1..], b, agentId);
    }
  }

  /** A lead assigned to another agent, or to none, changes neither the
      agent's matched leads nor its performance row, wherever it is
      inserted. */
  lemma OtherAgentNotCounted(a: seq<Lead>, l: Lead, b: seq<Lead>, agent: Agent)
    requires !AssignedTo(l.salesAgent, agent.id)
    ensures LeadsOfAgent(a + [l] + b, agent.id) == LeadsOfAgent(a + b, agent.id)
    ensures PerformanceOf(agent, a + [l] + b) == PerformanceOf(agent, a + b)
  {
    LeadsOfAgentAppend(a + [l], b, agent.id);
    LeadsOfAgentAppend(a, [l], agent.id);
    LeadsOfAgentAppend(a, b, agent.id);
    assert [l][1..] == [];
    assert LeadsOfAgent([l], agent.id) == [];
    assert LeadsOfAgent(a, agent.id) + [] == LeadsOfAgent(a, agent.id);
  }

  /** One row of `agentPerformance`; `conversionRate` is in hundredths of a
      percent (the two decimals of `toFixed(2)`). */
  datatype AgentPerformanceRow = AgentPerformanceRow(name: string, closed: nat, total: nat, conversionRate: nat)

  function PerformanceOf(agent: Agent, leads: seq<Lead>): (row: AgentPerformanceRow)
    ensures row.name == agent.name
    ensures row.total == |LeadsOfAgent(leads, agent.id)|
    ensures row.closed == CountStatus(LeadsOfAgent(leads, agent.id), Closed) <= row.total
    ensures row.total == 0 ==> row.conversionRate == 0
    ensures row.conversionRate <= 10000
    ensures row.total > 0 ==> -(row.total as int) < 2 * (row.total * row.conversionRate - 10000 * row.closed) <= row.total
  {
    var agentLeads := LeadsOfAgent(leads, agent.id);
    var closed := CountStatus(agentLeads, Closed);
    AgentPerformanceRow(agent.name, closed, |agentLeads|, RoundedRatio(closed, |agentLeads|, 10000))
  }

  /** `agentPerformance`: one row per agent, in agent order. */
  function AgentPerformance(agents: seq<Agent>, leads: seq<Lead>): (rows: seq<AgentPerformanceRow>)
    ensures |rows| == |agents|
    ensures forall i :: 0 <= i < |agents| ==> rows[i] == PerformanceOf(agents[i], leads)
  {
    seq(|agents|, i requires 0 <= i < |agents| => PerformanceOf(agents[i], leads))
  }

  /** An agent's total is exactly the number of leads assigned to it under
      either representation of the reference. */
  lemma {:induction false} AgentTotalCountsBothForms(leads: seq<Lead>, agentId: Id, l: Lead)
    requires l.salesAgent == RawId(agentId) || (l.salesAgent.Populated? && l.salesAgent.id == agentId)
    ensures |LeadsOfAgent(leads + [l], agentId)| == |LeadsOfAgent(leads, agentId)| + 1
  {
    if leads == [] {
      assert leads + [l] == [l];
    } else {
      assert (leads + [l])[1..] == leads[1..] + [l];
      AgentTotalCountsBothForms(leads[1..], agentId, l);
    }
  }

  // ---------------------------------------------------------------------
  // Pipeline

  /** The leads not yet Closed (`leads.filter(l => l.status !== "Closed")`). */
  function OpenLeads(leads: seq<Lead>): (r: seq<Lead>)
    ensures IsSubsequence(r, leads)
    ensures forall l :: l in r <==> l in leads && l.status != Closed
  {
    if leads == [] then []
    else
      var rest := OpenLeads(leads[1..]);
      assert forall l :: l in leads <==> l == leads[0] || l in leads[1..];
      if leads[0].status != Closed then [leads[0]] + rest else rest
  }

  /** What one lead adds to the pipeline value: `timeToClose * 100 || 0`. */
  function Contribution(lead: Lead): (c: int)
    ensures c == 0 <==> lead.timeToClose.None? || lead.timeToClose.value == 0
    ensures lead.timeToClose.Some? ==> c == 100 * lead.timeToClose.value
  {
    match lead.timeToClose
    case None => 0
    case Some(t) => t * 100
  }

  /** The `.reduce` over the open leads: the running total of contributions. */
  function SumContributions(leads: seq<Lead>): (v: int)
    ensures (forall i :: 0 <= i < |leads| ==> Contribution(leads[i]) == 0) ==> v == 0
  {
    if leads == [] then 0 else Contribution(leads[0]) + SumContributions(leads[1..])
  }

  /** `pipelineValue`: the contributions of the open leads. */
  function PipelineValue(leads: seq<Lead>): (v: int)
    ensures (forall l :: l in leads ==> l.status == Closed) ==> v == 0
  {
    var open := OpenLeads(leads);
    assert (forall l :: l in leads ==> l.status == Closed) ==> open == [] by {
      if open != [] {
        assert open[0] in open;
      }
    }
    SumContributions(open)
  }

  /** "Leads in Pipeline". */
  function PipelineCount(leads: seq<Lead>): (n: nat)
    ensures n + CountStatus(leads, Closed) == |leads|
  {
    PipelineCountComplement(leads);
    |OpenLeads(leads)|
  }

  lemma {:induction false} PipelineCountComplement(leads: seq<Lead>)
    ensures |OpenLeads(leads)| + CountStatus(leads, Closed) == |leads|
  {
    if leads != [] {
      PipelineCountComplement(leads[1..]);
    }
  }

  lemma {:induction false} OpenLeadsAppend(a: seq<Lead>, b: seq<Lead>)
    ensures OpenLeads(a + b) == OpenLeads(a) + OpenLeads(b)
  {
    if a == [] {
      assert a + b == b;
    } else {
      assert (a + b)[1..] == a[1..] + b;
      OpenLeadsAppend(a[1..], b);
    }
  }

  lemma {:induction false} SumContributionsAppend(a: seq<Lead>, b: seq<Lead>)
    ensures SumContributions(a + b) == SumContributions(a) + SumContributions(b)
  {
    if a == [] {
      assert a + b == b;
    } else {
      assert (a + b)[1..] == a[1..] + b;
      SumContributionsAppend(a[1..], b);
    }
  }

  /** The pipeline value of a concatenation is the sum of the parts'. */
  lemma PipelineValueAppend(a: seq<Lead>, b: seq<Lead>)
    ensures PipelineValue(a + b) == PipelineValue(a) + PipelineValue(b)
  {
    OpenLeadsAppend(a, b);
    SumContributionsAppend(OpenLeads(a), OpenLeads(b));
  }

  /** Inserting a Closed lead anywhere leaves the pipeline value unchanged,
      whatever its `timeToClose`; so does inserting an open lead whose
      `timeToClose` is missing or not a number. */
  lemma PipelineValueIgnores(a: seq<Lead>, l: Lead, b: seq<Lead>)
    requires l.status == Closed || l.timeToClose.None?
    ensures PipelineValue(a + [l] + b) == PipelineValue(a + b)
  {
    PipelineValueAppend(a + [l], b);
    PipelineValueAppend(a, [l]);
    PipelineValueAppend(a, b);
    assert OpenLeads([l]) == (if l.status != Closed then [l] else []) by {
      assert [l][1..] == [];
    }
    assert PipelineValue([l]) == 0 by {
      if l.status != Closed {
        assert SumContributions([l]) == Contribution(l) + SumContributions([]);
      }
    }
  }

  /** An open lead adds its `timeToClose * 100` to the pipeline value. */
  lemma PipelineValueOpenLead(a: seq<Lead>, l: Lead, t: int)
    requires l.status != Closed && l.timeToClose == Some(t)
    ensures PipelineValue(a + [l]) == PipelineValue(a) + 100 * t
  {
    PipelineValueAppend(a, [l]);
    assert [l][1..] == [];
    assert OpenLeads([l]) == [l];
    assert SumContributions([l]) == Contribution(l) + SumContributions([]);
  }

  /** When no lead has a negative `timeToClose`, the value is not negative. */
  lemma {:induction false} PipelineValueNonNegative(leads: seq<Lead>)
    requires forall l :: l in leads && l.timeToClose.Some? ==> l.timeToClose.value >= 0
    ensures PipelineValue(leads) >= 0
  {
    if leads != [] {
      PipelineValueNonNegative(leads[1..]);
      assert leads == [leads[0]] + leads[1..];
      PipelineValueAppend([leads[0]], leads[1..]);
      assert [leads[0]][1..] == [];
      assert SumContributions([leads[0]]) == Contribution(leads[0]) + SumContributions([]);
    }
  }
}
