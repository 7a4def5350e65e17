/** The Dashboard screen's figures: counts for the five pipeline statuses,
    the conversion rate, the revenue figure and the pie chart data. */
module Dashboard {
  import opened CrmModel

  /** The five statuses a lead moves through, in pipeline order. */
  const PipelineStatuses: seq<string> := ["New", "Contacted", "Qualified", "Proposal Sent", "Closed"]

  /** The fixed revenue credited to each Closed lead. */
  const RevenuePerClosedLead: nat := 2500

  /** One entry of the `leadCounts` object. */
  datatype StatusCount = StatusCount(status: string, count: nat)

  /** `leadCounts`: the five statuses in pipeline order, each with the number
      of leads in it. */
  function LeadCounts(leads: seq<Lead>): (r: seq<StatusCount>)
    ensures |r| == |PipelineStatuses|
    ensures forall i :: 0 <= i < |r| ==> r[i].status == PipelineStatuses[i] && r[i].count == CountStatus(leads, PipelineStatuses[i])
  {
    [ StatusCount("New", CountStatus(leads, "New")),
      StatusCount("Contacted", CountStatus(leads, "Contacted")),
      StatusCount("Qualified", CountStatus(leads, "Qualified")),
      StatusCount("Proposal Sent", CountStatus(leads, "Proposal Sent")),
      StatusCount("Closed", CountStatus(leads, "Closed")) ]
  }

  function Counts(entries: seq<StatusCount>): (cs: seq<nat>)
    ensures |cs| == |entries|
    ensures forall i :: 0 <= i < |entries| ==> cs[i] == entries[i].count
  {
    seq(|entries|, i requires 0 <= i < |entries| => entries[i].count)
  }

  /** The five counts never exceed the total shown beside them, and add up to
      it exactly when every lead has one of the five statuses. */
  lemma LeadCountsSum(leads: seq<Lead>)
    ensures Sum(Counts(LeadCounts(leads))) <= |leads|
    ensures Sum(Counts(LeadCounts(leads))) == |leads| <==> forall l :: l in leads ==> l.status in PipelineStatuses
  {
    var labels := PipelineStatuses;
    assert NoDuplicates(labels);
    SumOfCounts(leads, labels, Counts(LeadCounts(leads)));
    CountInAll(leads, labels);
  }

  /** The Conversion Rate card: `Math.round(Closed / total * 100)`, 0 for an
      empty list. It is the whole percentage nearest to the exact ratio
      (halves rounding up), 100 when every lead is Closed and 0 when none is. */
  function ConversionRate(leads: seq<Lead>): (r: nat)
    ensures r <= 100
    ensures |leads| == 0 ==> r == 0
    ensures |leads| > 0 ==> -|leads| < 2 * (|leads| * r - 100 * CountStatus(leads, Closed)) <= |leads|
    ensures (forall l :: l in leads ==> l.status != Closed) ==> r == 0
    ensures |leads| > 0 && (forall l :: l in leads ==> l.status == Closed) ==> r == 100
  {
    CountStatusExtremes(leads, Closed);
    if |leads| > 0 then RoundedRatio(LeadCounts(leads)[4].count, |leads|, 100) else 0
  }

  /** The Revenue card: 2500 for each Closed lead. */
  function Revenue(leads: seq<Lead>): (r: nat)
    ensures r == RevenuePerClosedLead * LeadCounts(leads)[4].count
    ensures r <= RevenuePerClosedLead * |leads|
  {
    MulMonotone(RevenuePerClosedLead, CountStatus(leads, Closed), |leads|);
    CountStatus(leads, Closed) * RevenuePerClosedLead
  }

  /** One slice of the "Leads by Status" pie. */
  datatype PieSlice = PieSlice(name: string, value: nat)

  /** The pie data: the `leadCounts` entries as name/value pairs, same order. */
  function PieData(leads: seq<Lead>): (r: seq<PieSlice>)
    ensures |r| == |PipelineStatuses|
    ensures forall i :: 0 <= i < |r| ==> r[i].name == PipelineStatuses[i] && r[i].value == CountStatus(leads, PipelineStatuses[i])
  {
    var counts := LeadCounts(leads);
    seq(|counts|, i requires 0 <= i < |counts| => PieSlice(counts[i].status, counts[i].count))
  }
}
