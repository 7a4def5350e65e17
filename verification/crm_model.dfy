/** Shared data model of the CRM front-end: the lead and agent records the
    screens receive from the REST API, and the counting functions every
    aggregate over a lead list is built from. */
module CrmModel {

  datatype Option<+T> = None | Some(value: T)

  /** A record identifier (a MongoDB `_id` string). */
  type Id = string

  /** What a lead's `salesAgent` field holds: nothing (`null`, unassigned),
      the bare identifier of the agent, or the agent document populated by
      the server (of which only `_id` and `name` matter here). */
  datatype AgentRef = Unassigned | RawId(id: Id) | Populated(id: Id, name: string)

  /** A fetched lead. `closedAt` is a time in milliseconds, `None` when the
      field is absent, empty, the number 0 or not a parseable date. `timeToClose` is `None`
      when the field is absent or not a number. */
  datatype Lead = Lead(
    status: string,
    salesAgent: AgentRef,
    closedAt: Option<int>,
    timeToClose: Option<int>)

  datatype Agent = Agent(id: Id, name: string)

  const Closed: string := "Closed"

  predicate NoDuplicates<T(==)>(s: seq<T>) {
    forall i, j :: 0 <= i < j < |s| ==> s[i] != s[j]
  }

  /** `a` is `b` with some elements left out, the rest in their order. */
  predicate IsSubsequence<T(==)>(a: seq<T>, b: seq<T>)
    decreases |b|
  {
    a == [] || (b != [] && ((a[0] == b[0] && IsSubsequence(a[1..], b[1..])) || IsSubsequence(a, b[1..])))
  }

  function Sum(xs: seq<int>): int {
    if xs == [] then 0 else xs[0] + Sum(xs[1..])
  }

  /** The statuses of the leads, in list order. */
  function Statuses(leads: seq<Lead>): (ss: seq<string>)
    ensures |ss| == |leads|
    ensures forall i :: 0 <= i < |leads| ==> ss[i] == leads[i].status
  {
    seq(|leads|, i requires 0 <= i < |leads| => leads[i].status)
  }

  /** Number of leads whose status is `status` (`leads.filter(l => l.status === status).length`). */
  function CountStatus(leads: seq<Lead>, status: string): (n: nat)
    ensures n <= |leads|
  {
    if leads == [] then 0
    else (if leads[0].status == status then 1 else 0) + CountStatus(leads[1..], status)
  }

  /** Number of leads whose status is one of `labels`. */
  function CountIn(leads: seq<Lead>, labels: seq<string>): (n: nat)
    ensures n <= |leads|
  {
    if leads == [] then 0
    else (if leads[0].status in labels then 1 else 0) + CountIn(leads[1..], labels)
  }

  lemma {:induction false} CountStatusAppend(a: seq<Lead>, b: seq<Lead>, status: string)
    ensures CountStatus(a + b, status) == CountStatus(a, status) + CountStatus(b, status)
  {
    if a == [] {
      assert a + b == b;
    } else {
      assert (a + b)[1..] == a[1..] + b;
      CountStatusAppend(a[1..], b, status);
    }
  }

  /** The count reaches the length exactly when every lead has the status,
      and is zero exactly when none has it. */
  lemma {:induction false} CountStatusExtremes(leads: seq<Lead>, status: string)
    ensures CountStatus(leads, status) == |leads| <==> forall l :: l in leads ==> l.status == status
    ensures CountStatus(leads, status) == 0 <==> forall l :: l in leads ==> l.status != status
  {
    if leads != [] {
      CountStatusExtremes(leads[1..], status);
      assert forall l :: l in leads <==> l == leads[0] || l in leads[1..];
    }
  }

  /** Counting the leads whose status is among `labels` splits into the first
      label's count and the rest's, when the first label is not repeated. */
  lemma {:induction false} CountInSplit(leads: seq<Lead>, labels: seq<string>)
    requires labels != [] && labels[0] !in labels[1..]
    ensures CountIn(leads, labels) == CountStatus(leads, labels[0]) + CountIn(leads, labels[1..])
  {
    if leads != [] {
      CountInSplit(leads[1..], labels);
      assert leads[0].status in labels <==> leads[0].status == labels[0] || leads[0].status in labels[1..];
    }
  }

  /** Every lead is counted exactly when every status is among `labels`. */
  lemma {:induction false} CountInAll(leads: seq<Lead>, labels: seq<string>)
    ensures CountIn(leads, labels) == |leads| <==> forall l :: l in leads ==> l.status in labels
  {
    if leads != [] {
      CountInAll(leads[1..], labels);
      assert forall l :: l in leads <==> l == leads[0] || l in leads[1..];
    }
  }

  lemma {:induction false} CountInNone(leads: seq<Lead>)
    ensures CountIn(leads, []) == 0
  {
    if leads != [] {
      CountInNone(leads[1..]);
    }
  }

  /** Counts listed against distinct labels add up to the number of leads
      whose status is one of those labels. */
  lemma {:induction false} SumOfCounts(leads: seq<Lead>, labels: seq<string>, data: seq<nat>)
    requires NoDuplicates(labels)
    requires |data| == |labels|
    requires forall k :: 0 <= k < |labels| ==> data[k] == CountStatus(leads, labels[k])
    ensures Sum(data) == CountIn(leads, labels)
  {
    if labels == [] {
      CountInNone(leads);
    } else {
      assert labels[0] !in labels[1..] by {
        forall k | 0 <= k < |labels[1..]| ensures labels[1..][k] != labels[0] {
          assert labels[1..][k] == labels[k + 1];
        }
      }
      SumOfCounts(leads, labels[1..], data[1..]);
      CountInSplit(leads, labels);
    }
  }

  /** `round(part / whole * scale)` with JavaScript's `Math.round` (halves
      round up), computed exactly; 0 when `whole` is 0. */
  function RoundedRatio(part: nat, whole: nat, scale: nat): (r: nat)
    requires part <= whole
    ensures whole == 0 ==> r == 0
    ensures whole > 0 ==> -(whole as int) < 2 * (whole * r - scale * part) <= whole
    ensures r <= scale
    ensures part == 0 ==> r == 0
    ensures whole > 0 && part == whole ==> r == scale
  {
    if whole == 0 then 0
    else
      var q := (2 * scale * part + whole) / (2 * whole);
      RoundedRatioFacts(part, whole, scale, q);
      q
  }

  lemma RoundedRatioFacts(part: nat, whole: nat, scale: nat, q: nat)
    requires part <= whole && whole > 0
    requires q == (2 * scale * part + whole) / (2 * whole)
    ensures -(whole as int) < 2 * (whole * q - scale * part) <= whole
    ensures q <= scale
    ensures part == 0 ==> q == 0
    ensures part == whole ==> q == scale
  {
    var a := scale * part;
    var p := whole * q;
    DivBounds(2 * scale * part + whole, 2 * whole, q);
    Nearest(a, whole, p, q);
    MulMonotone(scale, part, whole);
    MulComm(scale, whole);
    RoundedAtMost(a, whole, scale, p, q);
    if part == 0 {
      RoundedZero(whole, p, q);
    }
    if part == whole {
      RoundedFull(whole, scale, p, q);
    }
  }

  lemma DivBounds(n: nat, d: nat, q: nat)
    requires d > 0 && q == n / d
    ensures d * q <= n < d * q + d
  {
  }

  lemma MulComm(a: int, b: int)
    ensures a * b == b * a
  {
  }

  lemma Nearest(a: nat, whole: nat, p: nat, q: nat)
    requires p == whole * q
    requires (2 * whole) * q <= 2 * a + whole < (2 * whole) * q + 2 * whole
    ensures -(whole as int) < 2 * (p - a) <= whole
  {
    assert (2 * whole) * q == 2 * p;
  }

  lemma RoundedAtMost(a: nat, whole: nat, scale: nat, p: nat, q: nat)
    requires whole > 0 && p == whole * q && a <= whole * scale
    requires 2 * (p - a) <= whole
    ensures q <= scale
  {
    assert whole * (scale + 1) == whole * scale + whole;
    if q > scale {
      MulMonotone(whole, scale + 1, q);
      assert false;
    }
  }

  lemma RoundedZero(whole: nat, p: nat, q: nat)
    requires whole > 0 && p == whole * q && 2 * p <= whole
    ensures q == 0
  {
    if q > 0 {
      MulMonotone(whole, 1, q);
      assert false;
    }
  }

  lemma RoundedFull(whole: nat, scale: nat, p: nat, q: nat)
    requires whole > 0 && p == whole * q
    requires -(whole as int) < 2 * (p - scale * whole)
    requires q <= scale
    ensures q == scale
  {
    assert whole * (q + 1) == p + whole;
    MulComm(scale, whole);
    if q < scale {
      MulMonotone(whole, q + 1, scale);
      assert false;
    }
  }

  lemma MulMonotone(a: nat, b: nat, c: nat)
    requires b <= c
    ensures a * b <= a * c
  {
    assert a * c == a * b + a * (c - b);
  }
}
