/** The dashboard statistics of src/components/stats-overview.tsx: the four counters
    with the success rate, and the per-status breakdown. */
module StatsOverview {
  import opened Types
  import opened Constants
  import opened Census

  /** `Math.round((offer / applied) * 100)` when `applied > 0`, else 0, computed exactly
      as floor((200·offer + applied) / (2·applied)). */
  function SuccessRate(offer: nat, applied: nat): (r: nat)
    ensures applied == 0 ==> r == 0
    ensures applied > 0 ==> 2 * applied * r <= 200 * offer + applied < 2 * applied * (r + 1)
  {
    if applied > 0 then (200 * offer + applied) / (2 * applied) else 0
  }

  /** The success rate of at most as many offers as applications lies in [0, 100]. */
  lemma {:induction false} SuccessRateIsAPercentage(offer: nat, applied: nat)
    requires offer <= applied
    ensures SuccessRate(offer, applied) <= 100
  {
    if applied > 0 {
      var r := SuccessRate(offer, applied);
      assert 2 * applied * r < 2 * applied * 101;
      ProductCancels(2 * applied, r, 101);
    }
  }

  /** A positive factor can be cancelled from a strict inequality of products. */
  lemma ProductCancels(d: nat, x: nat, y: nat)
    requires d > 0 && d * x < d * y
    ensures x < y
  {
    if x >= y {
      MultiplyMonotone(d, y, x);
      assert false;
    }
  }

  lemma MultiplyMonotone(a: nat, b: nat, c: nat)
    requires b <= c
    ensures a * b <= a * c
  {
  }

  /** The four counters of the overview and the success rate. */
  datatype Counters = Counters(total: nat, applied: nat, interview: nat, offer: nat, successRate: nat)

  /** `StatsOverview`: all applications, those no longer `todo`, those in `interview`,
      those with an `offer`, and the share of sent applications that got an offer. */
  function Overview(apps: seq<Application>): (o: Counters)
    ensures o.total == |apps|
    ensures o.applied + CountStatus(apps, Key(Todo)) == |apps|
    ensures o.interview == CountStatus(apps, Key(Interview)) && o.offer == CountStatus(apps, Key(Offer))
    ensures o.offer <= o.applied <= o.total && o.interview <= o.applied
    ensures o.applied == 0 ==> o.successRate == 0
    ensures o.successRate <= 100
    ensures o.successRate == SuccessRate(o.offer, o.applied)
  {
    var applied := CountOtherThan(apps, Key(Todo));
    var interview := CountStatus(apps, Key(Interview));
    var offer := CountStatus(apps, Key(Offer));
    CountedStatusIsSent(apps, Key(Interview));
    CountedStatusIsSent(apps, Key(Offer));
    SuccessRateIsAPercentage(offer, applied);
    Counters(|apps|, applied, interview, offer, SuccessRate(offer, applied))
  }

  /** Cards of any status other than `todo` are among the sent ones. */
  lemma {:induction false} CountedStatusIsSent(apps: seq<Application>, k: string)
    requires k != Key(Todo)
    ensures CountStatus(apps, k) <= CountOtherThan(apps, Key(Todo))
    decreases |apps|
  {
    if |apps| > 0 {
      CountedStatusIsSent(apps[1..], k);
    }
  }

  /** One line of the breakdown. */
  datatype BreakdownEntry = BreakdownEntry(status: Status, count: nat, caption: string, color: string)

  /** The breakdown lines of `statuses`, in order. */
  function BreakdownOf(apps: seq<Application>, statuses: seq<Status>): (r: seq<BreakdownEntry>)
    ensures |r| == |statuses|
    ensures forall i :: 0 <= i < |r| ==>
      r[i] == BreakdownEntry(statuses[i], CountStatus(apps, Key(statuses[i])), Label(statuses[i]), Color(statuses[i]))
  {
    if |statuses| == 0 then []
    else [BreakdownEntry(statuses[0], CountStatus(apps, Key(statuses[0])), Label(statuses[0]), Color(statuses[0]))]
         + BreakdownOf(apps, statuses[1..])
  }

  /** `StatusBreakdown`: one line per key of APPLICATION_STATUSES, in key order. */
  function StatusBreakdown(apps: seq<Application>): (r: seq<BreakdownEntry>)
    ensures |r| == 6
    ensures forall i :: 0 <= i < 6 ==> r[i].status == StatusOrder[i] && r[i].count == CountStatus(apps, Key(StatusOrder[i]))
  {
    BreakdownOf(apps, StatusOrder)
  }

  /** The counts of a list of breakdown lines, added up. */
  function SumEntries(entries: seq<BreakdownEntry>): nat {
    if |entries| == 0 then 0 else entries[0].count + SumEntries(entries[1..])
  }

  lemma {:induction false} SumEntriesIsSumCounts(apps: seq<Application>, statuses: seq<Status>)
    ensures SumEntries(BreakdownOf(apps, statuses)) == SumCounts(apps, statuses)
    decreases |statuses|
  {
    if |statuses| > 0 {
      assert BreakdownOf(apps, statuses)[1..] == BreakdownOf(apps, statuses[1..]);
      SumEntriesIsSumCounts(apps, statuses[1..]);
    }
  }

  /** The breakdown counts add up to the number of applications with a valid status,
      hence to the total when every status is valid. */
  lemma BreakdownSumsToTotal(apps: seq<Application>)
    ensures SumEntries(StatusBreakdown(apps)) == CountValid(apps)
    ensures AllValid(apps) ==> SumEntries(StatusBreakdown(apps)) == |apps|
  {
    SumEntriesIsSumCounts(apps, StatusOrder);
    StatusCountsSumToValid(apps);
    if AllValid(apps) {
      AllValidCount(apps);
    }
  }
}
