/** Counting applications by stored status, shared by the Kanban columns and the
    dashboard statistics. */
module Census {
  import opened Types
  import opened Constants

  /** `apps.filter((a) => a.status === k).length` */
  function CountStatus(apps: seq<Application>, k: string): (n: nat)
    ensures n <= |apps|
  {
    if |apps| == 0 then 0
    else (if apps[0].status == k then 1 else 0) + CountStatus(apps[1..], k)
  }

  /** `apps.filter((a) => a.status !== k).length` */
  function CountOtherThan(apps: seq<Application>, k: string): (n: nat)
    ensures n + CountStatus(apps, k) == |apps|
  {
    if |apps| == 0 then 0
    else (if apps[0].status != k then 1 else 0) + CountOtherThan(apps[1..], k)
  }

  /** The number of applications whose stored status is one of the six keys. */
  function CountValid(apps: seq<Application>): (n: nat)
    ensures n <= |apps|
  {
    if |apps| == 0 then 0
    else (if ValidStatus(apps[0].status) then 1 else 0) + CountValid(apps[1..])
  }

  /** The per-status counts of `statuses`, added up. */
  function SumCounts(apps: seq<Application>, statuses: seq<Status>): nat {
    if |statuses| == 0 then 0 else CountStatus(apps, Key(statuses[0])) + SumCounts(apps, statuses[1..])
  }

  /** How many of `statuses` have key `k`. */
  function Occurrences(k: string, statuses: seq<Status>): nat {
    if |statuses| == 0 then 0 else (if Key(statuses[0]) == k then 1 else 0) + Occurrences(k, statuses[1..])
  }

  /** Each key occurs once in the status order; any other text does not occur. */
  lemma OccurrencesInStatusOrder(k: string)
    ensures Occurrences(k, StatusOrder) == if ValidStatus(k) then 1 else 0
  {
    var s := StatusOrder;
    assert Occurrences(k, s[6..]) == 0;
    assert Occurrences(k, s[5..]) == (if k == "rejected" then 1 else 0) by {
      assert s[5..][1..] == s[6..];
    }
    assert Occurrences(k, s[4..]) == (if k in ["offer", "rejected"] then 1 else 0) by {
      assert s[4..][1..] == s[5..];
    }
    assert Occurrences(k, s[3..]) == (if k in ["interview", "offer", "rejected"] then 1 else 0) by {
      assert s[3..][1..] == s[4..];
    }
    assert Occurrences(k, s[2..]) == (if k in KanbanColumns[2..] then 1 else 0) by {
      assert s[2..][1..] == s[3..];
    }
    assert Occurrences(k, s[1..]) == (if k in KanbanColumns[1..] then 1 else 0) by {
      assert s[1..][1..] == s[2..];
    }
    assert Occurrences(k, s) == (if k in KanbanColumns then 1 else 0) by {
      assert s[1..] == s[1..];
    }
  }

  /** Peeling the first application off every count of `statuses`. */
  lemma {:induction false} SumCountsCons(apps: seq<Application>, statuses: seq<Status>)
    requires |apps| > 0
    ensures SumCounts(apps, statuses) == Occurrences(apps[0].status, statuses) + SumCounts(apps[1..], statuses)
    decreases |statuses|
  {
    if |statuses| > 0 {
      SumCountsCons(apps, statuses[1..]);
    }
  }

  /** With no applications every count is zero. */
  lemma {:induction false} SumCountsOfNothing(apps: seq<Application>, statuses: seq<Status>)
    requires |apps| == 0
    ensures SumCounts(apps, statuses) == 0
    decreases |statuses|
  {
    if |statuses| > 0 {
      SumCountsOfNothing(apps, statuses[1..]);
    }
  }

  /** The six per-status counts add up to the number of applications with a valid status. */
  lemma {:induction false} StatusCountsSumToValid(apps: seq<Application>)
    ensures SumCounts(apps, StatusOrder) == CountValid(apps)
    decreases |apps|
  {
    if |apps| > 0 {
      SumCountsCons(apps, StatusOrder);
      OccurrencesInStatusOrder(apps[0].status);
      StatusCountsSumToValid(apps[1..]);
    } else {
      SumCountsOfNothing(apps, StatusOrder);
    }
  }

  /** Every application has a valid status. */
  predicate AllValid(apps: seq<Application>) {
    forall i :: 0 <= i < |apps| ==> ValidStatus(apps[i].status)
  }

  /** When every status is valid, all applications are counted as valid. */
  lemma {:induction false} AllValidCount(apps: seq<Application>)
    requires AllValid(apps)
    ensures CountValid(apps) == |apps|
    decreases |apps|
  {
    if |apps| > 0 {
      assert AllValid(apps[1..]) by {
        forall i | 0 <= i < |apps[1..]| ensures ValidStatus(apps[1..][i].status) {
          assert apps[1..][i] == apps[i + 1];
        }
      }
      AllValidCount(apps[1..]);
      assert ValidStatus(apps[0].status);
    }
  }
}
