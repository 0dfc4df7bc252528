/** The application-count check of src/app/api/applications/count/route.ts: who may
    create another application record. The authenticated user, the profile's tier and
    the stored count are parameters (the results of the store's queries). */
module ApplicationQuota {
  import opened Types
  import opened Constants

  /** The JSON the route answers with. */
  datatype CountResponse =
    | Unauthorized
    | QuotaReport(count: nat, limit: nat, canCreate: bool, isPro: bool)

  /** `isPro || count < MAX_FREE_APPLICATIONS` */
  predicate CanCreate(isPro: bool, count: nat) {
    isPro || count < MaxFreeApplications
  }

  /** `GET /api/applications/count`. `profile` is the tier of the `users` row (`None`
      when the query found none); `rawCount` is the exact count (`None` when the store
      returned null). */
  function CountRoute(authUserId: Option<string>, profile: Option<Tier>, rawCount: Option<nat>): (r: CountResponse)
    ensures authUserId.None? <==> r.Unauthorized?
    ensures r.QuotaReport? ==> r.limit == 20 && r.count == rawCount.GetOr(0)
    ensures r.QuotaReport? ==> (r.isPro <==> profile == Some(Pro))
    ensures r.QuotaReport? && r.isPro ==> r.canCreate
    ensures r.QuotaReport? && !r.isPro ==> (r.canCreate <==> r.count + 1 <= r.limit)
  {
    if authUserId.None? then Unauthorized
    else
      var count := rawCount.GetOr(0);
      var isPro := profile == Some(Pro);
      QuotaReport(count, MaxFreeApplications, CanCreate(isPro, count), isPro)
  }

  /** For a free user the gate only closes as the count grows: once creating is refused
      at `n` applications it stays refused at every larger count. */
  lemma FreeGateIsMonotone(n: nat, m: nat)
    requires n <= m
    requires !CanCreate(false, n)
    ensures !CanCreate(false, m)
  {
  }

  /** A free user with 19 applications may create one more; once there are 20, the
      check refuses, reporting the free limit. */
  lemma TwentiethApplicationClosesTheGate(uid: string)
    ensures CountRoute(Some(uid), Some(Free), Some(19)).canCreate
    ensures !CountRoute(Some(uid), Some(Free), Some(20)).canCreate
    ensures CountRoute(Some(uid), Some(Free), Some(20)).limit == MaxFreeApplications
    ensures CountRoute(Some(uid), Some(Free), Some(20)).count == CountRoute(Some(uid), Some(Free), Some(20)).limit
  {
  }

  /** A missing profile counts as free, whatever the count. */
  lemma MissingProfileIsFree(uid: string, c: Option<nat>)
    ensures !CountRoute(Some(uid), None, c).isPro
    ensures CountRoute(Some(uid), None, c) == CountRoute(Some(uid), Some(Free), c)
  {
  }
}
