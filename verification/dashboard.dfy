/** The dashboard page of src/app/dashboard/page.tsx: the profile fallback, the free
    applications left, the free-only hint, the CSV button's tier flag, and the choice
    between the empty state and the statistics with the board. The query results and
    the clock reading are parameters. */
module Dashboard {
  import opened Types
  import opened Constants
  import opened ApplicationQuota

  /** The authenticated identity: its id and its e-mail, if any. */
  datatype AuthUser = AuthUser(id: string, email: Option<string>)

  /** The hint next to the buttons: free applications left, or "Limite atteinte". */
  datatype QuotaHint = RemainingHint(remaining: int) | LimitReachedHint

  /** What the main area shows: the empty state, or the same list given to the
      statistics, the board and the per-status breakdown. */
  datatype Body = EmptyState | Populated(stats: seq<Application>, board: seq<Application>, breakdown: seq<Application>)

  /** The rendered page, or the redirect to `/` for a visitor who is not signed in. */
  datatype Page =
    | RedirectHome
    | DashboardPage(user: User, remainingFree: int, hint: Option<QuotaHint>, csvIsPro: bool, body: Body)

  /** The profile used when the `users` row is missing. */
  function FallbackUser(auth: AuthUser, now: string): (u: User)
    ensures u.id == auth.id && u.tier == Free && u.stripeCustomerId.None?
    ensures u.email == (if Truthy(auth.email) then auth.email.value else "")
  {
    User(auth.id, OrElse(auth.email, ""), Free, None, now)
  }

  /** `DashboardPage`. `profile` is the `users` row (if found), `rows` the user's
      applications newest first (`None` when the query returned null), `now` the clock
      reading used for a fallback profile. */
  function Render(auth: Option<AuthUser>, profile: Option<User>, rows: Option<seq<Application>>, now: string): (p: Page)
    ensures auth.None? <==> p.RedirectHome?
    ensures p.DashboardPage? && profile.Some? ==> p.user == profile.value
    ensures p.DashboardPage? && profile.None? ==> p.user == FallbackUser(auth.value, now)
    ensures p.DashboardPage? ==> p.remainingFree + |rows.GetOr([])| == MaxFreeApplications
    ensures p.DashboardPage? ==> (p.hint.Some? <==> p.user.tier == Free)
    ensures p.DashboardPage? && p.hint.Some? ==>
      (p.hint.value == LimitReachedHint <==> |rows.GetOr([])| >= MaxFreeApplications)
    ensures p.DashboardPage? && p.hint.Some? && p.hint.value.RemainingHint? ==>
      p.hint.value.remaining == p.remainingFree && p.remainingFree > 0
    ensures p.DashboardPage? ==> (p.csvIsPro <==> p.user.tier == Pro)
    ensures p.DashboardPage? ==> (p.body.EmptyState? <==> |rows.GetOr([])| == 0)
    ensures p.DashboardPage? && p.body.Populated? ==>
      p.body.stats == rows.value && p.body.board == rows.value && p.body.breakdown == rows.value
  {
    if auth.None? then RedirectHome
    else
      var user := if profile.Some? then profile.value else FallbackUser(auth.value, now);
      var apps := rows.GetOr([]);
      var remainingFree := MaxFreeApplications - |apps|;
      var hint := if user.tier == Free then Some(if remainingFree > 0 then RemainingHint(remainingFree) else LimitReachedHint) else None;
      var body := if |apps| == 0 then EmptyState else Populated(apps, apps, apps);
      DashboardPage(user, remainingFree, hint, user.tier == Pro, body)
  }

  /** "Limite atteinte" appears for a free user exactly when the count check would refuse
      to create another application for the same number of rows: the page and the gate
      share one threshold. The remaining count goes negative past the limit. */
  lemma LimitHintMatchesCountGate(auth: AuthUser, rows: seq<Application>, now: string)
    ensures var p := Render(Some(auth), None, Some(rows), now);
      var gate := CountRoute(Some(auth.id), None, Some(|rows|));
      p.hint == Some(LimitReachedHint) <==> !gate.canCreate
    ensures |rows| > MaxFreeApplications ==> Render(Some(auth), None, Some(rows), now).remainingFree < 0
  {
  }
}
