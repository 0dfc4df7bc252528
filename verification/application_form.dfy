/** The new-application form of src/components/application-form.tsx: the quota check
    before the insert, the record it inserts, what the user sees afterwards, and the
    auto-fill from a job page's metadata. The replies of the count route, the store and
    the metadata route, and the clock reading, are parameters. */
module ApplicationForm {
  import opened Types
  import opened Constants
  import opened ApplicationQuota

  /** The form's fields. */
  datatype FormData = FormData(company: string, role: string, url: string, status: string, notes: string)

  /** The form as first shown: empty fields and status `todo`. */
  const InitialForm: FormData := FormData("", "", "", "todo", "")

  /** The row inserted into `applications`. */
  datatype NewApplication = NewApplication(
    userId: string, company: string, role: string, url: Option<string>,
    status: string, notes: Option<string>, appliedAt: Option<string>)

  /** The record `handleSubmit` inserts at time `now`. */
  function InsertRecord(userId: string, form: FormData, now: string): (r: NewApplication)
    ensures r.userId == userId && r.company == form.company && r.role == form.role && r.status == form.status
    ensures r.url.None? <==> form.url == ""
    ensures r.url.Some? ==> r.url.value == form.url
    ensures r.notes.None? <==> form.notes == ""
    ensures r.notes.Some? ==> r.notes.value == form.notes
    ensures r.appliedAt.Some? <==> form.status != Key(Todo)
    ensures r.appliedAt.Some? ==> r.appliedAt.value == now
  {
    NewApplication(
      userId, form.company, form.role,
      if form.url != "" then Some(form.url) else None,
      form.status,
      if form.notes != "" then Some(form.notes) else None,
      if form.status != Key(Todo) then Some(now) else None)
  }

  /** How the count check ended: it threw (network or JSON error, with its message), or
      the route answered. */
  datatype CountCheck = CountCheckThrew(message: string) | CountReplied(response: CountResponse)

  /** `canCreate` as read from the route's JSON: the 401 body has no such field, which is falsy. */
  predicate ReportedCanCreate(response: CountResponse) {
    response.QuotaReport? && response.canCreate
  }

  /** The store's answer to the insert. An error carries its message and whether it is
      an `Error` instance (only those have their message shown). */
  datatype InsertResult = InsertOk | InsertError(message: string, isErrorInstance: bool)

  /** The message shown for an error that is not an `Error` instance. */
  const DefaultErrorMessage: string := "Erreur lors de la création"

  /** How a submission ends: the limit callback without an insert; the insert done and
      the dashboard opened; or an error message, with the record whose insert failed. */
  datatype SubmitOutcome =
    | LimitReached
    | Created(record: NewApplication)
    | ShowError(attempted: Option<NewApplication>, message: string)

  /** `handleSubmit`. */
  function Submit(userId: string, form: FormData, check: CountCheck, now: string, insert: InsertResult): (r: SubmitOutcome)
    ensures r.Created? <==> check.CountReplied? && ReportedCanCreate(check.response) && insert.InsertOk?
    ensures r.Created? ==> r.record == InsertRecord(userId, form, now)
    ensures r.LimitReached? <==> check.CountReplied? && !ReportedCanCreate(check.response)
    ensures r.ShowError? && r.attempted.Some? ==> insert.InsertError? && r.attempted.value == InsertRecord(userId, form, now)
    ensures r.ShowError? && check.CountCheckThrew? ==> r.attempted.None? && r.message == check.message
    ensures r.ShowError? && check.CountReplied? ==>
      r.message == (if insert.isErrorInstance then insert.message else DefaultErrorMessage)
  {
    match check
    case CountCheckThrew(m) => ShowError(None, m)
    case CountReplied(response) =>
      if !ReportedCanCreate(response) then LimitReached
      else
        var record := InsertRecord(userId, form, now);
        match insert
        case InsertOk => Created(record)
        case InsertError(m, isError) => ShowError(Some(record), if isError then m else DefaultErrorMessage)
  }

  /** A signed-out user's submission gets the 401 body, whose missing `canCreate` reads
      as a refusal: the limit callback fires and nothing is inserted. */
  lemma SignedOutSubmitReachesLimit(userId: string, form: FormData, profile: Option<Tier>, count: Option<nat>,
                                    now: string, insert: InsertResult)
    ensures Submit(userId, form, CountReplied(CountRoute(None, profile, count)), now, insert) == LimitReached
  {
  }

  /** A pro user's submission always reaches the insert, whatever the count. */
  lemma ProSubmitReachesInsert(userId: string, form: FormData, uid: string, count: Option<nat>, now: string)
    ensures Submit(userId, form, CountReplied(CountRoute(Some(uid), Some(Pro), count)), now, InsertOk)
         == Created(InsertRecord(userId, form, now))
  {
  }

  /** How the metadata request ended, as the form sees it. */
  datatype MetadataReply = MetadataThrew | MetadataNotOk | MetadataOk(company: string, role: string)

  /** `fetchUrlMetadata`: nothing happens without a URL; a successful reply fills company
      and role, each only with a non-empty fetched value; other fields are untouched. */
  function AutoFill(form: FormData, reply: MetadataReply): (r: FormData)
    ensures form.url == "" ==> r == form
    ensures r.url == form.url && r.status == form.status && r.notes == form.notes
    ensures r.company == form.company || (reply.MetadataOk? && r.company == reply.company && reply.company != "")
    ensures r.role == form.role || (reply.MetadataOk? && r.role == reply.role && reply.role != "")
    ensures form.url != "" && reply.MetadataOk? && reply.company != "" ==> r.company == reply.company
    ensures form.url != "" && reply.MetadataOk? && reply.role != "" ==> r.role == reply.role
    ensures form.company != "" ==> r.company != ""
    ensures form.role != "" ==> r.role != ""
  {
    if form.url == "" then form
    else match reply
      case MetadataOk(company, role) =>
        form.(company := if company != "" then company else form.company,
              role := if role != "" then role else form.role)
      case _ => form
  }
}
