/** The constants of src/lib/constants.ts: the free-tier limit, the six application
    statuses with their labels and colours, and the Kanban column order. */
module Constants {
  import opened Types

  /** MAX_FREE_APPLICATIONS */
  const MaxFreeApplications: nat := 20

  /** The keys of APPLICATION_STATUSES, i.e. the type ApplicationStatus. */
  datatype Status = Todo | Applied | Followup | Interview | Offer | Rejected

  /** The key under which a status is stored and compared. */
  function Key(s: Status): string {
    match s
    case Todo => "todo"
    case Applied => "applied"
    case Followup => "followup"
    case Interview => "interview"
    case Offer => "offer"
    case Rejected => "rejected"
  }

  /** The display label of a status in APPLICATION_STATUSES. */
  function Label(s: Status): string {
    match s
    case Todo => "À faire"
    case Applied => "Postulé"
    case Followup => "Relance"
    case Interview => "Entretien"
    case Offer => "Offre"
    case Rejected => "Refusé"
  }

  /** The colour class of a status in APPLICATION_STATUSES. */
  function Color(s: Status): string {
    match s
    case Todo => "bg-slate-500"
    case Applied => "bg-blue-500"
    case Followup => "bg-yellow-500"
    case Interview => "bg-purple-500"
    case Offer => "bg-green-500"
    case Rejected => "bg-red-500"
  }

  /** `Object.keys(APPLICATION_STATUSES)`, in declaration order. */
  const StatusOrder: seq<Status> := [Todo, Applied, Followup, Interview, Offer, Rejected]

  /** KANBAN_COLUMNS */
  const KanbanColumns: seq<string> := ["todo", "applied", "followup", "interview", "offer", "rejected"]

  /** Reads a stored status key back; `None` for any text that is not one of the six keys. */
  function ParseStatus(k: string): (r: Option<Status>)
    ensures r.Some? ==> Key(r.value) == k
    ensures r.None? ==> forall s: Status :: Key(s) != k
  {
    if k == "todo" then Some(Todo)
    else if k == "applied" then Some(Applied)
    else if k == "followup" then Some(Followup)
    else if k == "interview" then Some(Interview)
    else if k == "offer" then Some(Offer)
    else if k == "rejected" then Some(Rejected)
    else None
  }

  /** A stored status is valid when it is one of the six keys. */
  predicate ValidStatus(k: string) {
    ParseStatus(k).Some?
  }

  /** Every status has exactly one key and reading the key back gives the status. */
  lemma KeyRoundTrip(s: Status)
    ensures ParseStatus(Key(s)) == Some(s)
  {
  }

  /** ApplicationStatus is exactly the key set of APPLICATION_STATUSES: every status occurs
      once in the key order, and the key order lists the six keys without repetition. */
  lemma StatusOrderIsKeySet()
    ensures |StatusOrder| == 6
    ensures forall s: Status :: s in StatusOrder
    ensures forall i, j :: 0 <= i < j < |StatusOrder| ==> Key(StatusOrder[i]) != Key(StatusOrder[j])
  {
    forall s: Status ensures s in StatusOrder {
      match s
      case Todo => assert StatusOrder[0] == s;
      case Applied => assert StatusOrder[1] == s;
      case Followup => assert StatusOrder[2] == s;
      case Interview => assert StatusOrder[3] == s;
      case Offer => assert StatusOrder[4] == s;
      case Rejected => assert StatusOrder[5] == s;
    }
  }

  /** KANBAN_COLUMNS holds each of the six keys exactly once, in the order
      todo, applied, followup, interview, offer, rejected. */
  lemma KanbanColumnsAreTheStatusKeys()
    ensures |KanbanColumns| == |StatusOrder|
    ensures forall i :: 0 <= i < |KanbanColumns| ==> KanbanColumns[i] == Key(StatusOrder[i])
    ensures forall k :: k in KanbanColumns <==> ValidStatus(k)
    ensures forall i, j :: 0 <= i < j < |KanbanColumns| ==> KanbanColumns[i] != KanbanColumns[j]
  {
  }
}
