/** The Stripe webhook of src/app/api/stripe/webhook/route.ts: configuration and signature
    checks, then the tier changes each event makes to the `users` table. Signature
    verification (`constructEvent`) and the outcome of each table write are parameters. */
module StripeWebhook {
  import opened Types

  /** The events the route distinguishes; every other type lands in `OtherEvent`. */
  datatype Event =
    | CheckoutCompleted(metadataUserId: Option<string>, sessionCustomer: Option<string>)
    | SubscriptionDeleted(customer: string)
    | SubscriptionUpdated(customer: string, status: string)
    | OtherEvent(kind: string)

  /** How an awaited table update went: applied, refused with an error value (which the
      route never looks at), or thrown. */
  datatype WriteOutcome = WriteApplied | WriteRefused | WriteThrew

  datatype WebhookResponse =
    | StripeNotConfigured500
    | MissingSignature400
    | InvalidSignature400
    | Received
    | HandlerFailed500

  datatype WebhookResult = WebhookResult(response: WebhookResponse, users: seq<User>)

  /** `update({ subscription_status: "pro", stripe_customer_id: customer }).eq("id", id)` */
  function SetProById(users: seq<User>, id: string, customer: Option<string>): (r: seq<User>)
    ensures |r| == |users|
    ensures forall i :: 0 <= i < |r| && users[i].id == id ==>
      r[i] == users[i].(tier := Pro, stripeCustomerId := customer)
    ensures forall i :: 0 <= i < |r| && users[i].id != id ==> r[i] == users[i]
  {
    if users == [] then []
    else
      var head := if users[0].id == id then users[0].(tier := Pro, stripeCustomerId := customer) else users[0];
      [head] + SetProById(users[1..], id, customer)
  }

  /** `update({ subscription_status: tier }).eq("stripe_customer_id", customer)` */
  function SetTierByCustomer(users: seq<User>, customer: string, tier: Tier): (r: seq<User>)
    ensures |r| == |users|
    ensures forall i :: 0 <= i < |r| && users[i].stripeCustomerId == Some(customer) ==>
      r[i] == users[i].(tier := tier)
    ensures forall i :: 0 <= i < |r| && users[i].stripeCustomerId != Some(customer) ==> r[i] == users[i]
  {
    if users == [] then []
    else
      var head := if users[0].stripeCustomerId == Some(customer) then users[0].(tier := tier) else users[0];
      [head] + SetTierByCustomer(users[1..], customer, tier)
  }

  /** `subscription.status === "active" ? "pro" : "free"` */
  function TierForStatus(status: string): (t: Tier)
    ensures t == Pro <==> status == "active"
  {
    if status == "active" then Pro else Free
  }

  /** The table update an event asks for, if any, applied to `users`. */
  function Apply(users: seq<User>, e: Event): seq<User> {
    match e
    case CheckoutCompleted(userId, customer) =>
      if Truthy(userId) then SetProById(users, userId.value, customer) else users
    case SubscriptionDeleted(customer) => SetTierByCustomer(users, customer, Free)
    case SubscriptionUpdated(customer, status) => SetTierByCustomer(users, customer, TierForStatus(status))
    case OtherEvent(_) => users
  }

  /** Whether an event writes to the table at all. */
  predicate Writes(e: Event) {
    match e
    case CheckoutCompleted(userId, _) => Truthy(userId)
    case SubscriptionDeleted(_) => true
    case SubscriptionUpdated(_, _) => true
    case OtherEvent(_) => false
  }

  /** `POST /api/stripe/webhook`. `construct(body, sig, secret)` is `None` when Stripe
      rejects the signature; `write` is what the one table update does. */
  function Handle(secretKey: Option<string>, webhookSecret: Option<string>, body: string,
                  sig: Option<string>, construct: (string, string, string) -> Option<Event>,
                  write: WriteOutcome, users: seq<User>): (r: WebhookResult)
    ensures !Truthy(secretKey) || !Truthy(webhookSecret) ==> r == WebhookResult(StripeNotConfigured500, users)
    ensures Truthy(secretKey) && Truthy(webhookSecret) && !Truthy(sig) ==> r == WebhookResult(MissingSignature400, users)
    ensures Truthy(secretKey) && Truthy(webhookSecret) && Truthy(sig) && construct(body, sig.value, webhookSecret.value).None? ==>
      r == WebhookResult(InvalidSignature400, users)
    ensures r.users != users ==> r.response == Received
    ensures r.response == HandlerFailed500 <==>
      Truthy(secretKey) && Truthy(webhookSecret) && Truthy(sig)
      && construct(body, sig.value, webhookSecret.value).Some?
      && Writes(construct(body, sig.value, webhookSecret.value).value) && write == WriteThrew
    ensures (Truthy(secretKey) && Truthy(webhookSecret) && Truthy(sig)
             && construct(body, sig.value, webhookSecret.value).Some? && write != WriteThrew) ==>
      && r.response == Received
      && r.users == (if write == WriteApplied then Apply(users, construct(body, sig.value, webhookSecret.value).value) else users)
    ensures (Truthy(secretKey) && Truthy(webhookSecret) && Truthy(sig)
             && construct(body, sig.value, webhookSecret.value).Some?
             && !Writes(construct(body, sig.value, webhookSecret.value).value)) ==>
      r == WebhookResult(Received, users)
    ensures r.response == HandlerFailed500 ==> r.users == users
  {
    if !Truthy(secretKey) || !Truthy(webhookSecret) then WebhookResult(StripeNotConfigured500, users)
    else if !Truthy(sig) then WebhookResult(MissingSignature400, users)
    else match construct(body, sig.value, webhookSecret.value)
      case None => WebhookResult(InvalidSignature400, users)
      case Some(e) =>
        if !Writes(e) then WebhookResult(Received, users)
        else match write
          case WriteApplied => WebhookResult(Received, Apply(users, e))
          case WriteRefused => WebhookResult(Received, users)
          case WriteThrew => WebhookResult(HandlerFailed500, users)
  }

  /** Setting a tier twice is setting it once. */
  lemma {:induction false} SetTierByCustomerIdempotent(users: seq<User>, customer: string, tier: Tier)
    ensures SetTierByCustomer(SetTierByCustomer(users, customer, tier), customer, tier) == SetTierByCustomer(users, customer, tier)
  {
    if users != [] {
      SetTierByCustomerIdempotent(users[1..], customer, tier);
      assert SetTierByCustomer(users, customer, tier)[1..] == SetTierByCustomer(users[1..], customer, tier);
    }
  }

  /** Upgrading a user twice is upgrading once. */
  lemma {:induction false} SetProByIdIdempotent(users: seq<User>, id: string, customer: Option<string>)
    ensures SetProById(SetProById(users, id, customer), id, customer) == SetProById(users, id, customer)
  {
    if users != [] {
      SetProByIdIdempotent(users[1..], id, customer);
      assert SetProById(users, id, customer)[1..] == SetProById(users[1..], id, customer);
    }
  }

  /** Stripe may deliver an event more than once: a redelivery leaves the table as the
      first delivery left it. */
  lemma RedeliveryIsHarmless(users: seq<User>, e: Event)
    ensures Apply(Apply(users, e), e) == Apply(users, e)
  {
    match e
    case CheckoutCompleted(userId, customer) =>
      if Truthy(userId) { SetProByIdIdempotent(users, userId.value, customer); }
    case SubscriptionDeleted(customer) => SetTierByCustomerIdempotent(users, customer, Free);
    case SubscriptionUpdated(customer, status) => SetTierByCustomerIdempotent(users, customer, TierForStatus(status));
    case OtherEvent(_) =>
  }

  /** A signature Stripe rejects changes nothing and is answered 400. */
  lemma RejectedSignatureWritesNothing(secretKey: string, webhookSecret: string, body: string, sig: string,
                                       construct: (string, string, string) -> Option<Event>,
                                       write: WriteOutcome, users: seq<User>)
    requires secretKey != "" && webhookSecret != "" && sig != ""
    requires construct(body, sig, webhookSecret).None?
    ensures Handle(Some(secretKey), Some(webhookSecret), body, Some(sig), construct, write, users)
      == WebhookResult(InvalidSignature400, users)
  {
  }

  /** After an applied checkout, the user named in the session metadata is pro and
      carries the session's customer id. */
  lemma CheckoutUpgrades(users: seq<User>, userId: string, customer: Option<string>, i: nat)
    requires userId != "" && i < |users| && users[i].id == userId
    ensures var after := Apply(users, CheckoutCompleted(Some(userId), customer));
      after[i].tier == Pro && after[i].stripeCustomerId == customer
  {
  }

  /** After an applied cancellation, no user of that customer is pro any more. */
  lemma CancellationDowngrades(users: seq<User>, customer: string)
    ensures var after := Apply(users, SubscriptionDeleted(customer));
      forall i :: 0 <= i < |after| && after[i].stripeCustomerId == Some(customer) ==> after[i].tier == Free
  {
  }

  /** An update leaves a customer pro exactly when the subscription is active. */
  lemma UpdateFollowsStatus(users: seq<User>, customer: string, status: string, i: nat)
    requires i < |users| && users[i].stripeCustomerId == Some(customer)
    ensures Apply(users, SubscriptionUpdated(customer, status))[i].tier == Pro <==> status == "active"
  {
  }

  /** Checkout followed by cancellation of the same customer puts the user back on the
      free tier, keeping the customer id. */
  lemma CheckoutThenCancel(users: seq<User>, userId: string, customer: string, i: nat)
    requires userId != "" && i < |users| && users[i].id == userId
    ensures var after := Apply(Apply(users, CheckoutCompleted(Some(userId), Some(customer))), SubscriptionDeleted(customer));
      after[i].tier == Free && after[i].stripeCustomerId == Some(customer)
  {
  }

  /** A checkout whose session carries no user id is acknowledged and writes nothing, so
      the payer stays on the free tier. */
  lemma CheckoutWithoutUserIsLost(secretKey: string, webhookSecret: string, body: string, sig: string,
                                  construct: (string, string, string) -> Option<Event>,
                                  write: WriteOutcome, users: seq<User>, customer: Option<string>)
    requires secretKey != "" && webhookSecret != "" && sig != ""
    requires construct(body, sig, webhookSecret) == Some(CheckoutCompleted(None, customer))
    ensures Handle(Some(secretKey), Some(webhookSecret), body, Some(sig), construct, write, users)
      == WebhookResult(Received, users)
  {
  }
}
