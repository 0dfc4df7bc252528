/** Records of src/lib/types.ts, plus the optional-value wrapper the model uses for
    JavaScript's `null`/`undefined`. */
module Types {

  /** An optional value: `None` stands for `null` or `undefined`. */
  datatype Option<+T> = None | Some(value: T) {

    /** The wrapped value, or `default` when there is none. */
    function GetOr(default: T): T {
      match this
      case Some(v) => v
      case None => default
    }
  }

  /** JavaScript truthiness of an optional string: `null`, `undefined` and `""` are falsy. */
  predicate Truthy(s: Option<string>) {
    s.Some? && s.value != ""
  }

  /** `s || fallback` for an optional string. */
  function OrElse(s: Option<string>, fallback: string): string {
    if Truthy(s) then s.value else fallback
  }

  /** A string used as a condition (`if (!s)`): only `""` is falsy. */
  predicate NonEmpty(s: string) {
    s != ""
  }

  /** The subscription tier of a user profile (`subscription_status`). */
  datatype Tier = Free | Pro

  /** A row of the `users` table. */
  datatype User = User(
    id: string,
    email: string,
    tier: Tier,
    stripeCustomerId: Option<string>,
    createdAt: string)

  /** A row of the `applications` table. `status` is the stored text, which the
      application types as one of the six keys of `Constants.Status`. */
  datatype Application = Application(
    id: string,
    userId: string,
    company: string,
    role: string,
    url: Option<string>,
    status: string,
    appliedAt: Option<string>,
    lastContactAt: Option<string>,
    notes: Option<string>,
    createdAt: string,
    updatedAt: string)
}
