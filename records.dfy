/**
  The three persisted record kinds of the crowdfunding backend (users, dreams and
  donations), the errors its services raise, and the JavaScript idioms the services
  use on them (truthiness of optional strings, `String.prototype.slice`).
*/
module Records {
  import opened Wrappers

  /** A dream's campaign status; the only transition is ACTIVE to COMPLETED. */
  datatype Status = Active | Completed

  /** A platform user, identified by `id` and by the unique `walletAddress`. */
  datatype User = User(
    id: int,
    walletAddress: string,
    username: Option<string>,
    avatar: Option<string>,
    rating: int,
    totalDonated: real,
    totalReceived: real,
    chances: int)

  /** A funding campaign created by the user `userId`. */
  datatype Dream = Dream(
    id: int,
    userId: int,
    title: string,
    description: string,
    imageUrl: Option<string>,
    category: Option<string>,
    goal: real,
    totalDonations: real,
    rating: int,
    status: Status,
    isWithdrawn: bool)

  /** One recorded transfer; `txHash` is unique across all donations. */
  datatype Donation = Donation(
    id: int,
    dreamId: int,
    donorId: Option<int>,
    fromWallet: string,
    amount: real,
    currency: string,
    txHash: string)

  /** What the services throw: their own errors and the store's constraint failures. */
  datatype Error =
    | InvalidAmount
    | DreamNotFound(dreamId: int)
    | CreatorMissing(dreamId: int)
    | DreamCompleted(dreamId: int)
    | RecordNotFound
    | UniqueViolation
    | ForeignKeyViolation

  /** JavaScript truthiness of an optional string: absent and "" are falsy. */
  predicate Truthy(s: Option<string>) {
    s.Some? && s.value != ""
  }

  /** `s || fallback` on an optional string. */
  function OrElse(s: Option<string>, fallback: string): string {
    if Truthy(s) then s.value else fallback
  }

  function Min(a: int, b: int): int {
    if a <= b then a else b
  }

  /**
    `s.slice(start, end)` for non-negative indices: both ends are clamped to the
    length of the string, and an empty string results when they cross.
  */
  function Slice(s: string, start: nat, end: nat): (r: string)
    ensures |r| == if Min(start, |s|) <= Min(end, |s|) then Min(end, |s|) - Min(start, |s|) else 0
    ensures forall k :: 0 <= k < |r| ==> r[k] == s[Min(start, |s|) + k]
  {
    var from, to := Min(start, |s|), Min(end, |s|);
    if from <= to then s[from..to] else ""
  }
}
