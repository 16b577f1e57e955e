/**
 * The transaction record as the backend returns it to the client, and the
 * pieces of it that several screens read the same way.
 */
module Transactions {
  import opened Wrappers
  import opened JsText

  const TypeDailyMint := "daily-mint"
  const TypeRequest := "request"
  const TypeManual := "manual"
  const StatusPending := "pending"
  const StatusApproved := "approved"

  /**
   * A transaction's `fromUserId` or `toUserId`: JSON null (a system credit,
   * or no counterpart), a bare id string, or a populated account whose
   * `_id` may be missing. A missing or empty `name`/`email` is "".
   */
  datatype Party =
    | NullRef
    | RawId(id: string)
    | Populated(oid: Option<string>, name: string, email: string)

  /** `id` is the transaction's `_id || id`; `txType` and `status` are the backend's strings. */
  datatype Tx = Tx(id: string, txType: string, status: string, from: Party, to: Party)

  /** The account id a party denotes, if any. */
  function PartyId(p: Party): Option<string> {
    match p
    case NullRef => None
    case RawId(s) => Some(s)
    case Populated(o, _, _) => o
  }

  /**
   * `tx.fromUserId?._id === user?.id || tx.fromUserId === user?.id` under
   * JavaScript's strict equality, with `me` standing for `user?.id`
   * (None = undefined). A string has no `_id`, and null !== undefined.
   */
  predicate SentByUser(from: Party, me: Option<string>) {
    match from
    case NullRef => me == None
    case RawId(s) => me == None || me == Some(s)
    case Populated(o, _, _) => o == me
  }

  /** With a logged-in user, the sender test is exactly "the sender's id is my id". */
  lemma SentByLoggedInUser(from: Party, me: string)
    ensures SentByUser(from, Some(me)) <==> PartyId(from) == Some(me)
  {
  }

  /**
   * Without a user id both sides of the first comparison are undefined, so
   * every sender except a populated account that carries an `_id` passes.
   */
  lemma SentWithoutUser(from: Party)
    ensures SentByUser(from, None) <==> !(from.Populated? && from.oid.Some?)
  {
  }

  /** `party?.name || party?.email || ''`: a bare id or null has neither field. */
  function PartyLabel(p: Party): (r: string)
    ensures r != "" ==> p.Populated? && (r == p.name || r == p.email)
    ensures p.Populated? && p.name != "" ==> r == p.name
    ensures p.Populated? && p.name == "" ==> r == p.email
    ensures !p.Populated? ==> r == ""
  {
    match p
    case Populated(_, name, email) => Or(name, email)
    case _ => ""
  }

  /** How an awaited backend call ended: resolved, or rejected with an error whose `message` may be "". */
  datatype ApiResult = Succeeded | Failed(message: string)

  const TransferFailed := "Transfer failed"

  /** `err.message || 'Transfer failed'` */
  function FailureMessage(message: string): (r: string)
    ensures r != ""
    ensures message != "" ==> r == message
    ensures message == "" ==> r == TransferFailed
  {
    Or(message, TransferFailed)
  }

  /**
   * The body of a `POST /transfer`. A field that is `undefined` in the
   * JavaScript object is dropped by `JSON.stringify`; here it is None.
   * `amount` is the already-parsed number, None for NaN.
   */
  datatype TransferPayload = TransferPayload(
    toUserId: Option<string>,
    fromUserId: Option<string>,
    amount: Option<real>,
    txType: string,
    reason: Option<string>)

  /** `s || undefined`: an optional text field is sent only when non-empty. */
  function NonEmpty(s: string): (r: Option<string>)
    ensures r.None? <==> s == ""
    ensures r.Some? ==> r.value == s
  {
    if s == "" then None else Some(s)
  }
}
