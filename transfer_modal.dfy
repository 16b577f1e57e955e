/**
 * The transfer dialog opened from a row of the users table: credit chips
 * to the row's user ("to"), or debit them ("from") towards another user
 * that the dialog picks itself.
 */
module TransferModal {
  import opened Wrappers
  import opened JsText
  import opened Transactions

  /**
   * An account as `/balance` lists it. `oid` is `_id` ("" when missing),
   * `id` the alternative id field, `balance` is `parseFloat(balance || '0')`
   * (a missing or zero balance reads as 0; None is NaN).
   */
  datatype Account = Account(oid: string, id: string, name: string, email: string, balance: Option<real>)

  /** The dialog's two directions. */
  datatype Direction = To | From

  /** `user._id || user.id` */
  function AccountId(u: Account): string {
    Or(u.oid, u.id)
  }

  /** `users.find(u => u._id !== oid)`, as the index of the first such account. */
  function FindOther(users: seq<Account>, oid: string): (r: Option<nat>)
    ensures r.Some? ==> r.value < |users| && users[r.value].oid != oid
    ensures r.Some? ==> forall j :: 0 <= j < r.value ==> users[j].oid == oid
    ensures r.None? ==> forall j :: 0 <= j < |users| ==> users[j].oid == oid
  {
    if users == [] then None
    else if users[0].oid != oid then Some(0)
    else match FindOther(users[1..], oid)
      case None => None
      case Some(k) => Some(k + 1)
  }

  /** `users.find(u => u._id !== user._id)?._id || users[0]?._id`, None for undefined. */
  function Recipient(users: seq<Account>, source: Account): (r: Option<string>)
    ensures r.Some? ==> r.value != "" && exists i :: 0 <= i < |users| && users[i].oid == r.value
    ensures r.None? ==> users == [] || users[0].oid == ""
  {
    var found := FindOther(users, source.oid);
    if found.Some? && users[found.value].oid != "" then Some(users[found.value].oid)
    else if users != [] && users[0].oid != "" then Some(users[0].oid)
    else None
  }

  /**
   * When every listed account has an `_id` and one of them is not the source,
   * the recipient is the first such account, so it differs from the source.
   */
  lemma RecipientIsFirstOther(users: seq<Account>, source: Account, k: nat)
    requires forall j :: 0 <= j < |users| ==> users[j].oid != ""
    requires k < |users| && users[k].oid != source.oid
    ensures Recipient(users, source).Some?
    ensures Recipient(users, source).value != source.oid
    ensures exists i :: 0 <= i <= k && Recipient(users, source) == Some(users[i].oid)
  {
    var f := FindOther(users, source.oid);
    assert f.Some?;
  }

  /** When every listed account is the source, the debit goes to the first one: the source itself. */
  lemma RecipientFallsBackToFirst(users: seq<Account>, source: Account)
    requires users != [] && users[0].oid != ""
    requires forall j :: 0 <= j < |users| ==> users[j].oid == source.oid
    ensures Recipient(users, source) == Some(source.oid)
  {
  }

  const InvalidAmountError := "Please enter a valid amount"
  const InsufficientError := "Insufficient chips in user balance"

  /** The checks of `handleSubmit`: the error it sets, or None when the transfer goes ahead. */
  function Validate(direction: Direction, parsed: Option<real>, balance: Option<real>): (r: Option<string>)
    ensures parsed.None? || parsed.value <= 0.0 ==> r == Some(InvalidAmountError)
    ensures parsed.Some? && parsed.value > 0.0 ==>
      (r == Some(InsufficientError) <==> direction == From && balance.Some? && parsed.value > balance.value)
    ensures r.None? <==>
      parsed.Some? && parsed.value > 0.0 && !(direction == From && balance.Some? && parsed.value > balance.value)
  {
    if parsed.None? || parsed.value <= 0.0 then Some(InvalidAmountError)
    else if direction == From && balance.Some? && parsed.value > balance.value then Some(InsufficientError)
    else None
  }

  /** A debit of exactly the whole balance is allowed; one chip more is not. */
  lemma WholeBalanceAllowed(b: real)
    requires b > 0.0
    ensures Validate(From, Some(b), Some(b)).None?
    ensures Validate(From, Some(b + 1.0), Some(b)) == Some(InsufficientError)
  {
  }

  /** A credit is never refused for the balance. */
  lemma CreditIgnoresBalance(amount: real, balance: Option<real>)
    requires amount > 0.0
    ensures Validate(To, Some(amount), balance).None?
  {
  }

  /** The body posted for an accepted submission. */
  function Payload(direction: Direction, user: Account, users: seq<Account>, amount: real, reason: string): (p: TransferPayload)
    ensures p.txType == TypeManual && p.amount == Some(amount)
    ensures p.reason == NonEmpty(reason)
    ensures direction == To ==> p.fromUserId.None? && p.toUserId == Some(AccountId(user))
    ensures direction == From ==> p.fromUserId == Some(AccountId(user)) && p.toUserId == Recipient(users, user)
  {
    match direction
    case To => TransferPayload(Some(AccountId(user)), None, Some(amount), TypeManual, NonEmpty(reason))
    case From => TransferPayload(Recipient(users, user), Some(AccountId(user)), Some(amount), TypeManual, NonEmpty(reason))
  }

  /** The dialog's state; `closed` records the `onClose()` call, `sent` every posted transfer. */
  class Modal {
    const user: Account
    var users: seq<Account>
    var direction: Direction
    var amount: string
    var reason: string
    var loading: bool
    var error: string
    var closed: bool
    var sent: seq<TransferPayload>

    constructor (user: Account, users: seq<Account>)
      ensures this.user == user && this.users == users
      ensures direction == To && amount == "" && reason == ""
      ensures !loading && error == "" && !closed && sent == []
    {
      this.user := user;
      this.users := users;
      direction := To;
      amount, reason := "", "";
      loading, error, closed := false, "", false;
      sent := [];
    }

    /** `handleSubmit`, with `parsed` = `parseFloat(amount)` and the backend's answer as `result`. */
    method Submit(parsed: Option<real>, result: ApiResult)
      requires !loading
      modifies this`error, this`loading, this`closed, this`sent
      ensures !loading
      ensures var v := Validate(direction, parsed, user.balance);
        if v.Some? then
          error == v.value && sent == old(sent) && closed == old(closed)
        else
          && sent == old(sent) + [Payload(direction, user, users, parsed.value, reason)]
          && (result.Succeeded? ==> closed && error == "")
          && (result.Failed? ==> closed == old(closed) && error == FailureMessage(result.message))
    {
      error := "";
      var v := Validate(direction, parsed, user.balance);
      if v.Some? {
        error := v.value;
        return;
      }
      loading := true;
      sent := sent + [Payload(direction, user, users, parsed.value, reason)];
      match result
      case Succeeded =>
        loading := false;
        closed := true;
      case Failed(message) =>
        error := FailureMessage(message);
        loading := false;
    }
  }
}
