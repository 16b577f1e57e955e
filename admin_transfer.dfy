/**
 * The admin "Manual Transfer" form: optional source account (empty means a
 * system credit), recipient, amount and optional reason.
 */
module AdminTransfer {
  import opened Wrappers
  import opened Transactions

  const SameUserError := "Cannot transfer to the same user"
  const MissingFieldsError := "Please fill in all required fields with valid values"

  /**
   * The checks of `handleSubmit`, in order: the error it sets, or None when
   * the transfer goes ahead. `parsed` is `parseFloat(amount)`, None for NaN;
   * NaN fails `<= 0`, so only the empty-string test stops an unparsable amount.
   */
  function Validate(from: string, to: string, amount: string, parsed: Option<real>): (r: Option<string>)
    ensures from != "" && from == to ==> r == Some(SameUserError)
    ensures !(from != "" && from == to) ==>
      (r == Some(MissingFieldsError) <==> to == "" || amount == "" || (parsed.Some? && parsed.value <= 0.0))
    ensures r.None? || r == Some(SameUserError) || r == Some(MissingFieldsError)
  {
    if from != "" && from == to then Some(SameUserError)
    else if to == "" || amount == "" || (parsed.Some? && parsed.value <= 0.0) then Some(MissingFieldsError)
    else None
  }

  /** An accepted submission names a recipient, differs from its source, and has an amount that is not empty and not known to be non-positive. */
  lemma AcceptedSubmission(from: string, to: string, amount: string, parsed: Option<real>)
    requires Validate(from, to, amount, parsed).None?
    ensures to != "" && amount != "" && from != to
    ensures parsed.Some? ==> parsed.value > 0.0
  {
  }

  /** The same-user check comes first: it wins even when every other field is also wrong. */
  lemma SameUserReportedFirst(id: string, amount: string, parsed: Option<real>)
    requires id != ""
    ensures Validate(id, id, amount, parsed) == Some(SameUserError)
  {
  }

  /** The body `handleSubmit` posts for an accepted submission. */
  function Payload(from: string, to: string, parsed: Option<real>, reason: string): (p: TransferPayload)
    ensures p.txType == TypeManual
    ensures p.toUserId == Some(to)
    ensures p.fromUserId.None? <==> from == ""
    ensures p.fromUserId.Some? ==> p.fromUserId.value == from
    ensures p.reason.None? <==> reason == ""
    ensures p.reason.Some? ==> p.reason.value == reason
    ensures p.amount == parsed
  {
    TransferPayload(Some(to), NonEmpty(from), parsed, TypeManual, NonEmpty(reason))
  }

  /** The form's state. `sent` records every transfer it has posted, oldest first. */
  class TransferForm {
    var fromUserId: string
    var toUserId: string
    var amount: string
    var reason: string
    var loading: bool
    var error: string
    var sent: seq<TransferPayload>

    constructor ()
      ensures fromUserId == "" && toUserId == "" && amount == "" && reason == ""
      ensures !loading && error == "" && sent == []
    {
      fromUserId, toUserId, amount, reason := "", "", "", "";
      loading, error := false, "";
      sent := [];
    }

    /**
     * `handleSubmit`. `parsed` is `parseFloat(amount)` and `result` the
     * backend's answer to the post. The submit button is disabled while
     * `loading`, so a submission starts with `loading` false.
     */
    method Submit(parsed: Option<real>, result: ApiResult)
      requires !loading
      modifies this
      ensures !loading
      ensures var v := Validate(old(fromUserId), old(toUserId), old(amount), parsed);
        if v.Some? then
          && error == v.value && sent == old(sent)
          && fromUserId == old(fromUserId) && toUserId == old(toUserId)
          && amount == old(amount) && reason == old(reason)
        else
          && sent == old(sent) + [Payload(old(fromUserId), old(toUserId), parsed, old(reason))]
          && (result.Succeeded? ==>
                error == "" && fromUserId == "" && toUserId == "" && amount == "" && reason == "")
          && (result.Failed? ==>
                && error == FailureMessage(result.message)
                && fromUserId == old(fromUserId) && toUserId == old(toUserId)
                && amount == old(amount) && reason == old(reason))
    {
      error := "";
      var v := Validate(fromUserId, toUserId, amount, parsed);
      if v.Some? {
        error := v.value;
        return;
      }
      loading := true;
      sent := sent + [Payload(fromUserId, toUserId, parsed, reason)];
      match result {
        case Succeeded =>
          fromUserId, toUserId, amount, reason := "", "", "", "";
        case Failed(message) =>
          error := FailureMessage(message);
      }
      loading := false;
    }
  }
}
