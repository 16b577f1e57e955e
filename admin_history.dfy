/**
 * The admin transaction history screen: the type filter, the search box,
 * which actions a row offers, and the approve / reject / reverse flows with
 * their modal and `processing` state.
 */
module AdminHistory {
  import opened Wrappers
  import opened JsText
  import opened Seqs
  import opened Transactions
  import PlayerHistory

  /** The keys of the type tabs the page offers. */
  const TypeTabs: seq<string> := ["all", "manual", "reversal", "daily-mint", "request"]

  /** The `type` query parameter for a type key, shared by the fetch and the CSV export. */
  function TypeParam(key: string): (r: Option<string>)
    ensures r.None? <==> key == "all"
    ensures key == "claim" ==> r == Some(TypeDailyMint)
    ensures key != "all" && key != "claim" ==> r == Some(key)
  {
    if key != "all" then Some(if key == "claim" then TypeDailyMint else key) else None
  }

  /** On the keys the page actually offers the mapping is the identity (the `claim` case is never reached). */
  lemma OfferedTabsPassThrough()
    ensures forall k :: k in TypeTabs ==> TypeParam(k) == if k == "all" then None else Some(k)
    ensures "claim" !in TypeTabs
  {
  }

  /** The search test of one row: empty query, or either party's label contains it, ignoring case. */
  predicate MatchesSearch(q: string, t: Tx) {
    || q == ""
    || Includes(ToLower(PartyLabel(t.from)), ToLower(q))
    || Includes(ToLower(PartyLabel(t.to)), ToLower(q))
  }

  /** `filteredTransactions`: the search box filter. */
  function SearchFilter(txs: seq<Tx>, q: string): (r: seq<Tx>)
    ensures q == "" ==> r == txs
    ensures IsSubsequence(r, txs)
    ensures forall t :: t in r <==> t in txs && MatchesSearch(q, t)
    ensures forall t :: multiset(r)[t] == if MatchesSearch(q, t) then multiset(txs)[t] else 0
  {
    var keep := (t: Tx) => MatchesSearch(q, t);
    FilterIsSubsequence(keep, txs);
    FilterCounts(keep, txs);
    if q == "" then FilterKeepsAll(keep, txs); Filter(keep, txs)
    else Filter(keep, txs)
  }

  /** A row whose parties carry no name or email (system credits, bare ids) is found only by the empty query. */
  lemma UnlabelledRowsOnlyMatchEmptyQuery(t: Tx, q: string)
    requires PartyLabel(t.from) == "" && PartyLabel(t.to) == ""
    ensures MatchesSearch(q, t) <==> q == ""
  {
    EmptyIncludesOnlyEmpty(ToLower(q));
  }

  /** The search ignores ASCII case on both sides. */
  lemma SearchIgnoresCase(t: Tx, q: string)
    ensures MatchesSearch(q, t) <==> MatchesSearch(ToLower(q), t)
  {
    ToLowerIdempotent(q);
  }

  /** The "From" column: the sender's name, else email, else `System`. */
  function SenderColumn(t: Tx): (r: string)
    ensures r != ""
    ensures PartyLabel(t.from) != "" ==> r == PartyLabel(t.from)
    ensures PartyLabel(t.from) == "" ==> r == "System"
  {
    Or(PartyLabel(t.from), "System")
  }

  /** The "To" column: the recipient's name, else email, else `N/A`. */
  function RecipientColumn(t: Tx): (r: string)
    ensures r != ""
    ensures PartyLabel(t.to) != "" ==> r == PartyLabel(t.to)
    ensures PartyLabel(t.to) == "" ==> r == "N/A"
  {
    Or(PartyLabel(t.to), "N/A")
  }

  /** A row that displays `System` is not found by searching "System": the search reads the label, not the column. */
  lemma SystemColumnNotSearchable(t: Tx)
    requires PartyLabel(t.from) == "" && PartyLabel(t.to) == ""
    ensures SenderColumn(t) == "System"
    ensures !MatchesSearch("System", t)
  {
    assert ToLower("System") != "";
    EmptyIncludesOnlyEmpty(ToLower("System"));
  }

  /** The row offers Accept and Reject. */
  predicate OffersApproveReject(t: Tx) {
    t.txType == TypeRequest && t.status == StatusPending
  }

  /** The row offers Reverse. */
  predicate OffersReverse(t: Tx) {
    t.txType == TypeManual && t.status == StatusApproved
  }

  /** No row offers both action sets. */
  lemma ActionsExclusive(t: Tx)
    ensures !(OffersApproveReject(t) && OffersReverse(t))
  {
  }

  /** The rows an admin can approve are exactly those the requester's history labels pending. */
  lemma ApprovableIffPlayerSeesPending(t: Tx, me: Option<string>)
    ensures OffersApproveReject(t) <==> PlayerHistory.Classify(t, me) == PlayerHistory.Pending
  {
  }

  const NoReasonProvided := "No reason provided"

  /** `rejectReason || 'No reason provided'` */
  function RejectReasonSent(reason: string): (r: string)
    ensures r != ""
    ensures reason != "" ==> r == reason
    ensures reason == "" ==> r == NoReasonProvided
  {
    Or(reason, NoReasonProvided)
  }

  /** A reversal goes ahead only with a reason that is not blank. */
  predicate ReversalReasonGiven(reason: string)
    ensures ReversalReasonGiven(reason) <==> !IsBlank(reason)
  {
    TrimEmptyIffBlank(reason);
    Trim(reason) != ""
  }

  /** The requests the page sends to the backend. */
  datatype AdminCall =
    | Approve(txId: string)
    | Reject(txId: string, reason: string)
    | Reverse(txId: string, reason: string)

  /** The page's state. `calls` records every backend request it has sent, oldest first. */
  class HistoryPage {
    var processing: bool
    var selected: Option<Tx>
    var showRejectModal: bool
    var showReversalModal: bool
    var rejectReason: string
    var reversalReason: string
    var calls: seq<AdminCall>

    constructor ()
      ensures !processing && selected == None
      ensures !showRejectModal && !showReversalModal
      ensures rejectReason == "" && reversalReason == ""
      ensures calls == []
    {
      processing := false;
      selected := None;
      showRejectModal := false;
      showReversalModal := false;
      rejectReason := "";
      reversalReason := "";
      calls := [];
    }

    /** `handleApprove` up to its await: ignored while another approval is in flight. */
    method BeginApprove(t: Tx) returns (started: bool)
      modifies this`processing, this`calls
      ensures started <==> !old(processing)
      ensures processing
      ensures calls == if started then old(calls) + [Approve(t.id)] else old(calls)
    {
      if processing {
        return false;
      }
      processing := true;
      calls := calls + [Approve(t.id)];
      started := true;
    }

    /** The `finally` of `handleApprove`, reached whether the request resolved or failed. */
    method FinishApprove()
      modifies this`processing
      ensures !processing
    {
      processing := false;
    }

    /** `handleReject`: remember the row and open the reject dialog. */
    method HandleReject(t: Tx)
      modifies this`selected, this`showRejectModal
      ensures selected == Some(t) && showRejectModal
    {
      selected := Some(t);
      showRejectModal := true;
    }

    /** The reject dialog's Cancel button. */
    method CancelReject()
      modifies this`showRejectModal, this`rejectReason, this`selected
      ensures !showRejectModal && rejectReason == "" && selected == None
    {
      showRejectModal := false;
      rejectReason := "";
      selected := None;
    }

    /** `confirmReject`, with the backend's answer as `result`. */
    method ConfirmReject(result: ApiResult)
      modifies this`showRejectModal, this`rejectReason, this`selected, this`calls
      ensures old(selected).None? ==>
        calls == old(calls) && selected == None
        && showRejectModal == old(showRejectModal) && rejectReason == old(rejectReason)
      ensures old(selected).Some? ==>
        calls == old(calls) + [Reject(old(selected).value.id, RejectReasonSent(old(rejectReason)))]
      ensures old(selected).Some? && result.Succeeded? ==>
        !showRejectModal && selected == None && rejectReason == ""
      ensures old(selected).Some? && result.Failed? ==>
        showRejectModal == old(showRejectModal) && selected == old(selected) && rejectReason == old(rejectReason)
    {
      if selected.None? {
        return;
      }
      calls := calls + [Reject(selected.value.id, RejectReasonSent(rejectReason))];
      if result.Succeeded? {
        showRejectModal := false;
        selected := None;
        rejectReason := "";
      }
    }

    /** `handleReversal`: remember the row and open the reversal dialog. */
    method HandleReversal(t: Tx)
      modifies this`selected, this`showReversalModal
      ensures selected == Some(t) && showReversalModal
    {
      selected := Some(t);
      showReversalModal := true;
    }

    /** The reversal dialog's Cancel button; unlike the reject dialog it keeps the selected row. */
    method CancelReversal()
      modifies this`showReversalModal, this`reversalReason
      ensures !showReversalModal && reversalReason == ""
    {
      showReversalModal := false;
      reversalReason := "";
    }

    /**
     * `confirmReversal`, with the backend's answer as `result`. A blank reason
     * sends nothing; so does a missing row, whose `_id` lookup throws inside
     * the `try` and only raises an error toast. The reason goes out untrimmed.
     */
    method ConfirmReversal(result: ApiResult)
      modifies this`showReversalModal, this`reversalReason, this`selected, this`calls
      ensures IsBlank(old(reversalReason)) || old(selected).None? ==>
        calls == old(calls) && selected == old(selected)
        && showReversalModal == old(showReversalModal) && reversalReason == old(reversalReason)
      ensures !IsBlank(old(reversalReason)) && old(selected).Some? ==>
        calls == old(calls) + [Reverse(old(selected).value.id, old(reversalReason))]
      ensures !IsBlank(old(reversalReason)) && old(selected).Some? && result.Succeeded? ==>
        !showReversalModal && selected == None && reversalReason == ""
      ensures result.Failed? ==>
        showReversalModal == old(showReversalModal) && selected == old(selected)
        && reversalReason == old(reversalReason)
    {
      // `!reversalReason.trim()`, stated as blankness (see `ReversalReasonGiven`)
      if IsBlank(reversalReason) || selected.None? {
        return;
      }
      calls := calls + [Reverse(selected.value.id, reversalReason)];
      if result.Succeeded? {
        showReversalModal := false;
        selected := None;
        reversalReason := "";
      }
    }
  }

  /** A second click on Accept while the first approval is in flight sends nothing more. */
  method DoubleApproveSendsOnce(t: Tx, u: Tx) returns (sent: seq<AdminCall>)
    ensures sent == [Approve(t.id)]
  {
    var page := new HistoryPage();
    var first := page.BeginApprove(t);
    var second := page.BeginApprove(u);
    page.FinishApprove();
    sent := page.calls;
  }
}
