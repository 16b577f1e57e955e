/**
 * The dashboard's "Recent Transactions" card. It labels transactions with
 * its own copy of `getTransactionType`, which has no "pending" case.
 */
module RecentTransactions {
  import opened Wrappers
  import opened Transactions
  import PlayerHistory

  /** `getTransactionType` of the dashboard card. */
  function Classify(t: Tx, me: Option<string>): (l: PlayerHistory.Label)
    ensures l != PlayerHistory.Pending
    ensures l == PlayerHistory.Claim <==> t.txType == TypeDailyMint
    ensures l == PlayerHistory.Sent <==>
      t.txType != TypeDailyMint && (t.txType == TypeRequest || SentByUser(t.from, me))
  {
    if t.txType == TypeDailyMint then PlayerHistory.Claim
    else if t.txType == TypeRequest then PlayerHistory.Sent
    else if SentByUser(t.from, me) then PlayerHistory.Sent
    else PlayerHistory.Received
  }

  /** The two classifiers agree on everything but pending requests, which the card calls sent. */
  lemma AgreesWithHistory(t: Tx, me: Option<string>)
    ensures !(t.txType == TypeRequest && t.status == StatusPending) ==>
      Classify(t, me) == PlayerHistory.Classify(t, me)
    ensures t.txType == TypeRequest && t.status == StatusPending ==>
      Classify(t, me) == PlayerHistory.Sent && PlayerHistory.Classify(t, me) == PlayerHistory.Pending
  {
  }

  /** `-` exactly for the sent label. */
  function AmountSign(l: PlayerHistory.Label): (s: PlayerHistory.Sign)
    ensures s == PlayerHistory.Minus <==> l == PlayerHistory.Sent
  {
    if l == PlayerHistory.Sent then PlayerHistory.Minus else PlayerHistory.Plus
  }

  /** Despite the differing labels, the card and the history page put the same sign on every transaction. */
  lemma SignsAgreeWithHistory(t: Tx, me: Option<string>)
    ensures AmountSign(Classify(t, me)) == PlayerHistory.AmountSign(PlayerHistory.Classify(t, me))
  {
  }
}
