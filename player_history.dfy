/**
 * The player's transaction history screen: how each transaction is labelled
 * from the logged-in player's point of view, which query each tab sends to
 * the backend, and which rows each tab then keeps.
 */
module PlayerHistory {
  import opened Wrappers
  import opened Seqs
  import opened Transactions

  /** The four labels `getTransactionType` returns. */
  datatype Label = Claim | Pending | Sent | Received

  /** The label's string, which the tab filter compares with the tab key. */
  function LabelKey(l: Label): (k: string)
    ensures k in {"claim", "pending", "sent", "received"}
  {
    match l
    case Claim => "claim"
    case Pending => "pending"
    case Sent => "sent"
    case Received => "received"
  }

  lemma LabelKeyInjective(a: Label, b: Label)
    ensures LabelKey(a) == LabelKey(b) <==> a == b
  {
  }

  /** `getTransactionType` of the history page; `me` is `user?.id`. */
  function Classify(t: Tx, me: Option<string>): (l: Label)
    ensures l == Claim <==> t.txType == TypeDailyMint
    ensures l == Pending <==> t.txType == TypeRequest && t.status == StatusPending
    ensures l == Sent <==>
      || (t.txType == TypeRequest && t.status != StatusPending)
      || (t.txType != TypeDailyMint && t.txType != TypeRequest && SentByUser(t.from, me))
    ensures l == Received <==>
      t.txType != TypeDailyMint && t.txType != TypeRequest && !SentByUser(t.from, me)
  {
    if t.txType == TypeDailyMint then Claim
    else if t.txType == TypeRequest && t.status == StatusPending then Pending
    else if t.txType == TypeRequest then Sent
    else if SentByUser(t.from, me) then Sent
    else Received
  }

  /** A daily mint is a claim whoever sent it and whatever its status. */
  lemma DailyMintIsClaim(t: Tx, me: Option<string>, status: string, from: Party)
    requires t.txType == TypeDailyMint
    ensures Classify(t.(status := status, from := from), me) == Claim
  {
  }

  /** The row keeps a tab: `selectedTab === 'all'` or the label's key equals it. */
  function TabKeeps(tab: string, me: Option<string>): Tx -> bool {
    t => tab == "all" || LabelKey(Classify(t, me)) == tab
  }

  /** `filteredTransactions` */
  function FilterByTab(txs: seq<Tx>, tab: string, me: Option<string>): (r: seq<Tx>)
    ensures tab == "all" ==> r == txs
    ensures IsSubsequence(r, txs)
    ensures forall t :: t in r <==> t in txs && (tab == "all" || LabelKey(Classify(t, me)) == tab)
  {
    FilterIsSubsequence(TabKeeps(tab, me), txs);
    if tab == "all" then FilterKeepsAll(TabKeeps(tab, me), txs); Filter(TabKeeps(tab, me), txs)
    else Filter(TabKeeps(tab, me), txs)
  }

  /** A tab key that is none of the five keeps no row at all. */
  lemma UnknownTabKeepsNothing(txs: seq<Tx>, tab: string, me: Option<string>)
    requires tab !in {"all", "claim", "pending", "sent", "received"}
    ensures FilterByTab(txs, tab, me) == []
  {
  }

  /** Each row appears under the tab of its own label, as often as in the list. */
  lemma {:induction false} TabKeepsEveryCopy(txs: seq<Tx>, t: Tx, me: Option<string>)
    ensures multiset(FilterByTab(txs, LabelKey(Classify(t, me)), me))[t] == multiset(txs)[t]
  {
    FilterMultiplicity(TabKeeps(LabelKey(Classify(t, me)), me), txs, t);
  }

  /** The query parameters the page sends (the date part is not modelled). */
  datatype Query = Query(txType: Option<string>, status: Option<string>)

  /** The tab-to-query mapping of `fetchTransactions`. */
  function TabQuery(tab: string): (q: Query)
    ensures q.txType.None? || q.status.None?
    ensures tab == "all" ==> q == Query(None, None)
    ensures tab == "sent" ==> q == Query(Some(TypeRequest), None)
    ensures tab == "received" ==> q == Query(Some(TypeManual), None)
    ensures tab == "pending" ==> q == Query(None, Some(StatusPending))
    ensures tab == "claim" ==> q == Query(Some(TypeDailyMint), None)
    ensures tab !in {"sent", "received", "pending", "claim"} ==> q == Query(None, None)
  {
    if tab != "all" then
      if tab == "sent" then Query(Some(TypeRequest), None)
      else if tab == "received" then Query(Some(TypeManual), None)
      else if tab == "pending" then Query(None, Some(StatusPending))
      else if tab == "claim" then Query(Some(TypeDailyMint), None)
      else Query(None, None)
    else Query(None, None)
  }

  /**
   * The backend's part of the filtering, taken to be an exact match on every
   * parameter that is set (the backend is not part of this model).
   */
  predicate ServerMatches(q: Query, t: Tx) {
    && (q.txType.Some? ==> t.txType == q.txType.value)
    && (q.status.Some? ==> t.status == q.status.value)
  }

  /** A transaction is listed under `tab`: the backend returns it and the page keeps it. */
  predicate Shown(tab: string, me: Option<string>, t: Tx) {
    ServerMatches(TabQuery(tab), t) && TabKeeps(tab, me)(t)
  }

  /** What each tab shows, as the two filters compose. */
  lemma ShownUnderTab(tab: string, me: Option<string>, t: Tx)
    ensures tab == "all" ==> Shown(tab, me, t)
    ensures tab == "claim" ==> (Shown(tab, me, t) <==> t.txType == TypeDailyMint)
    ensures tab == "pending" ==> (Shown(tab, me, t) <==> t.txType == TypeRequest && t.status == StatusPending)
    ensures tab == "sent" ==> (Shown(tab, me, t) <==> t.txType == TypeRequest && t.status != StatusPending)
    ensures tab == "received" ==> (Shown(tab, me, t) <==> t.txType == TypeManual && !SentByUser(t.from, me))
  {
  }

  /**
   * As written, a manual transfer out of the player's account is labelled
   * "sent" but listed under no tab except "all": the "sent" tab asks the
   * backend for requests only, and the "received" tab drops it as sent.
   */
  lemma ManualDebitHiddenFromTabs(me: string, t: Tx)
    requires t.txType == TypeManual && t.from == RawId(me)
    ensures Classify(t, Some(me)) == Sent
    ensures forall tab :: tab != "all" ==> !Shown(tab, Some(me), t)
  {
  }

  /** The query mapping the tabs evidently intend: ask the backend only for what decides the label. */
  function IntendedTabQuery(tab: string): (q: Query)
    ensures q.txType.None? || q.status.None?
    ensures tab == "claim" ==> q == Query(Some(TypeDailyMint), None)
    ensures tab == "pending" ==> q == Query(None, Some(StatusPending))
    ensures tab !in {"claim", "pending"} ==> q == Query(None, None)
  {
    if tab == "pending" then Query(None, Some(StatusPending))
    else if tab == "claim" then Query(Some(TypeDailyMint), None)
    else Query(None, None)
  }

  /** With the intended mapping, a transaction is listed under a tab exactly when its label is that tab. */
  lemma IntendedTabsShowTheirLabel(tab: string, me: Option<string>, t: Tx)
    requires tab != "all"
    ensures ServerMatches(IntendedTabQuery(tab), t) && TabKeeps(tab, me)(t)
            <==> LabelKey(Classify(t, me)) == tab
  {
  }

  /** The sign in front of the amount. */
  datatype Sign = Minus | Plus

  /** Red `-` for money going out, green `+` otherwise. */
  function AmountSign(l: Label): (s: Sign)
    ensures s == Minus <==> l == Sent || l == Pending
  {
    if l == Sent || l == Pending then Minus else Plus
  }

  /** A row shows `-` exactly when it is a request (whoever its recipient) or another non-mint sent by the player. */
  lemma MinusIffRequestOrSent(t: Tx, me: Option<string>)
    ensures AmountSign(Classify(t, me)) == Minus <==>
      t.txType == TypeRequest || (t.txType != TypeDailyMint && SentByUser(t.from, me))
  {
  }

  /** The "Pending" badge follows the status alone, not the label. */
  predicate ShowsPendingBadge(t: Tx) {
    t.status == StatusPending
  }

  /** A pending badge sits on every row labelled pending, and also on pending rows of other types. */
  lemma PendingBadgeCoversPendingLabel(t: Tx, me: Option<string>)
    ensures Classify(t, me) == Pending ==> ShowsPendingBadge(t)
    ensures ShowsPendingBadge(t) && t.txType == TypeManual ==> Classify(t, me) != Pending
  {
  }
}
