# Chip-economy admin and player client: decision logic

This project models the decisions the chip-economy browser client makes by
itself, and proves properties of them in Dafny. Every balance rule (debit,
credit, approval, reversal, recovery, daily mint) lives on a backend that the
client only calls. What the client decides on its own:

- how a transaction is labelled for the signed-in player (claim, pending,
  sent, received). The history page and the dashboard card each have their
  own copy of this rule, and the copies differ;
- which query each history tab sends, and which rows it then keeps;
- the admin history's type filter, its search box, and which rows offer
  Accept/Reject or Reverse;
- the approve, reject and reverse flows, with their modal state and the
  `processing` guard;
- the daily-chips widget's 24-hour countdown and its `Xh Ym` display;
- the checks and request bodies of the two admin transfer forms, and which
  fields they reset;
- the recovery screen's guards, selections and per-action loading flags;
- the route guard's role check and the users table's search.

One module per component, one file each:

- `player_history.dfy` and `recent_transactions.dfy`: the two classifiers;
- `admin_history.dfy`: the admin history screen;
- `daily_claim.dfy`: both copies of the widget;
- `admin_transfer.dfy` and `transfer_modal.dfy`: the two transfer forms;
- `admin_recovery.dfy`: the recovery screen;
- `protected_route.dfy`: the route guard;
- `users_table.dfy`: the users table.

They share these helper modules:

- `transactions.dfy`: the transaction record and the sender test;
- `js_text.dfy`: JavaScript `trim`, `toLowerCase`, `includes` and `||` on strings;
- `seqs.dfy`: `Array.prototype.filter` and the subsequence relation it produces;
- `wrappers.dfy`: `Option`.

Pure code (classifiers, filters, mappings, guards) is written as functions
with contracts and lemmas. Component state that handlers update step by step
is written as a class whose methods state the whole new state. The classes
are `HistoryPage`, `Widget`, `TransferForm`, `Modal` and `RecoveryPage`.

Each awaited backend call is modelled as an `ApiResult` parameter: it
resolved, or it failed with a message. Each request a page sends is appended
to a `calls` or `sent` field. `handleApprove` is split at its `await` into
`BeginApprove` and `FinishApprove`, so that a second click while the first
approval is in flight can be stated.

The widget's interval firings and its two-second banner timeout are explicit
methods (`IntervalTick`, `HideSuccess`).

On the recovery screen only `handleRecoverChips` (confirm button,
`src/components/admin/AdminRecovery.jsx:505`) and `handleUnbanUser` (Unban
button, line 355) are wired to the markup. `handleVerifyUser` (line 93) and
`handleBanUser` (line 106) are defined but never called from this page; they
are modelled as written (`HandleVerifyUser`, `HandleBanUser`).

Both copies of the widget (`src/components/DailyChipsClaim.jsx` and
`src/components/player/DailyChipsClaim.jsx`) have the same logic on lines
6-43. They differ only in markup, so they are modelled once. Rows below cite
whichever copy the member's lines come from.

JavaScript details that are kept:

- The sender test uses strict equality with optional chaining. With no user
  id, `undefined === undefined` holds, so a null or bare-id sender counts as
  "sent" (`Transactions.SentWithoutUser`).
- `formatTime` uses JavaScript's truncating `%` and `Math.floor`. They are
  written out in `DailyClaim.JsRem` and `DailyClaim.FloorDiv`.
- The manual transfer form's amount check `parseFloat(amount) <= 0` is false
  for NaN. The model lets an amount through when it is non-empty but does not
  parse, as the code does. The input is `type="number"`, so a browser hands
  over either "" or a number.

## Model

| member | source | states |
|---|---|---|
| `JsText.TrimEmptyIffBlank` | src/components/admin/AdminHistory.jsx:99 | `!s.trim()` holds exactly when every character of `s` is ECMAScript whitespace |
| `JsText.TrimStart` | src/components/admin/AdminRecovery.jsx:66 | the leading-whitespace trim returns a suffix, all of whose dropped characters are whitespace and whose first kept character is not |
| `JsText.TrimEnd` | src/components/admin/AdminRecovery.jsx:66 | the trailing-whitespace trim returns a prefix, all of whose dropped characters are whitespace and whose last kept character is not |
| `JsText.ToLower` | src/components/admin/UsersTable.jsx:27 | lower-casing keeps the length and maps each character through the ASCII case mapping |
| `JsText.ToLowerIdempotent` | src/components/auth/ProtectedRoute.jsx:19-20 | lower-casing twice is lower-casing once, so comparing lower-cased values is an equivalence |
| `JsText.IncludesIffOccurs` | src/components/admin/UsersTable.jsx:27 | `includes` holds exactly when the needle occurs at some position of the text |
| `JsText.EmptyIncludesOnlyEmpty` | src/components/admin/AdminHistory.jsx:137-138 | the empty label includes only the empty query |
| `JsText.Or` | src/components/admin/AdminHistory.jsx:305 | `a \|\| b` on strings yields `a` unless it is empty, and is empty only when both are |
| `Seqs.Filter` | src/components/player/PlayerHistory.jsx:99-103 | `filter` returns no more elements than it was given, and an element is in the result exactly when it is in the input and satisfies the predicate |
| `Seqs.FilterIsSubsequence` | src/components/player/PlayerHistory.jsx:99-103 | the survivors of a filter keep their relative order |
| `Seqs.FilterKeepsAll` | src/components/admin/UsersTable.jsx:26-28 | a filter whose predicate holds everywhere returns its input unchanged |
| `Seqs.FilterMultiplicity` | src/components/player/PlayerHistory.jsx:99-103 | a filter keeps every copy of a satisfying element and no copy of any other |
| `Transactions.SentByLoggedInUser` | src/components/player/PlayerHistory.jsx:69 | with a signed-in user, the sender test holds exactly when the sender's populated `_id` or raw id equals the user's id |
| `Transactions.SentWithoutUser` | src/components/player/RecentTransactions.jsx:29 | with no user id, the sender test holds for every sender except a populated account that carries an `_id` |
| `Transactions.PartyLabel` | src/components/admin/AdminHistory.jsx:137-138 | the label of a populated account is its name when that is non-empty, else its e-mail; a null or bare-id party has the empty label; a non-empty label is always the name or the e-mail of a populated account |
| `Transactions.FailureMessage` | src/components/admin/AdminTransfer.jsx:63 | the error shown after a failed transfer is the error's message, or `Transfer failed` when that is empty |
| `Transactions.NonEmpty` | src/components/admin/AdminTransfer.jsx:51 | an optional text field is sent exactly when it is non-empty, and then verbatim |
| `PlayerHistory.LabelKey` | src/components/player/PlayerHistory.jsx:57-63 | every label's key is one of the four tab keys besides `all` |
| `PlayerHistory.LabelKeyInjective` | src/components/player/PlayerHistory.jsx:101-102 | distinct labels have distinct keys, so comparing a key with the tab compares labels |
| `PlayerHistory.Classify` | src/components/player/PlayerHistory.jsx:65-71 | claim exactly for `daily-mint`; pending exactly for a pending `request`; sent exactly for a non-pending `request` or another non-mint the user sent; received otherwise. The four labels are the only results |
| `PlayerHistory.DailyMintIsClaim` | src/components/player/PlayerHistory.jsx:66 | a `daily-mint` is a claim whatever its status and sender |
| `PlayerHistory.FilterByTab` | src/components/player/PlayerHistory.jsx:99-103 | tab `all` returns the list unchanged. Any tab returns an order-preserving subsequence holding exactly the rows whose label key equals the tab |
| `PlayerHistory.UnknownTabKeepsNothing` | src/components/player/PlayerHistory.jsx:99-103 | a tab key that is none of the five keeps no row |
| `PlayerHistory.TabKeepsEveryCopy` | src/components/player/PlayerHistory.jsx:99-103 | each row appears under its own label's tab as many times as in the fetched list |
| `PlayerHistory.TabQuery` | src/components/player/PlayerHistory.jsx:22-33 | `all` and unknown tabs send no type or status; `sent`→type=request, `received`→type=manual, `pending`→status=pending, `claim`→type=daily-mint. At most one of the two is set |
| `PlayerHistory.ShownUnderTab` | src/components/player/PlayerHistory.jsx:22-33 | after the backend's exact-match query and the page's label filter: `claim` lists daily mints, `pending` pending requests, `sent` non-pending requests, `received` manual transfers not sent by the user |
| `PlayerHistory.ManualDebitHiddenFromTabs` | src/components/player/PlayerHistory.jsx:22-33 | a manual transfer out of the player's account is labelled sent, yet no tab except `all` lists it (see Findings) |
| `PlayerHistory.IntendedTabQuery` | src/components/player/PlayerHistory.jsx:22-33 | the corrected mapping: only `claim` and `pending` send a parameter, and at most one of the two is set |
| `PlayerHistory.IntendedTabsShowTheirLabel` | src/components/player/PlayerHistory.jsx:99-103 | with the corrected mapping, every tab other than `all` lists a transaction exactly when its label is that tab |
| `PlayerHistory.AmountSign` | src/components/player/PlayerHistory.jsx:209-212 | the amount shows `-` exactly for the sent and pending labels |
| `PlayerHistory.MinusIffRequestOrSent` | src/components/player/PlayerHistory.jsx:209-212 | a row shows `-` exactly when it is a request (also one the player receives), or a non-mint sent by the user |
| `PlayerHistory.PendingBadgeCoversPendingLabel` | src/components/player/PlayerHistory.jsx:215 | every row labelled pending carries the Pending badge. The badge follows the status alone, so a pending manual row has it without the label |
| `RecentTransactions.Classify` | src/components/player/RecentTransactions.jsx:26-31 | never pending; claim exactly for `daily-mint`; sent exactly for a non-mint that is a request or was sent by the user |
| `RecentTransactions.AgreesWithHistory` | src/components/player/RecentTransactions.jsx:26-31 | the card's label equals the history page's label on every transaction except a pending request. The card calls that one sent, where the history page calls it pending |
| `RecentTransactions.AmountSign` | src/components/player/RecentTransactions.jsx:98-103 | the card shows `-` exactly for the sent label |
| `RecentTransactions.SignsAgreeWithHistory` | src/components/player/RecentTransactions.jsx:98-103 | the card and the history page put the same sign on every transaction |
| `AdminHistory.TypeParam` | src/components/admin/AdminHistory.jsx:29-31 | no type parameter exactly for `all`; `claim`→`daily-mint`; any other key is passed through. The CSV export (line 119) uses the same mapping |
| `AdminHistory.OfferedTabsPassThrough` | src/components/admin/AdminHistory.jsx:127-133 | on the five keys the page offers the mapping is the identity, and the `claim` case is never reached |
| `AdminHistory.SearchFilter` | src/components/admin/AdminHistory.jsx:135-140 | the empty query keeps the list unchanged. Any query returns an order-preserving subsequence holding exactly the rows whose lower-cased sender or recipient label contains the lower-cased query, each as many times as in the list |
| `AdminHistory.UnlabelledRowsOnlyMatchEmptyQuery` | src/components/admin/AdminHistory.jsx:135-140 | a row with no name or e-mail on either side is found only by the empty query |
| `AdminHistory.SearchIgnoresCase` | src/components/admin/AdminHistory.jsx:136-138 | lower-casing the query does not change which rows match |
| `AdminHistory.SenderColumn` | src/components/admin/AdminHistory.jsx:305 | the From column is never empty; it is the sender's name-or-email label when there is one, else `System` |
| `AdminHistory.RecipientColumn` | src/components/admin/AdminHistory.jsx:308 | the To column is never empty; it is the recipient's name-or-email label when there is one, else `N/A` |
| `AdminHistory.SystemColumnNotSearchable` | src/components/admin/AdminHistory.jsx:305 | a row that displays `System` is not found by searching "System": the search reads the label, not the column |
| `AdminHistory.ActionsExclusive` | src/components/admin/AdminHistory.jsx:337-359 | no row offers both Accept/Reject (pending request) and Reverse (approved manual transfer) |
| `AdminHistory.ApprovableIffPlayerSeesPending` | src/components/admin/AdminHistory.jsx:337 | a row offers Accept/Reject exactly when the player history labels it pending |
| `AdminHistory.RejectReasonSent` | src/components/admin/AdminHistory.jsx:86 | the rejection reason sent is never empty: the entered reason, or `No reason provided` when it is empty |
| `AdminHistory.ReversalReasonGiven` | src/components/admin/AdminHistory.jsx:99 | a reversal goes ahead exactly when its reason is not blank |
| `AdminHistory.HistoryPage.constructor` | src/components/admin/AdminHistory.jsx:9-19 | the page starts idle: nothing selected, both dialogs closed, both reasons empty, no request sent |
| `AdminHistory.HistoryPage.BeginApprove` | src/components/admin/AdminHistory.jsx:61-65 | while `processing` it sends nothing. Otherwise it sets `processing` and sends exactly one approve request for the row's id |
| `AdminHistory.HistoryPage.FinishApprove` | src/components/admin/AdminHistory.jsx:70-72 | `processing` is false once the approval settles, whether it succeeded or failed |
| `AdminHistory.DoubleApproveSendsOnce` | src/components/admin/AdminHistory.jsx:61-72 | two clicks on Accept before the first settles send exactly one approve request |
| `AdminHistory.HistoryPage.HandleReject` | src/components/admin/AdminHistory.jsx:75-78 | the clicked row becomes the selection and the reject dialog opens |
| `AdminHistory.HistoryPage.CancelReject` | src/components/admin/AdminHistory.jsx:428-432 | Cancel closes the reject dialog, clears its reason and the selection |
| `AdminHistory.HistoryPage.ConfirmReject` | src/components/admin/AdminHistory.jsx:80-96 | no selection: nothing is sent. Otherwise one reject request goes out with the entered reason or the default. Success closes the dialog and clears the selection and reason; failure changes nothing |
| `AdminHistory.HistoryPage.HandleReversal` | src/components/admin/AdminHistory.jsx:56-59 | the clicked row becomes the selection and the reversal dialog opens |
| `AdminHistory.HistoryPage.CancelReversal` | src/components/admin/AdminHistory.jsx:498-501 | Cancel closes the reversal dialog and clears its reason, but keeps the selected row |
| `AdminHistory.HistoryPage.ConfirmReversal` | src/components/admin/AdminHistory.jsx:98-114 | a blank reason or a missing row sends nothing and changes nothing. Otherwise one reverse request goes out with the untrimmed reason. Success closes the dialog and clears it; failure changes nothing |
| `DailyClaim.Claim` | src/components/player/DailyChipsClaim.jsx:27-29 | claiming sets the claimed state and leaves the clock as it was |
| `DailyClaim.Tick` | src/components/player/DailyChipsClaim.jsx:11-21 | unclaimed: no change. Claimed with time left: one second less, still claimed. Claimed at zero or below: unclaimed with 86,400 seconds |
| `DailyClaim.InvInitial` | src/components/DailyChipsClaim.jsx:6-8 | the widget starts inside its invariant (0 ≤ remaining ≤ 86,400, full whenever unclaimed) |
| `DailyClaim.InvClaim` | src/components/DailyChipsClaim.jsx:27-29 | claiming preserves the invariant |
| `DailyClaim.InvTick` | src/components/DailyChipsClaim.jsx:14-21 | one interval firing preserves the invariant |
| `DailyClaim.InvTicks` | src/components/DailyChipsClaim.jsx:11-25 | any number of interval firings preserves the invariant |
| `DailyClaim.CountsDown` | src/components/player/DailyChipsClaim.jsx:15-21 | a claimed clock at r reads r − k after k ≤ r firings and is still claimed |
| `DailyClaim.FullCycle` | src/components/player/DailyChipsClaim.jsx:15-21 | from a fresh claim, the first 86,400 firings keep the widget claimed, and the 86,401st returns it to its initial state |
| `DailyClaim.ClaimDisablesUntilReset` | src/components/DailyChipsClaim.jsx:60 | claiming disables the button; only the reset firing at zero enables it again |
| `DailyClaim.FloorDiv` | src/components/player/DailyChipsClaim.jsx:38 | `Math.floor(a / b)` is the q with b·q ≤ a < b·q + b |
| `DailyClaim.JsRem` | src/components/player/DailyChipsClaim.jsx:39 | JavaScript's `%` is the dividend minus the divisor times the quotient rounded toward zero; it keeps the sign of the dividend and stays below the divisor in size |
| `DailyClaim.TruncDiv` | src/components/player/DailyChipsClaim.jsx:39 | the quotient that JavaScript's `%` takes out is rounded toward zero: below the dividend for a non-negative one, above it for a negative one, by less than the divisor |
| `DailyClaim.FormatTime` | src/components/player/DailyChipsClaim.jsx:37-41 | for s ≥ 0: minutes in 0..59, hours ≥ 0, and 3600h + 60m ≤ s < 3600h + 60m + 60 |
| `DailyClaim.FormatWithinDay` | src/components/DailyChipsClaim.jsx:37-41 | inside the invariant the display is at most `24h 0m` |
| `DailyClaim.Widget.constructor` | src/components/player/DailyChipsClaim.jsx:6-8 | the widget mounts unclaimed, with 86,400 seconds and no banner |
| `DailyClaim.Widget.HandleClaim` | src/components/player/DailyChipsClaim.jsx:27-35 | claiming moves the state by `Claim`, keeps the invariant and shows the banner |
| `DailyClaim.Widget.HideSuccess` | src/components/player/DailyChipsClaim.jsx:32-34 | the timeout hides the banner |
| `DailyClaim.Widget.IntervalTick` | src/components/player/DailyChipsClaim.jsx:11-25 | a firing moves the state by `Tick` and keeps the invariant |
| `AdminTransfer.Validate` | src/components/admin/AdminTransfer.jsx:33-41 | a non-empty source equal to the recipient gets the same-user error first. Otherwise the fields error is raised exactly for a missing recipient, an empty amount or an amount ≤ 0. No other error exists |
| `AdminTransfer.AcceptedSubmission` | src/components/admin/AdminTransfer.jsx:33-41 | an accepted submission has a recipient, a non-empty amount, a source different from the recipient, and no parsed amount ≤ 0 |
| `AdminTransfer.SameUserReportedFirst` | src/components/admin/AdminTransfer.jsx:33-36 | same source and recipient is reported as such whatever the amount |
| `AdminTransfer.Payload` | src/components/admin/AdminTransfer.jsx:46-52 | the body is always type `manual` with the chosen recipient. `fromUserId` is omitted exactly for a system credit, `reason` exactly when empty, and the amount is the parsed one |
| `AdminTransfer.TransferForm.constructor` | src/components/admin/AdminTransfer.jsx:9-14 | the form starts with every field empty, no error and nothing sent |
| `AdminTransfer.TransferForm.Submit` | src/components/admin/AdminTransfer.jsx:29-70 | a refused submission sets its error, sends nothing and keeps the fields. An accepted one sends exactly its payload: on success the four fields are reset to "" and the error is empty; on failure the fields stay and the failure message is shown. `loading` is false afterwards |
| `TransferModal.FindOther` | src/components/admin/TransferModal.jsx:55 | `find` returns the first account whose `_id` differs from the given one, or nothing when all are equal to it |
| `TransferModal.Recipient` | src/components/admin/TransferModal.jsx:55 | a chosen recipient is a non-empty `_id` of a listed account; there is none only when the list is empty or its first entry has no `_id` |
| `TransferModal.RecipientIsFirstOther` | src/components/admin/TransferModal.jsx:55 | when all listed accounts carry an `_id` and one differs from the source, the recipient is one of the first such accounts and differs from the source |
| `TransferModal.RecipientFallsBackToFirst` | src/components/admin/TransferModal.jsx:55 | when every listed account is the source, the debit goes to the first listed account, the source itself |
| `TransferModal.Validate` | src/components/admin/TransferModal.jsx:31-40 | NaN or ≤ 0 gets the invalid-amount error. Otherwise the insufficient error is raised exactly for a `from` transfer above a known balance (missing = 0). The transfer goes ahead exactly when neither applies |
| `TransferModal.WholeBalanceAllowed` | src/components/admin/TransferModal.jsx:37-40 | a debit of exactly the balance passes, one chip more does not |
| `TransferModal.CreditIgnoresBalance` | src/components/admin/TransferModal.jsx:37 | a `to` transfer of a positive amount is never refused for the balance |
| `TransferModal.Payload` | src/components/admin/TransferModal.jsx:44-60 | type `manual`, the amount and the optional reason. `to`: the user is the recipient and there is no source. `from`: the user is the source and the recipient is `Recipient` |
| `TransferModal.Modal.constructor` | src/components/admin/TransferModal.jsx:7-13 | the dialog opens in the `to` direction, with empty fields and no error |
| `TransferModal.Modal.Submit` | src/components/admin/TransferModal.jsx:27-72 | a refused submission sets its error and sends nothing. An accepted one sends exactly its payload: success closes the dialog; failure keeps it open with the failure message. `loading` is false afterwards |
| `AdminRecovery.FindById` | src/components/admin/AdminRecovery.jsx:190-193 | the lookup yields the first listed account with that id, and nothing exactly when no account has it |
| `AdminRecovery.PlaceholderClearsSelection` | src/components/admin/AdminRecovery.jsx:200 | choosing the placeholder entry (value "") clears the selection |
| `AdminRecovery.RecoverGuard` | src/components/admin/AdminRecovery.jsx:60-69 | a missing selection is refused first. Otherwise the reason error is raised exactly for a blank reason. The call goes ahead exactly when both are selected and the reason is not blank |
| `AdminRecovery.RecoverEnabled` | src/components/admin/AdminRecovery.jsx:251 | the Recover button is enabled exactly when both users are selected, the reason is not blank and no recovery flag is set |
| `AdminRecovery.EnabledPassesGuard` | src/components/admin/AdminRecovery.jsx:251 | an enabled button always leads to a handler whose own guards pass |
| `AdminRecovery.BanGuard` | src/components/admin/AdminRecovery.jsx:106-110 | a ban goes ahead exactly when a reason is given and it is not blank |
| `AdminRecovery.RecoveryPage.constructor` | src/components/admin/AdminRecovery.jsx:22-32 | the page starts with no selection, an empty reason, the dialog closed, no flags and nothing sent |
| `AdminRecovery.RecoveryPage.SelectBanned` | src/components/admin/AdminRecovery.jsx:190-193 | the banned selection becomes the lookup of the chosen id in the banned list |
| `AdminRecovery.RecoveryPage.SelectVerified` | src/components/admin/AdminRecovery.jsx:214-216 | the verified selection becomes the lookup of the chosen id in the verified list |
| `AdminRecovery.RecoveryPage.ClickRecover` | src/components/admin/AdminRecovery.jsx:250-251 | a click opens the confirmation dialog exactly when the button is enabled |
| `AdminRecovery.RecoveryPage.CloseRecoveryDialog` | src/components/admin/AdminRecovery.jsx:476 | the dialog's `onOpenChange(false)` (Cancel at line 501, Escape) closes the dialog and changes nothing else |
| `AdminRecovery.RecoveryPage.HandleRecoverChips` | src/components/admin/AdminRecovery.jsx:60-91 | refused: nothing is sent and nothing changes. Accepted: one recovery call with both ids and the reason, and the flag map becomes exactly `{recover: false}`. Success clears both selections and the reason and closes the dialog; failure keeps them. These are the handler's own writes; the dialog component's own close is `CloseRecoveryDialog` |
| `AdminRecovery.RecoveryPage.HandleVerifyUser` | src/components/admin/AdminRecovery.jsx:93-104 | verify has no precondition. It sends one call and leaves the flag map as exactly `{verify-<id>: false}` |
| `AdminRecovery.RecoveryPage.HandleBanUser` | src/components/admin/AdminRecovery.jsx:106-123 | a missing or blank reason sends nothing. Otherwise one ban call, and the flag map becomes exactly `{ban-<id>: false}` |
| `AdminRecovery.RecoveryPage.HandleUnbanUser` | src/components/admin/AdminRecovery.jsx:125-137 | unban has no precondition. It sends one call and leaves the flag map as exactly `{unban-<id>: false}` |
| `AdminRecovery.UnbanDropsRecoverFlag` | src/components/admin/AdminRecovery.jsx:125-126 | each handler replaces the whole flag map, so an unban during a recovery re-enables the Recover button |
| `ProtectedRoute.Decide` | src/components/auth/ProtectedRoute.jsx:4-27 | loading shows the loading screen whoever is signed in. No user redirects to `/login`. Children are rendered exactly when not loading, a user exists and the lower-cased roles agree; every other case redirects |
| `ProtectedRoute.AdminCaseInsensitive` | src/components/auth/ProtectedRoute.jsx:19-22 | a stored role `Admin` passes a route requiring `admin` |
| `ProtectedRoute.RoleMatchIgnoresCase` | src/components/auth/ProtectedRoute.jsx:19-26 | with both roles present, access is granted exactly when they agree ignoring case |
| `ProtectedRoute.PlayerKeptOffAdminRoute` | src/components/auth/ProtectedRoute.jsx:22-24 | a player is redirected away from an admin route |
| `UsersTable.UsersOf` | src/components/admin/UsersTable.jsx:15 | a response that is not an array yields an empty user list; an array is taken as it is |
| `UsersTable.FilterUsers` | src/components/admin/UsersTable.jsx:26-28 | the empty query keeps every user. Any query returns an order-preserving subsequence holding exactly the users whose lower-cased name-or-email contains the lower-cased query, each as many times as in the list |
| `UsersTable.NameShadowsEmail` | src/components/admin/UsersTable.jsx:27 | a user who has a name is matched on the name alone, never on the e-mail |
| `UsersTable.NamelessUserOnlyForEmptyQuery` | src/components/admin/UsersTable.jsx:27 | a user with neither name nor e-mail is listed only for the empty query |

## Findings

| source | as written | input that shows it | evidently intended | confidence | as-written member | corrected member |
|---|---|---|---|---|---|---|
| src/components/player/PlayerHistory.jsx:22-33 | The `sent` tab asks the backend for `type=request` only, and the `received` tab for `type=manual` only. Each tab then keeps only its own label | a transaction `{type: 'manual', fromUserId: <player's id>}`, labelled sent on line 69, is returned under `received` but dropped there as sent, and is never returned under `sent`; it shows only under `all` (likewise a `recovery` or `reversal` credit is never listed under `received`) | every tab other than `all` lists exactly the transactions whose label is that tab, as `PlayerHistory.IntendedTabsShowTheirLabel` proves for the corrected mapping | medium (not executed; assumes the backend filters by exact type) | `PlayerHistory.ManualDebitHiddenFromTabs` | `PlayerHistory.IntendedTabQuery` |

## Left out

- Network client (`src/services/api.js`): fetch, headers and the tokens in `localStorage`. Each awaited call is a parameter of the handler that makes it, and each request is recorded as a value.
- The re-fetch that follows a successful action, and the lists it would reload, are not modelled: they are network I/O.
- Idempotency keys built from `Date.now()` and `Math.random()`: they are nondeterministic.
- CSV export's browser download: it is DOM I/O. Only its query parameter (`AdminHistory.TypeParam`) is modelled.
- The backend's ledger rules (balances, approval re-checks, reversal, recovery sweep, daily-mint cooldown): no code for them exists in the client. `PlayerHistory.ServerMatches` assumes that the backend filters by exact match on each query parameter.
- Date-range parameters and date/time formatting: they depend on the wall clock and locale `Date` APIs.
- `parseFloat`, `toLocaleString`, `toFixed` and `formatBalance`: amounts and balances enter as already-parsed `Option<real>` values, with None standing for NaN.
- The progress bar percentage (floating point) and the `${h}h ${m}m` text. `DailyClaim.FormatTime` returns the two numbers.
- JsText.ToLower: models `toLowerCase` on ASCII letters only; JavaScript lower-cases all of Unicode.
- AdminRecovery.RecoveryPage.HandleRecoverChips: the dialog component's close-on-action of its confirm button (line 504) is not modelled, because that component's code is not part of this model. The page after a confirm click is `HandleRecoverChips` followed by `CloseRecoveryDialog`.
- React state setters bound directly to inputs (the reason and amount inputs, the transfer form's user-id fields, `setTransferType` at `src/components/admin/TransferModal.jsx:112` and `:126`) are modelled as direct writes to the class fields. State updates take effect before the next event, so a setter's new value is what the next handler reads (`AdminHistory.DoubleApproveSendsOnce` and `AdminRecovery.UnbanDropsRecoverFlag` rely on this).
- HTML constraint validation of the forms is not modelled: the To User select's `required` (`src/components/admin/AdminTransfer.jsx:130`) and the amount inputs' `required min="1"` (`src/components/admin/AdminTransfer.jsx:152-153`, `src/components/admin/TransferModal.jsx:152-153`). The model covers what reaches `handleSubmit`, so `AdminTransfer.Validate` and `TransferModal.Validate` accept an amount such as 0.5 that a browser would stop first.
- Timers: `setInterval` and `setTimeout` are replaced by the explicit methods `Widget.IntervalTick` and `Widget.HideSuccess`.
- The intermediate `actionLoading` value `{key: true}` during a recovery, verify, ban or unban request is set and overwritten within one method, because the request is not split at its `await`. No method leaves the page in that state; `AdminRecovery.UnbanDropsRecoverFlag` writes `{recover: true}` into the page directly to state what happens during an in-flight recovery.
- The same holds for `loading` during a transfer submission.
- The success and error toasts: they are presentation.
- Rendering, layouts, icons, animation, the routing table, dashboards with fixed numbers, and the session handling of the auth context.
- `TransferRequestModal.jsx`: it only waits and shows a toast.
