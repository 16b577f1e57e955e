/**
 * The admin recovery screen: pick a banned account and a verified account,
 * give a reason, and sweep the banned account's chips across; plus the
 * verify, ban and unban actions and their per-action loading flags.
 */
module AdminRecovery {
  import opened Wrappers
  import opened JsText
  import opened Transactions

  /** An entry of the banned or verified list; only the id and e-mail are read here. */
  datatype Account = Account(id: string, email: string)

  /** `users.find(u => u.id === id) || null`, the lookup behind both select boxes. */
  function FindById(users: seq<Account>, id: string): (r: Option<Account>)
    ensures r.None? <==> forall j :: 0 <= j < |users| ==> users[j].id != id
    ensures r.Some? ==> r.value.id == id && r.value in users
    ensures r.Some? ==> exists i :: 0 <= i < |users| && users[i] == r.value
                                    && forall j :: 0 <= j < i ==> users[j].id != id
  {
    if users == [] then None
    else if users[0].id == id then Some(users[0])
    else
      var r := FindById(users[1..], id);
      if r.Some? then
        var i :| 0 <= i < |users[1..]| && users[1..][i] == r.value
                 && forall j :: 0 <= j < i ==> users[1..][j].id != id;
        assert users[i + 1] == r.value;
        r
      else r
  }

  /** The select box's "Select ..." entry has value "", which no listed id matches when ids are non-empty. */
  lemma PlaceholderClearsSelection(users: seq<Account>)
    requires forall j :: 0 <= j < |users| ==> users[j].id != ""
    ensures FindById(users, "") == None
  {
  }

  /** Reading `flags[key]`: an absent key is undefined, which is falsy. */
  predicate Flag(flags: map<string, bool>, key: string) {
    key in flags && flags[key]
  }

  const RecoverKey := "recover"

  function VerifyKey(userId: string): string { "verify-" + userId }
  function BanKey(userId: string): string { "ban-" + userId }
  function UnbanKey(userId: string): string { "unban-" + userId }

  const SelectBothError := "Please select both a banned user and a verified user"
  const RecoveryReasonError := "Please provide a reason for the recovery"
  const BanReasonError := "Please provide a ban reason"

  /**
   * The guards of `handleRecoverChips`, in order: the error toast, or None when the call goes ahead.
   * The reason test `!reason.trim()` is written as `IsBlank(reason)`, which `TrimEmptyIffBlank`
   * shows to be the same condition.
   */
  function RecoverGuard(banned: Option<Account>, verified: Option<Account>, reason: string): (r: Option<string>)
    ensures banned.None? || verified.None? ==> r == Some(SelectBothError)
    ensures banned.Some? && verified.Some? ==> (r == Some(RecoveryReasonError) <==> IsBlank(reason))
    ensures r.None? <==> banned.Some? && verified.Some? && !IsBlank(reason)
  {
    if banned.None? || verified.None? then Some(SelectBothError)
    else if IsBlank(reason) then Some(RecoveryReasonError)
    else None
  }

  /** The "Recover Chips" button's enable condition. */
  predicate RecoverEnabled(banned: Option<Account>, verified: Option<Account>, reason: string, flags: map<string, bool>)
    ensures RecoverEnabled(banned, verified, reason, flags) <==>
      banned.Some? && verified.Some? && !IsBlank(reason) && !Flag(flags, RecoverKey)
  {
    TrimEmptyIffBlank(reason);
    banned.Some? && verified.Some? && Trim(reason) != "" && !Flag(flags, RecoverKey)
  }

  /** Whenever the button is enabled, the handler behind its dialog passes its own guards. */
  lemma EnabledPassesGuard(banned: Option<Account>, verified: Option<Account>, reason: string, flags: map<string, bool>)
    requires RecoverEnabled(banned, verified, reason, flags)
    ensures RecoverGuard(banned, verified, reason).None?
  {
  }

  /** The guard of `handleBanUser`: a missing or blank reason stops the ban. */
  function BanGuard(reason: Option<string>): (r: Option<string>)
    ensures r.None? <==> reason.Some? && !IsBlank(reason.value)
    ensures r.Some? ==> r.value == BanReasonError
  {
    if reason.None? then Some(BanReasonError)
    else
      TrimEmptyIffBlank(reason.value);
      if Trim(reason.value) == "" then Some(BanReasonError) else None
  }

  /** The requests the page sends to the backend. */
  datatype RecoveryCall =
    | Recover(bannedId: string, verifiedId: string, reason: string)
    | Verify(userId: string)
    | Ban(userId: string, reason: string)
    | Unban(userId: string)

  /** The page's state; `calls` records every backend request, oldest first. */
  class RecoveryPage {
    var bannedUsers: seq<Account>
    var verifiedUsers: seq<Account>
    var selectedBanned: Option<Account>
    var selectedVerified: Option<Account>
    var recoveryReason: string
    var showRecoveryDialog: bool
    var actionLoading: map<string, bool>
    var calls: seq<RecoveryCall>

    constructor (bannedUsers: seq<Account>, verifiedUsers: seq<Account>)
      ensures this.bannedUsers == bannedUsers && this.verifiedUsers == verifiedUsers
      ensures selectedBanned == None && selectedVerified == None
      ensures recoveryReason == "" && !showRecoveryDialog
      ensures actionLoading == map[] && calls == []
    {
      this.bannedUsers := bannedUsers;
      this.verifiedUsers := verifiedUsers;
      selectedBanned, selectedVerified := None, None;
      recoveryReason, showRecoveryDialog := "", false;
      actionLoading := map[];
      calls := [];
    }

    /** The banned-user select box's `onChange`. */
    method SelectBanned(id: string)
      modifies this`selectedBanned
      ensures selectedBanned == FindById(bannedUsers, id)
    {
      selectedBanned := FindById(bannedUsers, id);
    }

    /** The verified-user select box's `onChange`. */
    method SelectVerified(id: string)
      modifies this`selectedVerified
      ensures selectedVerified == FindById(verifiedUsers, id)
    {
      selectedVerified := FindById(verifiedUsers, id);
    }

    /** A click on "Recover Chips": it opens the confirmation dialog, and does nothing while disabled. */
    method ClickRecover()
      modifies this`showRecoveryDialog
      ensures showRecoveryDialog ==
        (old(showRecoveryDialog) || RecoverEnabled(selectedBanned, selectedVerified, recoveryReason, actionLoading))
    {
      if RecoverEnabled(selectedBanned, selectedVerified, recoveryReason, actionLoading) {
        showRecoveryDialog := true;
      }
    }

    /**
     * The dialog's `onOpenChange(false)`: its Cancel button, Escape or a click
     * outside closes it and leaves everything else as it was.
     */
    method CloseRecoveryDialog()
      modifies this`showRecoveryDialog
      ensures !showRecoveryDialog
    {
      showRecoveryDialog := false;
    }

    /** `handleRecoverChips`, with the backend's answer as `result`. */
    method HandleRecoverChips(result: ApiResult)
      modifies this`selectedBanned, this`selectedVerified, this`recoveryReason,
               this`showRecoveryDialog, this`actionLoading, this`calls
      ensures RecoverGuard(old(selectedBanned), old(selectedVerified), old(recoveryReason)).Some? ==>
        && calls == old(calls) && actionLoading == old(actionLoading)
        && selectedBanned == old(selectedBanned) && selectedVerified == old(selectedVerified)
        && recoveryReason == old(recoveryReason) && showRecoveryDialog == old(showRecoveryDialog)
      ensures RecoverGuard(old(selectedBanned), old(selectedVerified), old(recoveryReason)).None? ==>
        && calls == old(calls) + [Recover(old(selectedBanned).value.id, old(selectedVerified).value.id, old(recoveryReason))]
        && actionLoading == map[RecoverKey := false]
      ensures RecoverGuard(old(selectedBanned), old(selectedVerified), old(recoveryReason)).None? && result.Succeeded? ==>
        selectedBanned == None && selectedVerified == None && recoveryReason == "" && !showRecoveryDialog
      ensures result.Failed? ==>
        && selectedBanned == old(selectedBanned) && selectedVerified == old(selectedVerified)
        && recoveryReason == old(recoveryReason) && showRecoveryDialog == old(showRecoveryDialog)
    {
      var refusal := RecoverGuard(selectedBanned, selectedVerified, recoveryReason);
      if refusal.Some? {
        return;
      }
      var request := Recover(selectedBanned.value.id, selectedVerified.value.id, recoveryReason);
      actionLoading := map[RecoverKey := true];
      calls := calls + [request];
      if result.Succeeded? {
        showRecoveryDialog, selectedBanned, selectedVerified, recoveryReason := false, None, None, "";
      }
      actionLoading := map[RecoverKey := false];
    }

    /**
     * `handleVerifyUser`. The backend's answer only picks the toast, so it is
     * not a parameter here (nor of ban and unban).
     */
    method HandleVerifyUser(userId: string)
      modifies this`actionLoading, this`calls
      ensures calls == old(calls) + [Verify(userId)]
      ensures actionLoading == map[VerifyKey(userId) := false]
    {
      actionLoading := map[VerifyKey(userId) := true];
      calls := calls + [Verify(userId)];
      actionLoading := map[VerifyKey(userId) := false];
    }

    /** `handleBanUser`: refused without a reason that is not blank. */
    method HandleBanUser(userId: string, reason: Option<string>)
      modifies this`actionLoading, this`calls
      ensures BanGuard(reason).Some? ==> calls == old(calls) && actionLoading == old(actionLoading)
      ensures BanGuard(reason).None? ==>
        calls == old(calls) + [Ban(userId, reason.value)] && actionLoading == map[BanKey(userId) := false]
    {
      if BanGuard(reason).Some? {
        return;
      }
      actionLoading := map[BanKey(userId) := true];
      calls := calls + [Ban(userId, reason.value)];
      actionLoading := map[BanKey(userId) := false];
    }

    /** `handleUnbanUser`: no precondition on the user. */
    method HandleUnbanUser(userId: string)
      modifies this`actionLoading, this`calls
      ensures calls == old(calls) + [Unban(userId)]
      ensures actionLoading == map[UnbanKey(userId) := false]
    {
      actionLoading := map[UnbanKey(userId) := true];
      calls := calls + [Unban(userId)];
      actionLoading := map[UnbanKey(userId) := false];
    }
  }

  /**
   * Each handler replaces the whole flag map: unbanning one user while a
   * recovery is in flight drops the recovery's flag, re-enabling its button.
   * `HandleRecoverChips` is not split at its `await`, so the in-flight map
   * `{recover: true}` is written into the page directly here.
   */
  method UnbanDropsRecoverFlag(banned: Account, verified: Account, reason: string, userId: string)
    returns (before: bool, after: bool)
    requires !IsBlank(reason)
    ensures !before && after
  {
    var page := new RecoveryPage([banned], [verified]);
    page.selectedBanned, page.selectedVerified := Some(banned), Some(verified);
    page.recoveryReason := reason;
    page.actionLoading := map[RecoverKey := true];
    before := RecoverEnabled(page.selectedBanned, page.selectedVerified, page.recoveryReason, page.actionLoading);
    page.HandleUnbanUser(userId);
    after := RecoverEnabled(page.selectedBanned, page.selectedVerified, page.recoveryReason, page.actionLoading);
  }
}
