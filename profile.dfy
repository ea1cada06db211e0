/** The profile page (src/app/profile/page.js): the password change with its
    ordered checks, and the settings save that validates the currency and
    writes the balance together with the instant it was set. */
module Profile {

  import opened Options
  import opened Ledger
  import opened Text
  import Dashboard

  // ---------------------------------------------------------------------
  // Password change
  // ---------------------------------------------------------------------

  const MinPasswordLength := 6
  const TooShortMessage := "Password too short (min 6 chars)"
  const MismatchMessage := "Passwords do not match"
  const PasswordUpdatedMessage := "Password updated successfully!"

  /** The first check a new password fails, if any: the length check comes
      before the match check. */
  function PasswordProblem(newPassword: string, confirmation: string): (problem: Option<string>)
    ensures problem.None? <==> |newPassword| >= MinPasswordLength && newPassword == confirmation
    ensures |newPassword| < MinPasswordLength ==> problem == Some(TooShortMessage)
    ensures |newPassword| >= MinPasswordLength && newPassword != confirmation ==> problem == Some(MismatchMessage)
  {
    if |newPassword| < MinPasswordLength then Some(TooShortMessage)
    else if newPassword != confirmation then Some(MismatchMessage)
    else None
  }

  /** A short pair that also differs is reported as too short. */
  lemma LengthReportedFirst(newPassword: string, confirmation: string)
    requires |newPassword| < MinPasswordLength && newPassword != confirmation
    ensures PasswordProblem(newPassword, confirmation) == Some(TooShortMessage)
  {
  }

  /** The password form's fields and the message the page shows. */
  class PasswordForm {
    var newPassword: string
    var confirmation: string
    var msg: Option<Notice>

    constructor ()
      ensures newPassword == "" && confirmation == "" && msg == None
    {
      newPassword := "";
      confirmation := "";
      msg := None;
    }

    /** `handlePasswordUpdate`: a failed check only sets its message; a
        password that passes both is sent to the auth service, whose answer
        is `updateError`. Only a successful update clears both fields. */
    method HandlePasswordUpdate(updateError: Option<string>) returns (sent: Option<string>)
      modifies this
      ensures sent.Some? <==> PasswordProblem(old(newPassword), old(confirmation)).None?
      ensures sent.Some? ==> sent.value == old(newPassword) && |sent.value| >= MinPasswordLength
      ensures sent.None? ==>
        msg == Some(Notice(Error, PasswordProblem(old(newPassword), old(confirmation)).value))
        && newPassword == old(newPassword) && confirmation == old(confirmation)
      ensures sent.Some? && updateError.Some? ==>
        msg == Some(Notice(Error, updateError.value))
        && newPassword == old(newPassword) && confirmation == old(confirmation)
      ensures sent.Some? && updateError.None? ==>
        msg == Some(Notice(Success, PasswordUpdatedMessage)) && newPassword == "" && confirmation == ""
    {
      msg := None;
      var problem := PasswordProblem(newPassword, confirmation);
      if problem.Some? {
        msg := Some(Notice(Error, problem.value));
        sent := None;
        return;
      }
      sent := Some(newPassword);
      if updateError.Some? {
        msg := Some(Notice(Error, updateError.value));
      } else {
        msg := Some(Notice(Success, PasswordUpdatedMessage));
        newPassword, confirmation := "", "";
      }
    }
  }

  // ---------------------------------------------------------------------
  // Settings save
  // ---------------------------------------------------------------------

  const BlankCurrencyMessage := "Currency symbol cannot be empty"
  const SettingsSavedMessage := "Profile settings updated successfully!"

  /** The profile row the save upserts. */
  datatype ProfileRecord = ProfileRecord(id: string, currency: string, initialBalance: int, balanceUpdatedAt: int)

  /** What a save leads to: the row written (if any), the message set (None
      when it is left as it was), and the currency pushed to the rest of the
      application (if any). */
  datatype SaveOutcome = SaveOutcome(write: Option<ProfileRecord>, msg: Option<Notice>, globalCurrency: Option<string>)

  /** `parseFloat(initialBalance) || 0`: an unreadable balance is stored as 0. */
  function StoredBalance(balanceInput: string): (b: int)
    ensures AllWhitespace(balanceInput) ==> b == 0
    ensures ParseNumber(balanceInput).None? ==> b == 0
    ensures ParseNumber(balanceInput).Some? ==> b == ParseNumber(balanceInput).value
  {
    ParseNumber(balanceInput).GetOr(0)
  }

  /** `handleSaveSettings`, with the signed-in user's id (if any), the two
      inputs, the clock's reading `now` and the upsert's answer. */
  function HandleSaveSettings(user: Option<string>, currency: string, balanceInput: string, now: int,
                              upsertError: Option<string>): (r: SaveOutcome)
    ensures user.None? ==> r == SaveOutcome(None, None, None)
    ensures r.write.Some? <==> user.Some? && !AllWhitespace(currency)
    ensures user.Some? && AllWhitespace(currency) ==>
      r.msg == Some(Notice(Error, BlankCurrencyMessage)) && r.globalCurrency == None
    ensures r.write.Some? ==>
      && r.write.value.id == user.value
      && r.write.value.currency == Trim(currency) && r.write.value.currency != ""
      && r.write.value.initialBalance == StoredBalance(balanceInput)
      && r.write.value.balanceUpdatedAt == now
    ensures r.write.Some? && upsertError.Some? ==>
      r.msg == Some(Notice(Error, upsertError.value)) && r.globalCurrency == None
    ensures r.write.Some? && upsertError.None? ==>
      r.msg == Some(Notice(Success, SettingsSavedMessage)) && r.globalCurrency == Some(r.write.value.currency)
  {
    match user
    case None => SaveOutcome(None, None, None)
    case Some(id) =>
      if Trim(currency) == "" then SaveOutcome(None, Some(Notice(Error, BlankCurrencyMessage)), None)
      else
        var record := ProfileRecord(id, Trim(currency), StoredBalance(balanceInput), now);
        match upsertError
        case Some(m) => SaveOutcome(Some(record), Some(Notice(Error, m)), None)
        case None => SaveOutcome(Some(record), Some(Notice(Success, SettingsSavedMessage)), Some(record.currency))
  }

  /** The currency written is already trimmed: saving it again writes the
      same symbol. */
  lemma CurrencySavedTrimmed(user: string, currency: string, balanceInput: string, now: int, later: int,
                             upsertError: Option<string>)
    requires HandleSaveSettings(Some(user), currency, balanceInput, now, upsertError).write.Some?
    ensures var saved := HandleSaveSettings(Some(user), currency, balanceInput, now, upsertError).write.value.currency;
            HandleSaveSettings(Some(user), saved, balanceInput, later, upsertError).write.value.currency == saved
  {
    TrimIdempotent(currency);
  }

  /** The balance field as the page fills it from the stored profile:
      `if (data.initial_balance)` leaves it empty for a missing or zero
      balance. */
  function PrefillBalance(stored: Option<int>): (input: string)
    ensures stored.Some? && stored.value != 0 ==> input == Show(stored.value)
    ensures !(stored.Some? && stored.value != 0) ==> input == ""
  {
    if stored.Some? && stored.value != 0 then Show(stored.value) else ""
  }

  /** Saving the settings without touching the balance field stores the
      balance that was loaded (a missing one as 0). */
  lemma ResaveKeepsBalance(stored: Option<int>)
    ensures StoredBalance(PrefillBalance(stored)) == stored.GetOr(0)
  {
    if stored.Some? && stored.value != 0 {
      ParseShow(stored.value);
    }
  }

  lemma {:induction false} NothingAfterLatest(ts: seq<LedgerRow>, now: int)
    requires forall i :: 0 <= i < |ts| ==> ts[i].createdAt <= now
    ensures Dashboard.After(ts, now) == []
  {
    if ts != [] {
      NothingAfterLatest(ts[..|ts| - 1], now);
    }
  }

  /** The save stamps the balance with the clock's reading `now`. Assuming
      every existing row was created at or before that reading, the
      dashboard's bank balance right after the save is exactly the balance
      entered. */
  lemma SavedBalanceIsLiveBalance(user: string, currency: string, balanceInput: string, now: int,
                                  upsertError: Option<string>, ts: seq<LedgerRow>)
    requires !AllWhitespace(currency)
    requires forall i :: 0 <= i < |ts| ==> ts[i].createdAt <= now
    ensures var w := HandleSaveSettings(Some(user), currency, balanceInput, now, upsertError).write.value;
            Dashboard.LiveBalance(w.initialBalance, ts, Some(w.balanceUpdatedAt)) == StoredBalance(balanceInput)
  {
    var b := StoredBalance(balanceInput);
    Dashboard.EarlierRowsIgnored(b, ts, now);
    NothingAfterLatest(ts, now);
  }
}
