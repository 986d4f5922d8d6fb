/** The helpers of the accounts page: the balance input, the create, edit and
    update handlers, and the currency chosen when the create form opens. */
module HomePage {
  import opened Common
  import opened Text
  import opened Forms
  import Accounts
  import Collections

  // ----- balance input -----

  /** The balance field's `onChange`: non-digits are dropped; no digits left
      sets 0; a leading zero in front of more digits is refused and the
      balance stays; otherwise the balance becomes the number. */
  function BalanceInput(typed: string, balance: nat): (next: nat)
    ensures DigitsOnly(typed) == "" ==> next == 0
    ensures |DigitsOnly(typed)| > 1 && DigitsOnly(typed)[0] == '0' ==> next == balance
    ensures Canonical(DigitsOnly(typed)) ==> next == DigitsValue(DigitsOnly(typed))
  {
    var raw := DigitsOnly(typed);
    if raw == "" then 0
    else if |raw| > 1 && StartsWith(raw, "0") then balance
    else DigitsValue(raw)
  }

  /** Whenever the input is taken, the number's decimal form is exactly the
      digits typed: nothing is lost and no leading zero is dropped. */
  lemma BalanceInputExact(typed: string, balance: nat)
    requires Canonical(DigitsOnly(typed))
    ensures NatToString(BalanceInput(typed, balance)) == DigitsOnly(typed)
  {
    CanonicalRoundTrip(DigitsOnly(typed));
  }

  /** Typing a number's own decimal form sets the balance to that number. */
  lemma BalanceInputOfNumber(n: nat, balance: nat)
    ensures BalanceInput(NatToString(n), balance) == n
  {
    NatToStringCanonical(n);
    NatToStringRoundTrip(n);
  }

  // ----- create -----

  datatype CreateForm = CreateForm(accountName: string, accountBalance: nat, selectedCurrencyId: int)
  datatype CreateAccountDto = CreateAccountDto(name: string, balance: nat, currencyId: int, isDefault: bool)

  /** The second guard of `handleCreateAccount`: the balance's decimal form
      starts with "0" and the balance is not 0. `LeadingZeroGuardNeverFires`
      states what it means: it never holds. */
  predicate LeadingZeroBalance(balance: nat) {
    StartsWith(IntToString(balance), "0") && balance != 0
  }

  /** That guard never fires: a positive whole number is never written with a
      leading zero. */
  lemma LeadingZeroGuardNeverFires(balance: nat)
    ensures !LeadingZeroBalance(balance)
  {
    if balance != 0 {
      PositiveHasNoLeadingZero(balance);
    }
  }

  /** `handleCreateAccount`: nothing for a blank name; otherwise the name as
      typed, the balance, the selected currency and `isDefault: false` are
      sent, and the name and balance are cleared whatever the reply. */
  function HandleCreateAccount(form: CreateForm): (r: Step<CreateAccountDto, CreateForm>)
    ensures r.Ignored? <==> IsBlank(form.accountName)
    ensures r.Submitted? ==>
              r.dto == CreateAccountDto(form.accountName, form.accountBalance, form.selectedCurrencyId, false)
    ensures r.Submitted? ==> r.after == form.(accountName := "", accountBalance := 0)
  {
    LeadingZeroGuardNeverFires(form.accountBalance);
    if Trim(form.accountName) == "" then Ignored
    else if LeadingZeroBalance(form.accountBalance) then Ignored
    else Submitted(CreateAccountDto(form.accountName, form.accountBalance, form.selectedCurrencyId, false),
                   form.(accountName := "", accountBalance := 0))
  }

  /** `openModal`: after a fulfilled `getCurrency` the first currency is
      selected, or id 1 when the list is empty; a rejection changes nothing. */
  function OpenModal(settled: Settled<seq<Named>>, currencies: seq<Named>, selectedCurrencyId: int): (r: (seq<Named>, int))
    ensures settled.Rejected? ==> r == (currencies, selectedCurrencyId)
    ensures settled.Fulfilled? ==> r.0 == settled.payload
    ensures settled.Fulfilled? && |settled.payload| > 0 ==> r.1 == settled.payload[0].id
    ensures settled.Fulfilled? && |settled.payload| == 0 ==> r.1 == 1
  {
    if settled.Rejected? then (currencies, selectedCurrencyId)
    else (settled.payload, if |settled.payload| > 0 then settled.payload[0].id else 1)
  }

  // ----- edit -----

  datatype EditData = EditData(id: string, name: string)

  /** `handleEdit(id)`: the edit form gets the id and the name of the first
      account with that id, and is left as it was when there is none; the
      menu closes either way (the second component is `openMenuId`). */
  function HandleEdit(accounts: seq<Accounts.Account>, id: string, editData: Option<EditData>): (r: (Option<EditData>, Option<string>))
    ensures r.1 == None
    ensures (forall j :: 0 <= j < |accounts| ==> accounts[j].id != id) ==> r.0 == editData
    ensures forall j :: 0 <= j < |accounts| && accounts[j].id == id && (forall m :: 0 <= m < j ==> accounts[m].id != id) ==>
              r.0 == Some(EditData(id, accounts[j].name))
  {
    var idx := Collections.IndexOfKey(accounts, Accounts.AccountId, id);
    if idx == -1 then (editData, None) else (Some(EditData(id, accounts[idx].name)), None)
  }

  datatype EditAccountDto = EditAccountDto(id: string, name: string, isDefault: bool)

  /** `handleUpdateAccount`: nothing without edit data or with a blank name;
      otherwise the edit is sent with `isDefault: false` and the edit data is
      cleared. */
  function HandleUpdateAccount(editData: Option<EditData>): (r: Step<EditAccountDto, Option<EditData>>)
    ensures r.Ignored? <==> editData.None? || IsBlank(editData.value.name)
    ensures r.Submitted? ==> r.dto == EditAccountDto(editData.value.id, editData.value.name, false) && r.after == None
  {
    if editData.None? then Ignored
    else
      if Trim(editData.value.name) == "" then Ignored
      else Submitted(EditAccountDto(editData.value.id, editData.value.name, false), None)
  }
}
