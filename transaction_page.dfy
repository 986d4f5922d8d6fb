/** The helpers of the transactions page: amount parsing, description
    truncation, the income/expense totals and balance, and the guards and
    form mappings in front of the add, delete and filter thunks. */
module TransactionPage {
  import opened Common
  import opened Text
  import opened Query
  import opened Transactions
  import opened Forms
  import Collections

  // ----- amount input -----

  /** `parseNumberInput`: `Number(str.replace(/\D/g, ""))`. */
  function ParseNumberInput(s: string): (n: nat)
    ensures DigitsOnly(s) == "" ==> n == 0
    ensures AllDigits(s) && s != "" ==> n == DigitsValue(s)
  {
    DigitsValue(DigitsOnly(s))
  }

  /** Parsing a number's decimal form gives the number back. */
  lemma ParseNumberInputRoundTrip(n: nat)
    ensures ParseNumberInput(NatToString(n)) == n
  {
    NatToStringRoundTrip(n);
  }

  /** Characters other than digits are ignored wherever they stand. */
  lemma {:induction false} ParseIgnoresNonDigits(a: string, junk: string, b: string)
    requires forall i :: 0 <= i < |junk| ==> !IsDigit(junk[i])
    ensures ParseNumberInput(a + junk + b) == ParseNumberInput(a + b)
  {
    DigitsOnlyAppend(a + junk, b);
    DigitsOnlyAppend(a, junk);
    DigitsOnlyAppend(a, b);
    NoDigits(junk);
    calc {
      DigitsOnly(a + junk + b);
      DigitsOnly(a + junk) + DigitsOnly(b);
      DigitsOnly(a) + DigitsOnly(junk) + DigitsOnly(b);
      { assert DigitsOnly(a) + DigitsOnly(junk) == DigitsOnly(a); }
      DigitsOnly(a) + DigitsOnly(b);
      DigitsOnly(a + b);
    }
  }

  lemma {:induction false} DigitsOnlyAppend(a: string, b: string)
    ensures DigitsOnly(a + b) == DigitsOnly(a) + DigitsOnly(b)
  {
    if a == [] {
      assert a + b == b;
    } else {
      assert (a + b)[0] == a[0] && (a + b)[1..] == a[1..] + b;
      DigitsOnlyAppend(a[1..], b);
    }
  }

  lemma {:induction false} NoDigits(s: string)
    requires forall i :: 0 <= i < |s| ==> !IsDigit(s[i])
    ensures DigitsOnly(s) == ""
  {
    if s != [] {
      NoDigits(s[1..]);
    }
  }

  // ----- description -----

  const DescriptionLength := 20

  /** `truncateDescription(d, maxLength)`: at most `maxLength` characters are
      kept, followed by "..." when anything was cut. */
  function Truncate(description: string, maxLength: nat): (r: string)
    ensures |description| <= maxLength ==> r == description
    ensures |description| > maxLength ==> |r| == maxLength + 3 && r[..maxLength] == description[..maxLength]
    ensures |description| > maxLength ==> r[maxLength..] == "..."
  {
    if |description| <= maxLength then description else description[..maxLength] + "..."
  }

  /** Truncating a truncated description changes nothing. */
  lemma TruncateIdempotent(description: string, maxLength: nat)
    ensures Truncate(Truncate(description, maxLength), maxLength) == Truncate(description, maxLength)
  {
    if |description| > maxLength {
      var r := Truncate(description, maxLength);
      assert r[..maxLength] + "..." == r;
    }
  }

  // ----- totals -----

  const IncomeTypeId := 1
  const ExpenseTypeId := 2

  /** `t.type?.id === typeId`: a transaction without a type matches no id. */
  function HasType(t: Transaction, typeId: int): (matches: bool)
    ensures t.txType.None? ==> !matches
    ensures t.txType.Some? ==> (matches <==> t.txType.value.id == typeId)
  {
    t.txType.Some? && t.txType.value.id == typeId
  }

  /** `transactions.filter(t => t.type?.id === typeId)` */
  function OfType(ts: seq<Transaction>, typeId: int): (r: seq<Transaction>)
    ensures |r| <= |ts|
    ensures forall j :: 0 <= j < |r| ==> HasType(r[j], typeId) && r[j] in ts
    ensures forall j :: 0 <= j < |ts| && HasType(ts[j], typeId) ==> ts[j] in r
  {
    if ts == [] then []
    else
      assert ts == [ts[0]] + ts[1..];
      (if HasType(ts[0], typeId) then [ts[0]] else []) + OfType(ts[1..], typeId)
  }

  /** `.reduce((sum, t) => sum + (t.amount ?? 0), 0)`: a missing amount counts as 0. */
  function SumAmounts(ts: seq<Transaction>): (sum: int)
    ensures (forall j :: 0 <= j < |ts| ==> ts[j].amount.GetOr(0) == 0) ==> sum == 0
    ensures (forall j :: 0 <= j < |ts| ==> ts[j].amount.GetOr(0) >= 0) ==> sum >= 0
  {
    if ts == [] then 0 else SumAmounts(ts[..|ts| - 1]) + ts[|ts| - 1].amount.GetOr(0)
  }

  /** `totalIncome` and `totalExpense`: 0 when no transaction has the type,
      and never negative when no amount is. */
  function Total(ts: seq<Transaction>, typeId: int): (total: int)
    ensures (forall j :: 0 <= j < |ts| ==> !HasType(ts[j], typeId)) ==> total == 0
    ensures (forall j :: 0 <= j < |ts| ==> ts[j].amount.GetOr(0) >= 0) ==> total >= 0
  {
    var kept := OfType(ts, typeId);
    assert forall j :: 0 <= j < |kept| ==> exists m :: 0 <= m < |ts| && ts[m] == kept[j];
    SumAmounts(kept)
  }

  /** The kept transactions stay in the order of the list. */
  lemma {:induction false} OfTypeKeepsOrder(ts: seq<Transaction>, typeId: int)
    ensures Collections.IsSubseq(OfType(ts, typeId), ts)
  {
    if ts != [] {
      OfTypeKeepsOrder(ts[1..], typeId);
      var rest := OfType(ts[1..], typeId);
      var r := OfType(ts, typeId);
      if HasType(ts[0], typeId) {
        assert r == [ts[0]] + rest;
        assert r[0] == ts[0] && r[1..] == rest;
      } else {
        assert r == rest;
      }
    }
  }

  /** What one transaction does to the balance: an income adds its amount, an
      expense subtracts it, and any other type leaves the balance. */
  function SignedAmount(t: Transaction): int {
    if HasType(t, IncomeTypeId) then t.amount.GetOr(0)
    else if HasType(t, ExpenseTypeId) then -t.amount.GetOr(0)
    else 0
  }

  /** The balance counted transaction by transaction. */
  function SignedSum(ts: seq<Transaction>): int {
    if ts == [] then 0 else SignedAmount(ts[0]) + SignedSum(ts[1..])
  }

  /** `balance = totalIncome - totalExpense`: every transaction's signed amount, added up. */
  function Balance(ts: seq<Transaction>): (b: int)
    ensures b == SignedSum(ts)
  {
    TotalsAreSignedSum(ts);
    Total(ts, IncomeTypeId) - Total(ts, ExpenseTypeId)
  }

  /** The two totals, subtracted, count each transaction once with its sign. */
  lemma {:induction false} TotalsAreSignedSum(ts: seq<Transaction>)
    ensures Total(ts, IncomeTypeId) - Total(ts, ExpenseTypeId) == SignedSum(ts)
  {
    if ts != [] {
      assert ts == [ts[0]] + ts[1..];
      TotalAppend([ts[0]], ts[1..], IncomeTypeId);
      TotalAppend([ts[0]], ts[1..], ExpenseTypeId);
      TotalOfOne(ts[0], IncomeTypeId);
      TotalOfOne(ts[0], ExpenseTypeId);
      TotalsAreSignedSum(ts[1..]);
    }
  }

  lemma {:induction false} OfTypeAppend(a: seq<Transaction>, b: seq<Transaction>, typeId: int)
    ensures OfType(a + b, typeId) == OfType(a, typeId) + OfType(b, typeId)
  {
    if a == [] {
      assert a + b == b;
    } else {
      var head := if HasType(a[0], typeId) then [a[0]] else [];
      assert (a + b)[0] == a[0] && (a + b)[1..] == a[1..] + b;
      OfTypeAppend(a[1..], b, typeId);
      calc {
        OfType(a + b, typeId);
        head + OfType(a[1..] + b, typeId);
        head + (OfType(a[1..], typeId) + OfType(b, typeId));
        (head + OfType(a[1..], typeId)) + OfType(b, typeId);
        OfType(a, typeId) + OfType(b, typeId);
      }
    }
  }

  lemma {:induction false} SumAmountsAppend(a: seq<Transaction>, b: seq<Transaction>)
    ensures SumAmounts(a + b) == SumAmounts(a) + SumAmounts(b)
    decreases |b|
  {
    if b == [] {
      assert a + b == a;
    } else {
      var b' := b[..|b| - 1];
      assert (a + b)[..|a + b| - 1] == a + b';
      SumAmountsAppend(a, b');
    }
  }

  /** A total over two lists is the sum of their totals. */
  lemma TotalAppend(a: seq<Transaction>, b: seq<Transaction>, typeId: int)
    ensures Total(a + b, typeId) == Total(a, typeId) + Total(b, typeId)
  {
    OfTypeAppend(a, b, typeId);
    SumAmountsAppend(OfType(a, typeId), OfType(b, typeId));
  }

  /** A transaction of the given type adds its amount (0 when missing); one of
      any other type adds nothing. */
  lemma TotalOfOne(t: Transaction, typeId: int)
    ensures Total([t], typeId) == if HasType(t, typeId) then t.amount.GetOr(0) else 0
  {
    assert OfType([t], typeId) == (if HasType(t, typeId) then [t] else []) + OfType([], typeId);
    if HasType(t, typeId) {
      assert SumAmounts([t]) == SumAmounts([]) + t.amount.GetOr(0);
    }
  }

  /** Adding one transaction moves the balance by its amount: up for an
      income, down for an expense, not at all for anything else. */
  lemma BalanceAfterAdd(t: Transaction, ts: seq<Transaction>)
    ensures Balance([t] + ts) == Balance(ts) +
              (if HasType(t, IncomeTypeId) then t.amount.GetOr(0)
               else if HasType(t, ExpenseTypeId) then -t.amount.GetOr(0)
               else 0)
  {
    TotalAppend([t], ts, IncomeTypeId);
    TotalAppend([t], ts, ExpenseTypeId);
    TotalOfOne(t, IncomeTypeId);
    TotalOfOne(t, ExpenseTypeId);
  }

  // ----- forms and guards -----

  /** The add form: `CreateTransactionDto`. */
  datatype TxForm = TxForm(id: string, name: string, amount: int, description: string,
                           transactionTypeId: int, date: string)

  /** `handleAdd`: the form is sent as it is; after success the name, amount
      and description are cleared and the rest is kept. */
  function HandleAdd(form: TxForm): (r: Step<TxForm, TxForm>)
    ensures r.Ignored? <==> IsBlank(form.name) || form.amount <= 0
    ensures r.Submitted? ==> r.dto == form
    ensures r.Submitted? ==> r.after == form.(name := "", amount := 0, description := "")
  {
    if !AddAllowed(form.name, form.amount) then Ignored
    else Submitted(form, form.(name := "", amount := 0, description := ""))
  }

  /** The cleared form is refused by the guard until it is filled in again. */
  lemma ClearedFormIgnored(form: TxForm)
    requires HandleAdd(form).Submitted?
    ensures HandleAdd(HandleAdd(form).after).Ignored?
  {
  }

  /** The filter form: every field is the text the user typed. */
  datatype FilterForm = FilterForm(name: string, amountFrom: string, amountTo: string,
                                   dateFrom: string, dateTo: string)

  /** `handleFilter`'s mapping from the form to the thunk's filters: an empty
      field is undefined, filled text is kept as typed and a filled amount is
      read with `Number`. `fromOtherwise` and `toOtherwise` are what `Number`
      gives for amount text that is not a whole number. */
  function FiltersOf(form: FilterForm, fromOtherwise: JsNumber, toOtherwise: JsNumber): (f: Filters)
    ensures f.name.None? <==> form.name == ""
    ensures f.name.Some? ==> f.name.value == form.name
    ensures f.dateFrom.None? <==> form.dateFrom == ""
    ensures f.dateFrom.Some? ==> f.dateFrom.value == form.dateFrom
    ensures f.dateTo.None? <==> form.dateTo == ""
    ensures f.dateTo.Some? ==> f.dateTo.value == form.dateTo
    ensures f.amountFrom.None? <==> form.amountFrom == ""
    ensures f.amountFrom.Some? ==> f.amountFrom.value == NumberOf(form.amountFrom, fromOtherwise)
    ensures f.amountTo.None? <==> form.amountTo == ""
    ensures f.amountTo.Some? ==> f.amountTo.value == NumberOf(form.amountTo, toOtherwise)
  {
    Filters(TextOrUndefined(form.name), NumberOrUndefined(form.amountFrom, fromOtherwise),
            NumberOrUndefined(form.amountTo, toOtherwise),
            TextOrUndefined(form.dateFrom), TextOrUndefined(form.dateTo))
  }

  /** An amount field that is empty, blank or zero is left out of the query;
      one that holds a positive whole number is sent as that number. */
  lemma AmountFieldInQuery(s: string, otherwise: JsNumber)
    ensures s == "" || IsBlank(s) || (AllDigits(s) && DigitsValue(s) == 0) ==>
              AmountParam(NumberOrUndefined(s, otherwise)) == None
    ensures AllDigits(s) && s != "" && DigitsValue(s) > 0 ==>
              AmountParam(NumberOrUndefined(s, otherwise)) == Some(NatToString(DigitsValue(s)))
  {
  }

  /** A negative whole number typed into an amount field is truthy, so it is
      sent, written back as `toString()` writes it. */
  lemma NegativeAmountSent(n: nat, otherwise: JsNumber)
    requires n > 0
    ensures AmountParam(NumberOrUndefined("-" + NatToString(n), otherwise)) == Some("-" + NatToString(n))
  {
    var s := "-" + NatToString(n);
    assert s[1..] == NatToString(n);
    NatToStringRoundTrip(n);
    assert DigitsValue(s[1..]) == n;
    assert NumberOf(s, otherwise) == Finite(-(n as int));
    assert IntToString(-(n as int)) == "-" + NatToString(n);
  }

  /** `handleFilter` followed by the query the thunk builds: an empty field
      never reaches the query, and a filled text field is sent as typed. */
  method SubmitFilter(form: FilterForm, fromOtherwise: JsNumber, toOtherwise: JsNumber) returns (query: seq<Param>)
    ensures Get(query, "Name") == TextOrUndefined(form.name)
    ensures Get(query, "DateFrom") == TextOrUndefined(form.dateFrom)
    ensures Get(query, "DateTo") == TextOrUndefined(form.dateTo)
    ensures form.amountFrom == "" ==> Get(query, "AmountFrom") == None
    ensures form.amountTo == "" ==> Get(query, "AmountTo") == None
    ensures Get(query, "AmountFrom") == AmountParam(NumberOrUndefined(form.amountFrom, fromOtherwise))
    ensures Get(query, "AmountTo") == AmountParam(NumberOrUndefined(form.amountTo, toOtherwise))
    ensures KeysInOrder(query, FilterKeys)
  {
    query := FilterQuery(FiltersOf(form, fromOtherwise, toOtherwise));
  }

  // ----- edit form -----

  /** The edit form; the amount is copied as it is, even when missing. */
  datatype EditForm = EditForm(id: string, name: string, description: string, amount: Option<int>,
                               transactionTypeId: int, date: string)

  /** `openEditModal(tx)`: `||` defaults, so a missing or empty description
      becomes "" and a missing or zero type id becomes 2. */
  function OpenEditModal(tx: Transaction): (dto: EditForm)
    ensures dto.id == tx.id && dto.name == tx.name && dto.date == tx.date && dto.amount == tx.amount
    ensures dto.description == tx.description.GetOr("")
    ensures tx.txType.Some? && tx.txType.value.id != 0 ==> dto.transactionTypeId == tx.txType.value.id
    ensures tx.txType.None? || tx.txType.value.id == 0 ==> dto.transactionTypeId == 2
  {
    EditForm(tx.id, tx.name, tx.description.GetOr(""), tx.amount,
             if tx.txType.Some? && tx.txType.value.id != 0 then tx.txType.value.id else 2, tx.date)
  }
}
