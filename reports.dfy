/** The reports slice: monthly income/expense totals and monthly savings,
    with one loading flag and one error message shared by its three thunks;
    every payload is a one-level `flat()` of the reply's `data`. */
module Reports {
  import opened Common

  datatype MonthlyReport = MonthlyReport(
    month: string,
    totalIncomeAmount: int,
    totalExpenseAmount: int,
    totalIncomeTransactionCount: int,
    totalExpenseTransactionCount: int,
    totalTransactionCount: int)

  datatype MonthlySavings = MonthlySavings(month: string, income: int, expense: int, savings: int)

  /** An entry of a reply's `data` array: an item, or an array of items. */
  datatype Nest<T> = Leaf(item: T) | Group(items: seq<T>)

  /** What `flat()` splices in for one entry. */
  function Items<T>(n: Nest<T>): seq<T> {
    match n
    case Leaf(x) => [x]
    case Group(xs) => xs
  }

  /** The summed widths of the entries. */
  function TotalWidth<T>(xs: seq<Nest<T>>): nat {
    if xs == [] then 0 else |Items(xs[0])| + TotalWidth(xs[1..])
  }

  /** `xs.flat()`: every array entry spliced in place, one level deep. */
  function Flat<T>(xs: seq<Nest<T>>): (r: seq<T>)
    ensures |r| == TotalWidth(xs)
    ensures forall i, k :: 0 <= i < |xs| && 0 <= k < |Items(xs[i])| ==> Items(xs[i])[k] in r
  {
    if xs == [] then []
    else
      var rest := Flat(xs[1..]);
      var r := Items(xs[0]) + rest;
      assert forall i :: 1 <= i < |xs| ==> xs[i] == xs[1..][i - 1];
      r
  }

  /** `flat()` distributes over concatenation. */
  lemma {:induction false} FlatAppend<T>(a: seq<Nest<T>>, b: seq<Nest<T>>)
    ensures Flat(a + b) == Flat(a) + Flat(b)
  {
    if a == [] {
      assert a + b == b;
    } else {
      assert (a + b)[0] == a[0] && (a + b)[1..] == a[1..] + b;
      FlatAppend(a[1..], b);
    }
  }

  /** A list of plain items is left as it is. */
  lemma {:induction false} FlatOfLeaves<T>(xs: seq<T>)
    ensures Flat(seq(|xs|, i requires 0 <= i < |xs| => Leaf(xs[i]))) == xs
  {
    if xs != [] {
      var leaves := seq(|xs|, i requires 0 <= i < |xs| => Leaf(xs[i]));
      var tail := seq(|xs| - 1, i requires 0 <= i < |xs| - 1 => Leaf(xs[1..][i]));
      assert leaves[1..] == tail;
      FlatOfLeaves(xs[1..]);
      calc {
        Flat(leaves);
        Items(leaves[0]) + Flat(leaves[1..]);
        [xs[0]] + Flat(tail);
        [xs[0]] + xs[1..];
        xs;
      }
    }
  }

  /** A reply `{ data: [...] }`; `data` may be missing. */
  datatype Body<T> = Body(data: Option<seq<Nest<T>>>)

  const ReportsFailure := "Ошибка при загрузке отчетов"
  const IncomeExpensesFailure := "Ошибка при получении отчётов по доходам/расходам"
  const SavingsFailure := "Ошибка при получении отчётов по накоплениям"

  /** `res.data.data.flat()` inside `try`: a failed request or a missing
      `data` rejects with `failure`. */
  function Flattened<T>(response: Option<Body<T>>, failure: string): (r: Settled<seq<T>>)
    ensures r.Rejected? <==> response.None? || response.value.data.None?
    ensures r.Rejected? ==> r.reason == Some(failure)
    ensures r.Fulfilled? ==> r.payload == Flat(response.value.data.value)
  {
    if response.None? || response.value.data.None? then Rejected(Some(failure))
    else Fulfilled(Flat(response.value.data.value))
  }

  /** `getMonthlyIncomeExpenses` */
  function GetMonthlyIncomeExpenses(response: Option<Body<MonthlyReport>>): (r: Settled<seq<MonthlyReport>>)
    ensures r.Rejected? <==> response.None? || response.value.data.None?
    ensures r.Rejected? ==> r.reason == Some(IncomeExpensesFailure)
    ensures r.Fulfilled? ==> r.payload == Flat(response.value.data.value)
  {
    Flattened(response, IncomeExpensesFailure)
  }

  /** `getMonthlySavings` */
  function GetMonthlySavings(response: Option<Body<MonthlySavings>>): (r: Settled<seq<MonthlySavings>>)
    ensures r.Rejected? <==> response.None? || response.value.data.None?
    ensures r.Rejected? ==> r.reason == Some(SavingsFailure)
    ensures r.Fulfilled? ==> r.payload == Flat(response.value.data.value)
  {
    Flattened(response, SavingsFailure)
  }

  datatype ReportsPayload = ReportsPayload(monthlyReports: seq<MonthlyReport>, monthlySavings: seq<MonthlySavings>)

  /** `fetchReports`: both requests at once; either failing rejects the whole. */
  function FetchReports(reports: Option<Body<MonthlyReport>>, savings: Option<Body<MonthlySavings>>): (r: Settled<ReportsPayload>)
    ensures r.Fulfilled? <==> reports.Some? && reports.value.data.Some? && savings.Some? && savings.value.data.Some?
    ensures r.Rejected? ==> r.reason == Some(ReportsFailure)
    ensures r.Fulfilled? ==> r.payload.monthlyReports == Flat(reports.value.data.value)
    ensures r.Fulfilled? ==> r.payload.monthlySavings == Flat(savings.value.data.value)
  {
    if reports.None? || reports.value.data.None? || savings.None? || savings.value.data.None? then
      Rejected(Some(ReportsFailure))
    else
      Fulfilled(ReportsPayload(Flat(reports.value.data.value), Flat(savings.value.data.value)))
  }

  class ReportsSlice {
    var monthlyReports: seq<MonthlyReport>
    var monthlySavings: seq<MonthlySavings>
    var loadingReports: bool
    var errorReports: Option<string>

    /** `initialState` */
    constructor ()
      ensures monthlyReports == [] && monthlySavings == [] && !loadingReports && errorReports == None
    {
      monthlyReports, monthlySavings, loadingReports, errorReports := [], [], false, None;
    }

    /** The three `pending` cases, which are the same. */
    method Pending()
      modifies this
      ensures loadingReports && errorReports == None
      ensures monthlyReports == old(monthlyReports) && monthlySavings == old(monthlySavings)
    {
      loadingReports := true;
      errorReports := None;
    }

    /** The three `rejected` cases, which are the same. */
    method Rejected(reason: Option<string>)
      modifies this
      ensures !loadingReports && errorReports == Some(ErrorText(reason))
      ensures monthlyReports == old(monthlyReports) && monthlySavings == old(monthlySavings)
    {
      loadingReports := false;
      errorReports := Some(ErrorText(reason));
    }

    /** `getMonthlyIncomeExpenses.fulfilled` */
    method IncomeExpensesFulfilled(payload: seq<MonthlyReport>)
      modifies this
      ensures !loadingReports && monthlyReports == payload
      ensures monthlySavings == old(monthlySavings) && errorReports == old(errorReports)
    {
      loadingReports := false;
      monthlyReports := payload;
    }

    /** `getMonthlySavings.fulfilled` */
    method SavingsFulfilled(payload: seq<MonthlySavings>)
      modifies this
      ensures !loadingReports && monthlySavings == payload
      ensures monthlyReports == old(monthlyReports) && errorReports == old(errorReports)
    {
      loadingReports := false;
      monthlySavings := payload;
    }

    /** `fetchReports.fulfilled` */
    method FetchFulfilled(payload: ReportsPayload)
      modifies this
      ensures !loadingReports && monthlyReports == payload.monthlyReports && monthlySavings == payload.monthlySavings
      ensures errorReports == old(errorReports)
    {
      loadingReports := false;
      monthlyReports := payload.monthlyReports;
      monthlySavings := payload.monthlySavings;
    }

    /** `dispatch(getMonthlyIncomeExpenses())` */
    method RunGetMonthlyIncomeExpenses(response: Option<Body<MonthlyReport>>)
      modifies this
      ensures !loadingReports && monthlySavings == old(monthlySavings)
      ensures response.Some? && response.value.data.Some? ==>
                monthlyReports == Flat(response.value.data.value) && errorReports == None
      ensures response.None? || response.value.data.None? ==>
                monthlyReports == old(monthlyReports) && errorReports == Some(IncomeExpensesFailure)
    {
      Pending();
      var settled := GetMonthlyIncomeExpenses(response);
      match settled {
        case Fulfilled(items) => IncomeExpensesFulfilled(items);
        case Rejected(reason) => Rejected(reason);
      }
    }

    /** `dispatch(getMonthlySavings())` */
    method RunGetMonthlySavings(response: Option<Body<MonthlySavings>>)
      modifies this
      ensures !loadingReports && monthlyReports == old(monthlyReports)
      ensures response.Some? && response.value.data.Some? ==>
                monthlySavings == Flat(response.value.data.value) && errorReports == None
      ensures response.None? || response.value.data.None? ==>
                monthlySavings == old(monthlySavings) && errorReports == Some(SavingsFailure)
    {
      Pending();
      var settled := GetMonthlySavings(response);
      match settled {
        case Fulfilled(items) => SavingsFulfilled(items);
        case Rejected(reason) => Rejected(reason);
      }
    }

    /** `dispatch(fetchReports())` */
    method RunFetchReports(reports: Option<Body<MonthlyReport>>, savings: Option<Body<MonthlySavings>>)
      modifies this
      ensures !loadingReports
      ensures FetchReports(reports, savings).Fulfilled? ==>
                && monthlyReports == Flat(reports.value.data.value)
                && monthlySavings == Flat(savings.value.data.value)
                && errorReports == None
      ensures FetchReports(reports, savings).Rejected? ==>
                && monthlyReports == old(monthlyReports)
                && monthlySavings == old(monthlySavings)
                && errorReports == Some(ReportsFailure)
    {
      Pending();
      var settled := FetchReports(reports, savings);
      match settled {
        case Fulfilled(payload) => FetchFulfilled(payload);
        case Rejected(reason) => Rejected(reason);
      }
    }
  }
}
