/** The Financial Management screen of src/components: a transaction ledger, the
    four summary figures computed from it, a type filter with a case-insensitive
    search, and a creation form that requires a description, an amount and a
    date. Amounts are JavaScript numbers, modelled as exact reals; dates are the
    form's `YYYY-MM-DD` text. */
module Finance {
  import opened Base
  import opened Text

  datatype TxType = Income | Expense | Invoice

  datatype TxStatus = Completed | Pending

  datatype Transaction = Transaction(
    id: int,
    txType: TxType,
    amount: real,
    description: string,
    category: string,
    date: string,
    status: TxStatus)

  /** The `newTransaction` form state. `amount` is `None` while the number field
      is empty and otherwise the value `parseFloat` reads from it. */
  datatype TxDraft = TxDraft(
    txType: TxType,
    amount: Option<real>,
    description: string,
    category: string,
    date: string,
    status: TxStatus)

  /** The state the form starts from and is reset to; `today` is the UTC date of
      `new Date().toISOString()`. */
  function EmptyDraft(today: string): TxDraft {
    TxDraft(Income, None, "", "", today, Completed)
  }

  const InitialTransactions: seq<Transaction> := [
    Transaction(1, Income, 12500.0, "Client payment - ABC Corp", "Sales", "2025-04-01", Completed),
    Transaction(2, Expense, 2300.0, "Office rent", "Rent", "2025-04-02", Completed),
    Transaction(3, Income, 8500.0, "Client payment - XYZ Inc", "Sales", "2025-04-05", Completed),
    Transaction(4, Expense, 1200.0, "Software subscriptions", "Software", "2025-04-07", Completed),
    Transaction(5, Expense, 850.0, "Marketing expenses", "Marketing", "2025-04-10", Completed),
    Transaction(6, Income, 11500.0, "Client payment - Global Solutions", "Sales", "2025-04-15", Completed),
    Transaction(7, Invoice, 12300.0, "Consulting services - TechCorp", "Consulting", "2025-04-18", Pending)
  ]

  /** `.reduce((sum, t) => sum + t.amount, 0)`. */
  function SumAmounts(txs: seq<Transaction>): (sum: real)
    ensures (forall i :: 0 <= i < |txs| ==> txs[i].amount >= 0.0) ==> sum >= 0.0
    ensures (forall i :: 0 <= i < |txs| ==> txs[i].amount == 0.0) ==> sum == 0.0
  {
    if txs == [] then 0.0 else txs[0].amount + SumAmounts(txs[1..])
  }

  lemma {:induction false} SumAmountsAppend(a: seq<Transaction>, b: seq<Transaction>)
    ensures SumAmounts(a + b) == SumAmounts(a) + SumAmounts(b)
  {
    if a == [] {
      assert a + b == b;
    } else {
      assert (a + b)[0] == a[0];
      assert (a + b)[1..] == a[1..] + b;
      SumAmountsAppend(a[1..], b);
    }
  }

  /** The three summary buckets: completed income, completed expenses, pending invoices. */
  predicate IsCompletedIncome(t: Transaction) { t.txType == Income && t.status == Completed }
  predicate IsCompletedExpense(t: Transaction) { t.txType == Expense && t.status == Completed }
  predicate IsPendingInvoice(t: Transaction) { t.txType == Invoice && t.status == Pending }

  function CompletedIncome(): Transaction -> bool { t => IsCompletedIncome(t) }
  function CompletedExpense(): Transaction -> bool { t => IsCompletedExpense(t) }
  function PendingInvoice(): Transaction -> bool { t => IsPendingInvoice(t) }

  /** A bucket sum is non-negative when the bucket's amounts are, and zero when
      no transaction falls in the bucket. */
  lemma BucketSumBounds(p: Transaction -> bool, txs: seq<Transaction>)
    ensures (forall t :: t in txs && p(t) ==> t.amount >= 0.0) ==> SumAmounts(Filter(p, txs)) >= 0.0
    ensures (forall t :: t in txs ==> !p(t)) ==> SumAmounts(Filter(p, txs)) == 0.0
  {
    var r := Filter(p, txs);
    assert forall i :: 0 <= i < |r| ==> r[i] in r;
  }

  /** `financialSummary.totalIncome`: the completed income amounts. */
  function TotalIncome(txs: seq<Transaction>): (total: real)
    ensures (forall t :: t in txs && IsCompletedIncome(t) ==> t.amount >= 0.0) ==> total >= 0.0
    ensures (forall t :: t in txs ==> !IsCompletedIncome(t)) ==> total == 0.0
  {
    BucketSumBounds(CompletedIncome(), txs);
    SumAmounts(Filter(CompletedIncome(), txs))
  }

  /** `financialSummary.totalExpenses`: the completed expense amounts. */
  function TotalExpenses(txs: seq<Transaction>): (total: real)
    ensures (forall t :: t in txs && IsCompletedExpense(t) ==> t.amount >= 0.0) ==> total >= 0.0
    ensures (forall t :: t in txs ==> !IsCompletedExpense(t)) ==> total == 0.0
  {
    BucketSumBounds(CompletedExpense(), txs);
    SumAmounts(Filter(CompletedExpense(), txs))
  }

  /** `financialSummary.pendingInvoices`: the pending invoice amounts. */
  function PendingInvoices(txs: seq<Transaction>): (total: real)
    ensures (forall t :: t in txs && IsPendingInvoice(t) ==> t.amount >= 0.0) ==> total >= 0.0
    ensures (forall t :: t in txs ==> !IsPendingInvoice(t)) ==> total == 0.0
  {
    BucketSumBounds(PendingInvoice(), txs);
    SumAmounts(Filter(PendingInvoice(), txs))
  }

  /** `profit`: never more than the income when expenses are non-negative, and the
      whole income when nothing was spent. */
  function Profit(txs: seq<Transaction>): (profit: real)
    ensures (forall t :: t in txs && IsCompletedExpense(t) ==> t.amount >= 0.0) ==> profit <= TotalIncome(txs)
    ensures (forall t :: t in txs ==> !IsCompletedExpense(t)) ==> profit == TotalIncome(txs)
  {
    TotalIncome(txs) - TotalExpenses(txs)
  }

  /** What one transaction adds to a sum over the transactions that pass `p`. */
  function Share(p: Transaction -> bool, t: Transaction): real {
    if p(t) then t.amount else 0.0
  }

  lemma SumFilterAppendOne(p: Transaction -> bool, txs: seq<Transaction>, t: Transaction)
    ensures SumAmounts(Filter(p, txs + [t])) == SumAmounts(Filter(p, txs)) + Share(p, t)
  {
    FilterAppend(p, txs, [t]);
    SumAmountsAppend(Filter(p, txs), Filter(p, [t]));
  }

  /** A transaction lands in at most one of the summary buckets; a pending income
      or expense and a completed invoice land in none. */
  lemma BucketsAreDisjoint(t: Transaction)
    ensures !(IsCompletedIncome(t) && IsCompletedExpense(t))
    ensures !(IsCompletedIncome(t) && IsPendingInvoice(t))
    ensures !(IsCompletedExpense(t) && IsPendingInvoice(t))
    ensures (t.txType != Invoice && t.status == Pending) || (t.txType == Invoice && t.status == Completed) ==>
      !IsCompletedIncome(t) && !IsCompletedExpense(t) && !IsPendingInvoice(t)
  {
  }

  /** Recording a transaction moves exactly the figure of its bucket, by its amount,
      and profit by its signed amount. */
  lemma SummaryAfterAppend(txs: seq<Transaction>, t: Transaction)
    ensures TotalIncome(txs + [t]) == TotalIncome(txs) + (if IsCompletedIncome(t) then t.amount else 0.0)
    ensures TotalExpenses(txs + [t]) == TotalExpenses(txs) + (if IsCompletedExpense(t) then t.amount else 0.0)
    ensures PendingInvoices(txs + [t]) == PendingInvoices(txs) + (if IsPendingInvoice(t) then t.amount else 0.0)
    ensures Profit(txs + [t]) == Profit(txs) +
      (if IsCompletedIncome(t) then t.amount else if IsCompletedExpense(t) then -t.amount else 0.0)
  {
    SumFilterAppendOne(CompletedIncome(), txs, t);
    SumFilterAppendOne(CompletedExpense(), txs, t);
    SumFilterAppendOne(PendingInvoice(), txs, t);
  }

  /** The `filter` state: 'all' or one transaction type. */
  datatype TypeFilter = AllTypes | OnlyType(txType: TxType)

  predicate MatchesFilter(filter: TypeFilter, t: Transaction) {
    filter.AllTypes? || t.txType == filter.txType
  }

  /** The search term occurs, ignoring case, in the description or the category. */
  predicate MatchesSearch(term: string, t: Transaction) {
    ContainsIgnoringCase(t.description, term) || ContainsIgnoringCase(t.category, term)
  }

  function ShownUnder(filter: TypeFilter, term: string): Transaction -> bool {
    t => MatchesFilter(filter, t) && MatchesSearch(term, t)
  }

  /** `filteredTransactions`: exactly the transactions that pass the type filter and
      the search, in ledger order. */
  function FilteredTransactions(txs: seq<Transaction>, filter: TypeFilter, term: string): (r: seq<Transaction>)
    ensures forall t :: t in r <==> t in txs && MatchesFilter(filter, t) && MatchesSearch(term, t)
    ensures IsSubsequence(r, txs)
    ensures |r| == Count(ShownUnder(filter, term), txs)
  {
    Filter(ShownUnder(filter, term), txs)
  }

  /** The initial view, 'all' and no search, lists the whole ledger. */
  lemma InitialViewShowsAll(txs: seq<Transaction>)
    ensures FilteredTransactions(txs, AllTypes, "") == txs
  {
    forall i | 0 <= i < |txs|
      ensures ShownUnder(AllTypes, "")(txs[i])
    {
      EmptyTermMatches(txs[i].description);
    }
    FilterKeepsAll(ShownUnder(AllTypes, ""), txs);
  }

  /** Transaction ids are 1-based positions, so `transactions.length + 1` is fresh.
      (Each screen keeps its own record type, hence its own copy of this shape.) */
  predicate IdsArePositions(txs: seq<Transaction>) {
    forall i :: 0 <= i < |txs| ==> txs[i].id == i + 1
  }

  class Ledger {
    var transactions: seq<Transaction>
    var filter: TypeFilter
    var searchTerm: string
    var showNewTransactionForm: bool
    var newTransaction: TxDraft

    constructor(today: string)
      ensures transactions == InitialTransactions && IdsArePositions(transactions)
      ensures filter == AllTypes && searchTerm == ""
      ensures !showNewTransactionForm && newTransaction == EmptyDraft(today)
    {
      transactions := InitialTransactions;
      filter := AllTypes;
      searchTerm := "";
      showNewTransactionForm := false;
      newTransaction := EmptyDraft(today);
    }

    /** `filteredTransactions` of the current state. */
    function Visible(): seq<Transaction>
      reads this
    {
      FilteredTransactions(transactions, filter, searchTerm)
    }

    /** The four filter buttons. */
    method SetFilter(f: TypeFilter)
      modifies this`filter
      ensures filter == f
    {
      filter := f;
    }

    /** The search box. */
    method SetSearchTerm(term: string)
      modifies this`searchTerm
      ensures searchTerm == term
    {
      searchTerm := term;
    }

    /** The header button. */
    method ToggleNewTransactionForm()
      modifies this`showNewTransactionForm
      ensures showNewTransactionForm == !old(showNewTransactionForm)
    {
      showNewTransactionForm := !showNewTransactionForm;
    }

    /** The form's "Cancel" button. */
    method CancelNewTransactionForm()
      modifies this`showNewTransactionForm
      ensures !showNewTransactionForm
    {
      showNewTransactionForm := false;
    }

    /** `handleNewTransactionSubmit`: nothing happens unless the description, the
        amount and the date are filled in; otherwise the draft is recorded with id
        one past the ledger length and its parsed amount, the draft is reset with
        `today` as its date, and the form closes. */
    method SubmitNewTransaction(today: string)
      modifies this`transactions, this`newTransaction, this`showNewTransactionForm
      ensures old(newTransaction).description == "" || old(newTransaction).amount.None? ||
              old(newTransaction).date == "" ==>
        transactions == old(transactions) && newTransaction == old(newTransaction) &&
        showNewTransactionForm == old(showNewTransactionForm)
      ensures old(newTransaction).description != "" && old(newTransaction).amount.Some? &&
              old(newTransaction).date != "" ==>
        var d := old(newTransaction);
        && transactions == old(transactions) +
             [Transaction(|old(transactions)| + 1, d.txType, d.amount.value, d.description, d.category, d.date, d.status)]
        && newTransaction == EmptyDraft(today) && !showNewTransactionForm
      ensures IdsArePositions(old(transactions)) ==> IdsArePositions(transactions)
    {
      var d := newTransaction;
      if d.description != "" && d.amount.Some? && d.date != "" {
        transactions := transactions +
          [Transaction(|transactions| + 1, d.txType, d.amount.value, d.description, d.category, d.date, d.status)];
        newTransaction := EmptyDraft(today);
        showNewTransactionForm := false;
      }
    }
  }
}
