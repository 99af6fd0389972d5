/** The Customer Management screen of src/components: a contact list, the four
    metric cards computed from it, a status filter with a case-insensitive
    search, a details panel opened for at most one contact at a time, and a
    creation form that requires a name and an email. Values are JavaScript
    numbers, modelled as exact reals; dates are `YYYY-MM-DD` text. */
module Customers {
  import opened Base
  import opened Text

  /** A contact's status; `Client` is the code's 'customer'. */
  datatype ContactStatus = Client | Lead | Partner

  datatype Customer = Customer(
    id: int,
    name: string,
    company: string,
    email: string,
    phone: string,
    status: ContactStatus,
    lastContact: string,
    notes: string,
    value: real)

  /** The `newCustomer` form state. `value` is the number `parseFloat` reads from
      the value field, `None` when it reads none (an empty or non-numeric field). */
  datatype CustomerDraft = CustomerDraft(
    name: string,
    company: string,
    email: string,
    phone: string,
    status: ContactStatus,
    notes: string,
    value: Option<real>)

  const EmptyDraft := CustomerDraft("", "", "", "", Lead, "", None)

  const InitialCustomers: seq<Customer> := [
    Customer(1, "John Smith", "Acme Inc.", "john.smith@acme.com", "+1 (555) 123-4567", Client,
      "2025-04-01", "Key decision maker, prefers email communication", 12500.0),
    Customer(2, "Sarah Johnson", "TechCorp", "sarah.j@techcorp.com", "+1 (555) 987-6543", Lead,
      "2025-04-03", "Interested in our premium plan, follow up next week", 0.0),
    Customer(3, "Michael Brown", "Global Solutions", "m.brown@globalsolutions.com", "+1 (555) 456-7890", Partner,
      "2025-04-01", "Strategic partnership for Asia market expansion", 35000.0),
    Customer(4, "Emily Davis", "Innovate LLC", "emily@innovatellc.com", "+1 (555) 234-5678", Client,
      "2025-03-28", "Recently upgraded to business plan", 8500.0),
    Customer(5, "David Wilson", "Startup Hub", "david@startuphub.co", "+1 (555) 876-5432", Lead,
      "2025-04-05", "Requested demo, scheduled for next Tuesday", 0.0)
  ]

  function HasStatus(s: ContactStatus): Customer -> bool {
    (c: Customer) => c.status == s
  }

  /** `customers.filter(c => c.status === s).length`. */
  function CountStatus(cs: seq<Customer>, s: ContactStatus): (n: nat)
    ensures n <= |cs|
    ensures n == 0 <==> forall c :: c in cs ==> c.status != s
  {
    var r := Filter(HasStatus(s), cs);
    assert r != [] ==> r[0] in r;
    |r|
  }

  /** `customerMetrics.totalValue`: the value of every contact, whatever its status. */
  function TotalValue(cs: seq<Customer>): (total: real)
    ensures (forall i :: 0 <= i < |cs| ==> cs[i].value >= 0.0) ==> total >= 0.0
  {
    if cs == [] then 0.0 else cs[0].value + TotalValue(cs[1..])
  }

  /** The customer, lead and partner counts add up to the whole list: every contact
      is counted on exactly one card. */
  lemma {:induction false} CountsCoverList(cs: seq<Customer>)
    ensures CountStatus(cs, Client) + CountStatus(cs, Lead) + CountStatus(cs, Partner) == |cs|
  {
    if cs != [] {
      CountsCoverList(cs[1..]);
      FilterAppend(HasStatus(Client), [cs[0]], cs[1..]);
      FilterAppend(HasStatus(Lead), [cs[0]], cs[1..]);
      FilterAppend(HasStatus(Partner), [cs[0]], cs[1..]);
      assert [cs[0]] + cs[1..] == cs;
    }
  }

  lemma {:induction false} TotalValueAppend(a: seq<Customer>, b: seq<Customer>)
    ensures TotalValue(a + b) == TotalValue(a) + TotalValue(b)
  {
    if a == [] {
      assert a + b == b;
    } else {
      assert (a + b)[0] == a[0];
      assert (a + b)[1..] == a[1..] + b;
      TotalValueAppend(a[1..], b);
    }
  }

  /** Adding a contact raises the count of its status by one, leaves the other
      counts alone and adds its value to the total. */
  lemma MetricsAfterAppend(cs: seq<Customer>, c: Customer)
    ensures forall s :: CountStatus(cs + [c], s) == CountStatus(cs, s) + (if c.status == s then 1 else 0)
    ensures TotalValue(cs + [c]) == TotalValue(cs) + c.value
  {
    forall s
      ensures CountStatus(cs + [c], s) == CountStatus(cs, s) + (if c.status == s then 1 else 0)
    {
      FilterAppend(HasStatus(s), cs, [c]);
    }
    TotalValueAppend(cs, [c]);
    assert TotalValue([c]) == c.value + TotalValue([]);
  }

  /** The `filter` state: 'all' or one status. */
  datatype StatusFilter = AllStatuses | OnlyStatus(status: ContactStatus)

  predicate MatchesFilter(filter: StatusFilter, c: Customer) {
    filter.AllStatuses? || c.status == filter.status
  }

  /** The search term occurs, ignoring case, in the name, the company or the email. */
  predicate MatchesSearch(term: string, c: Customer) {
    ContainsIgnoringCase(c.name, term) || ContainsIgnoringCase(c.company, term) ||
    ContainsIgnoringCase(c.email, term)
  }

  function ShownUnder(filter: StatusFilter, term: string): Customer -> bool {
    c => MatchesFilter(filter, c) && MatchesSearch(term, c)
  }

  /** `filteredCustomers`: exactly the contacts that pass the status filter and the
      search, in list order. */
  function FilteredCustomers(cs: seq<Customer>, filter: StatusFilter, term: string): (r: seq<Customer>)
    ensures forall c :: c in r <==> c in cs && MatchesFilter(filter, c) && MatchesSearch(term, c)
    ensures IsSubsequence(r, cs)
    ensures |r| == Count(ShownUnder(filter, term), cs)
  {
    Filter(ShownUnder(filter, term), cs)
  }

  /** With an empty search box a status view lists as many contacts as that
      status's metric card counts. */
  lemma EmptySearchMatchesMetric(cs: seq<Customer>, s: ContactStatus)
    ensures FilteredCustomers(cs, OnlyStatus(s), "") == Filter(HasStatus(s), cs)
    ensures |FilteredCustomers(cs, OnlyStatus(s), "")| == CountStatus(cs, s)
  {
    forall i | 0 <= i < |cs|
      ensures ShownUnder(OnlyStatus(s), "")(cs[i]) == HasStatus(s)(cs[i])
    {
      EmptyTermMatches(cs[i].name);
    }
    FilterCongruent(ShownUnder(OnlyStatus(s), ""), HasStatus(s), cs);
  }

  /** `toggleCustomerDetails`: clicking the open contact closes it, clicking any
      other contact opens that one instead. */
  function Toggle(selected: Option<int>, customerId: int): (r: Option<int>)
    ensures r == None <==> selected == Some(customerId)
    ensures r != None ==> r == Some(customerId)
  {
    if selected == Some(customerId) then None else Some(customerId)
  }

  /** Two clicks on the same contact restore the selection exactly when nothing or
      that contact was open; if another contact was open it ends up closed. */
  lemma ToggleTwice(selected: Option<int>, customerId: int)
    ensures Toggle(Toggle(selected, customerId), customerId) == selected <==>
      selected == None || selected == Some(customerId)
    ensures Toggle(Toggle(selected, customerId), customerId) != selected ==>
      Toggle(Toggle(selected, customerId), customerId) == None
  {
  }

  /** `parseFloat(value) || 0`: the parsed value, or zero when none was read. */
  function ValueOrZero(v: Option<real>): (r: real)
    ensures v.Some? ==> r == v.value
    ensures r == 0.0 <==> v == None || v == Some(0.0)
  {
    match v
    case Some(x) => x
    case None => 0.0
  }

  /** Contact ids are 1-based positions, so `customers.length + 1` is fresh.
      (Each screen keeps its own record type, hence its own copy of this shape.) */
  predicate IdsArePositions(cs: seq<Customer>) {
    forall i :: 0 <= i < |cs| ==> cs[i].id == i + 1
  }

  class Directory {
    var customers: seq<Customer>
    var filter: StatusFilter
    var searchTerm: string
    var showNewCustomerForm: bool
    var selectedCustomer: Option<int>
    var newCustomer: CustomerDraft

    constructor()
      ensures customers == InitialCustomers && IdsArePositions(customers)
      ensures filter == AllStatuses && searchTerm == "" && !showNewCustomerForm
      ensures selectedCustomer == None && newCustomer == EmptyDraft
    {
      customers := InitialCustomers;
      filter := AllStatuses;
      searchTerm := "";
      showNewCustomerForm := false;
      selectedCustomer := None;
      newCustomer := EmptyDraft;
    }

    /** `filteredCustomers` of the current state. */
    function Visible(): seq<Customer>
      reads this
    {
      FilteredCustomers(customers, filter, searchTerm)
    }

    /** The four filter buttons. */
    method SetFilter(f: StatusFilter)
      modifies this`filter
      ensures filter == f
    {
      filter := f;
    }

    /** The search box. */
    method SetSearchTerm(term: string)
      modifies this`searchTerm
      ensures searchTerm == term
    {
      searchTerm := term;
    }

    /** The header button. */
    method ToggleNewCustomerForm()
      modifies this`showNewCustomerForm
      ensures showNewCustomerForm == !old(showNewCustomerForm)
    {
      showNewCustomerForm := !showNewCustomerForm;
    }

    /** "Add a New Customer" on the empty-state card. */
    method OpenNewCustomerForm()
      modifies this`showNewCustomerForm
      ensures showNewCustomerForm
    {
      showNewCustomerForm := true;
    }

    /** The form's "Cancel" button. */
    method CancelNewCustomerForm()
      modifies this`showNewCustomerForm
      ensures !showNewCustomerForm
    {
      showNewCustomerForm := false;
    }

    /** "View Details" / "Hide Details" of a contact card. */
    method ToggleCustomerDetails(customerId: int)
      modifies this`selectedCustomer
      ensures selectedCustomer == Toggle(old(selectedCustomer), customerId)
    {
      if selectedCustomer == Some(customerId) {
        selectedCustomer := None;
      } else {
        selectedCustomer := Some(customerId);
      }
    }

    /** `handleNewCustomerSubmit`: nothing happens unless the name and the email are
        filled in; otherwise the draft is added with id one past the list length,
        `today` as its last contact and its value or zero, the draft is reset and
        the form closes. */
    method SubmitNewCustomer(today: string)
      modifies this`customers, this`newCustomer, this`showNewCustomerForm
      ensures old(newCustomer).name == "" || old(newCustomer).email == "" ==>
        customers == old(customers) && newCustomer == old(newCustomer) &&
        showNewCustomerForm == old(showNewCustomerForm)
      ensures old(newCustomer).name != "" && old(newCustomer).email != "" ==>
        var d := old(newCustomer);
        && customers == old(customers) +
             [Customer(|old(customers)| + 1, d.name, d.company, d.email, d.phone, d.status, today, d.notes,
                       ValueOrZero(d.value))]
        && newCustomer == EmptyDraft && !showNewCustomerForm
      ensures IdsArePositions(old(customers)) ==> IdsArePositions(customers)
    {
      var d := newCustomer;
      if d.name != "" && d.email != "" {
        customers := customers +
          [Customer(|customers| + 1, d.name, d.company, d.email, d.phone, d.status, today, d.notes,
                    ValueOrZero(d.value))];
        newCustomer := EmptyDraft;
        showNewCustomerForm := false;
      }
    }
  }
}
