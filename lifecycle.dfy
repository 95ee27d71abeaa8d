/** The order lifecycle (`pending -> inprogress -> complete`), the orders the
    remote API returns, the one action the staff dashboard offers per status,
    and the filters the screens apply to order lists. */
module Lifecycle {
  import opened Common

  datatype Status = Pending | InProgress | Complete

  /** The status string the API uses. */
  function Name(s: Status): string
  {
    match s
    case Pending => "pending"
    case InProgress => "inprogress"
    case Complete => "complete"
  }

  /** Reading a status string of the API; any other string is no status. */
  function ParseStatus(text: string): (r: Option<Status>)
    ensures r.Some? ==> Name(r.value) == text
    ensures forall s :: Name(s) == text ==> r == Some(s)
  {
    if text == "pending" then Some(Pending)
    else if text == "inprogress" then Some(InProgress)
    else if text == "complete" then Some(Complete)
    else None
  }

  /** Position of a status along the lifecycle. */
  function Rank(s: Status): nat
  {
    match s
    case Pending => 0
    case InProgress => 1
    case Complete => 2
  }

  /** The next status of the lifecycle: one step forward, none after `complete`. */
  function Successor(s: Status): (r: Option<Status>)
    ensures r.None? <==> s == Complete
    ensures r.Some? ==> Rank(r.value) == Rank(s) + 1
  {
    match s
    case Pending => Some(InProgress)
    case InProgress => Some(Complete)
    case Complete => None
  }

  /** `getStatusText`: a label for the three statuses, any other string as it is. */
  function StatusText(status: string): (r: string)
    ensures ParseStatus(status).None? ==> r == status
    ensures ParseStatus(status) == Some(Pending) ==> r == "Pending"
    ensures ParseStatus(status) == Some(InProgress) ==> r == "In Progress"
    ensures ParseStatus(status) == Some(Complete) ==> r == "Completed"
  {
    match ParseStatus(status)
    case Some(Pending) => "Pending"
    case Some(InProgress) => "In Progress"
    case Some(Complete) => "Completed"
    case None => status
  }

  /** An order as the API returns it. `submissionDate` is `None` when the field
      is absent; `clothes` and `legacyCount` are `number_of_clothes` and `count`,
      `legacyDate` is `date`. */
  datatype Order = Order(
    id: int,
    bagNo: string,
    clothes: Option<int>,
    legacyCount: Option<int>,
    status: string,
    submissionDate: Option<int>,
    legacyDate: Option<string>)

  /** The body of `GET /api/orders/student/{bag_no}/`. */
  datatype StudentOrders = StudentOrders(student: map<string, string>, orders: seq<Order>)

  // ---------------------------------------------------------------------
  // Staff actions
  // ---------------------------------------------------------------------

  /** The two buttons of an order card: "Mark as Received" and "Mark as Ready". */
  datatype Action = MarkReceived | MarkReady

  /** The status `handleReceived` and `handleReady` ask the API for. */
  function Requested(a: Action): Status
  {
    match a
    case MarkReceived => InProgress
    case MarkReady => Complete
  }

  /** The button shown for an order with this status, if any: exactly the
      statuses that have a successor get one, and its request is that successor. */
  function ActionFor(status: string): (r: Option<Action>)
    ensures r.Some? <==> ParseStatus(status).Some? && Successor(ParseStatus(status).value).Some?
    ensures r.Some? ==> Successor(ParseStatus(status).value) == Some(Requested(r.value))
  {
    if status == "pending" then Some(MarkReceived)
    else if status == "inprogress" then Some(MarkReady)
    else None
  }

  /** No button ever moves an order backwards or from `pending` straight to
      `complete`. */
  lemma ActionsNeverSkip(status: string)
    requires ActionFor(status).Some?
    ensures Rank(Requested(ActionFor(status).value)) == Rank(ParseStatus(status).value) + 1
    ensures status == "pending" ==> Requested(ActionFor(status).value) != Complete
    ensures Requested(ActionFor(status).value) != Pending
  {
  }

  // ---------------------------------------------------------------------
  // The staff order list: tab and bag-number search
  // ---------------------------------------------------------------------

  /** The four tabs; the tab's name is the status it keeps. */
  datatype Tab = AllTab | StatusTab(status: Status)

  predicate MatchesTab(o: Order, tab: Tab)
  {
    tab.AllTab? || o.status == Name(tab.status)
  }

  /** Case-insensitive `includes` of the search term in the bag number. */
  predicate MatchesSearch(o: Order, term: string)
  {
    Includes(ToLower(o.bagNo), ToLower(term))
  }

  function OrderFilter(tab: Tab, term: string): Order -> bool
  {
    o => MatchesTab(o, tab) && MatchesSearch(o, term)
  }

  /** `filteredOrders`: the orders on the selected tab whose bag number
      contains the search term, in their original order. */
  function FilteredOrders(orders: seq<Order>, tab: Tab, term: string): (r: seq<Order>)
    ensures IsSubsequence(r, orders)
    ensures forall o :: o in r <==> o in orders && MatchesTab(o, tab) && MatchesSearch(o, term)
  {
    FilterIsSubsequence(OrderFilter(tab, term), orders);
    Filter(OrderFilter(tab, term), orders)
  }

  /** The "all" tab with an empty search shows every order. */
  lemma AllTabEmptySearchShowsEverything(orders: seq<Order>)
    ensures FilteredOrders(orders, AllTab, "") == orders
  {
    forall o | o in orders
      ensures OrderFilter(AllTab, "")(o)
    {
      IncludesEmpty(ToLower(o.bagNo));
    }
    FilterAll(OrderFilter(AllTab, ""), orders);
  }

  /** When every order has a known status, the three status tabs split the
      "all" tab: no order is on two of them and together they hold all of it. */
  lemma StatusTabsPartitionAll(orders: seq<Order>, term: string)
    requires forall o :: o in orders ==> ParseStatus(o.status).Some?
    ensures |FilteredOrders(orders, StatusTab(Pending), term)|
          + |FilteredOrders(orders, StatusTab(InProgress), term)|
          + |FilteredOrders(orders, StatusTab(Complete), term)|
         == |FilteredOrders(orders, AllTab, term)|
    ensures forall o :: o in FilteredOrders(orders, AllTab, term) ==>
          o in FilteredOrders(orders, StatusTab(ParseStatus(o.status).value), term)
    ensures forall o, s, t :: s != t && o in FilteredOrders(orders, StatusTab(s), term) ==>
          o !in FilteredOrders(orders, StatusTab(t), term)
  {
    FilterThreeWay(OrderFilter(AllTab, term), OrderFilter(StatusTab(Pending), term),
      OrderFilter(StatusTab(InProgress), term), OrderFilter(StatusTab(Complete), term), orders);
  }

  // ---------------------------------------------------------------------
  // A student's completed and incomplete orders
  // ---------------------------------------------------------------------

  predicate IsComplete(o: Order)
  {
    o.status == "complete"
  }

  predicate IsIncomplete(o: Order)
  {
    o.status != "complete"
  }

  /** The list of the completed-orders screen. */
  function CompletedOrders(orders: seq<Order>): (r: seq<Order>)
    ensures IsSubsequence(r, orders)
    ensures forall o :: o in r <==> o in orders && o.status == "complete"
  {
    FilterIsSubsequence(IsComplete, orders);
    Filter(IsComplete, orders)
  }

  /** The list of the incomplete-orders screen: every status but `complete`,
      unknown ones included. */
  function IncompleteOrders(orders: seq<Order>): (r: seq<Order>)
    ensures IsSubsequence(r, orders)
    ensures forall o :: o in r <==> o in orders && o.status != "complete"
  {
    FilterIsSubsequence(IsIncomplete, orders);
    Filter(IsIncomplete, orders)
  }

  /** The two screens split a student's orders between them. */
  lemma CompletedIncompletePartition(orders: seq<Order>)
    ensures |CompletedOrders(orders)| + |IncompleteOrders(orders)| == |orders|
    ensures forall o :: o in orders ==> (o in CompletedOrders(orders) <==> o !in IncompleteOrders(orders))
  {
    FilterComplement(IsComplete, IsIncomplete, orders);
  }

  // ---------------------------------------------------------------------
  // What an order card shows
  // ---------------------------------------------------------------------

  /** The date shown for an order: its submission date, or else its `date` field. */
  datatype DateShown = Submitted(timestamp: int) | Recorded(date: Option<string>)

  function ShownDate(o: Order): (r: DateShown)
    ensures r.Submitted? <==> o.submissionDate.Some?
    ensures r.Submitted? ==> r.timestamp == o.submissionDate.value
    ensures r.Recorded? ==> r.date == o.legacyDate
  {
    if o.submissionDate.Some? then Submitted(o.submissionDate.value) else Recorded(o.legacyDate)
  }

  /** `number_of_clothes || count`: zero and absent fall back to `count`. */
  function ShownClothes(o: Order): (r: Option<int>)
    ensures o.clothes.Some? && o.clothes.value != 0 ==> r == o.clothes
    ensures o.clothes.None? || o.clothes.value == 0 ==> r == o.legacyCount
  {
    if o.clothes.Some? && o.clothes.value != 0 then o.clothes else o.legacyCount
  }

  /** The error text a screen shows after fetching orders, the same on the
      washerman dashboard and on both student order screens: an earlier error
      stays when the fetch succeeds. */
  function FetchOrdersError<T>(resp: Response<T>, previous: string): (r: string)
    ensures resp.Ok? ==> r == previous
    ensures resp.NotOk? ==> r == "Failed to fetch orders"
    ensures resp.NetworkError? ==> r == "Network error while fetching orders"
  {
    match resp
    case Ok(_) => previous
    case NotOk(_) => "Failed to fetch orders"
    case NetworkError => "Network error while fetching orders"
  }
}
