/** The staff side: the order dashboard with its status buttons, the
    statistics screen, and the staff navigation bar with its hand-set
    open/closed indicator. */
module Staff {
  import opened Common
  import opened Lifecycle
  import opened Session
  import opened Service
  import opened Language

  // ---------------------------------------------------------------------
  // Order dashboard
  // ---------------------------------------------------------------------

  /** `PUT /api/orders/{orderId}/status/` with body `{status}`. */
  datatype StatusUpdate = StatusUpdate(orderId: int, status: Status)

  /** The request a card's button sends for an order, if the card has one. */
  function ButtonRequest(o: Order): (r: Option<StatusUpdate>)
    ensures r.Some? <==> ActionFor(o.status).Some?
    ensures r.Some? ==> r.value.orderId == o.id
    ensures r.Some? ==> Successor(ParseStatus(o.status).value) == Some(r.value.status)
  {
    match ActionFor(o.status)
    case Some(a) => Some(StatusUpdate(o.id, Requested(a)))
    case None => None
  }

  /** A button only ever asks for the status right after the card's one, so
      pressing the buttons of one order in turn walks it from `pending` to
      `complete` in exactly two requests and then offers nothing more. */
  lemma ButtonsWalkTheLifecycle(o: Order)
    requires o.status == "pending"
    ensures ButtonRequest(o) == Some(StatusUpdate(o.id, InProgress))
    ensures ButtonRequest(o.(status := Name(InProgress))) == Some(StatusUpdate(o.id, Complete))
    ensures ButtonRequest(o.(status := Name(Complete))) == None
  {
  }

  class WashermanDashboard {
    var selectedTab: Tab
    var searchTerm: string
    var orders: seq<Order>
    var loading: bool
    var error: string
    var washermanData: Option<Record>

    constructor ()
      ensures selectedTab == AllTab && searchTerm == "" && orders == []
      ensures loading && error == "" && washermanData == None
    {
      selectedTab, searchTerm, orders := AllTab, "", [];
      loading, error, washermanData := true, "", None;
    }

    /** The cards on screen: the orders of the selected tab whose bag number
        contains the search term. */
    function Visible(): (r: seq<Order>)
      reads this
      ensures IsSubsequence(r, orders)
      ensures forall o :: o in r <==> o in orders && MatchesTab(o, selectedTab) && MatchesSearch(o, searchTerm)
    {
      FilteredOrders(orders, selectedTab, searchTerm)
    }

    /** The mount effect: the staff gate, then the first fetch of all orders
        (`resp`) when the gate lets the washerman through. */
    method Mount(store: Storage, c: Codec, resp: Response<seq<Order>>) returns (redirect: Option<string>)
      modifies this
      ensures WashermanGate(store.items, c).Proceed? ==>
        && redirect == None
        && washermanData == Some(WashermanGate(store.items, c).profile)
        && !loading
        && orders == (if resp.Ok? then resp.data else old(orders))
        && error == FetchOrdersError(resp, old(error))
      ensures WashermanGate(store.items, c).Redirect? ==>
        && redirect == Some(WashermanGate(store.items, c).to)
        && washermanData == old(washermanData) && orders == old(orders)
        && loading == old(loading) && error == old(error)
      ensures selectedTab == old(selectedTab) && searchTerm == old(searchTerm)
    {
      match WashermanGate(store.items, c) {
        case Proceed(w) =>
          washermanData := Some(w);
          redirect := None;
          FetchOrders(resp);
        case Redirect(to) =>
          redirect := Some(to);
      }
    }

    /** `fetchOrders`: the list is replaced on success and kept otherwise;
        loading ends whatever the outcome. */
    method FetchOrders(resp: Response<seq<Order>>)
      modifies this
      ensures !loading
      ensures orders == (if resp.Ok? then resp.data else old(orders))
      ensures error == FetchOrdersError(resp, old(error))
      ensures selectedTab == old(selectedTab) && searchTerm == old(searchTerm)
      ensures washermanData == old(washermanData)
    {
      loading := true;
      match resp {
        case Ok(data) =>
          orders := data;
        case NotOk(_) =>
          error := "Failed to fetch orders";
        case NetworkError =>
          error := "Network error while fetching orders";
      }
      loading := false;
    }

    /** `handleStatusUpdate`: send the update (`resp` is its outcome) and,
        when it succeeds, fetch the orders again (`refetch`). */
    method HandleStatusUpdate(orderId: int, newStatus: Status, resp: Response<()>, refetch: Response<seq<Order>>)
      returns (request: StatusUpdate)
      modifies this
      ensures request == StatusUpdate(orderId, newStatus)
      ensures resp.Ok? ==>
        && !loading
        && orders == (if refetch.Ok? then refetch.data else old(orders))
        && error == FetchOrdersError(refetch, old(error))
      ensures !resp.Ok? ==> orders == old(orders) && loading == old(loading)
      ensures resp.NotOk? ==> error == ErrorOr(resp.error, "Failed to update order status")
      ensures resp.NetworkError? ==> error == "Network error while updating order status"
      ensures selectedTab == old(selectedTab) && searchTerm == old(searchTerm)
      ensures washermanData == old(washermanData)
    {
      request := StatusUpdate(orderId, newStatus);
      match resp {
        case Ok(_) =>
          FetchOrders(refetch);
        case NotOk(e) =>
          error := ErrorOr(e, "Failed to update order status");
        case NetworkError =>
          error := "Network error while updating order status";
      }
    }

    /** "Mark as Received": ask for `inprogress`. */
    method HandleReceived(orderId: int, resp: Response<()>, refetch: Response<seq<Order>>)
      returns (request: StatusUpdate)
      modifies this
      ensures request == StatusUpdate(orderId, InProgress)
      ensures resp.Ok? ==>
        && !loading
        && orders == (if refetch.Ok? then refetch.data else old(orders))
        && error == FetchOrdersError(refetch, old(error))
      ensures !resp.Ok? ==> orders == old(orders) && loading == old(loading)
      ensures resp.NotOk? ==> error == ErrorOr(resp.error, "Failed to update order status")
      ensures resp.NetworkError? ==> error == "Network error while updating order status"
      ensures selectedTab == old(selectedTab) && searchTerm == old(searchTerm)
      ensures washermanData == old(washermanData)
    {
      request := HandleStatusUpdate(orderId, InProgress, resp, refetch);
    }

    /** "Mark as Ready": ask for `complete`. */
    method HandleReady(orderId: int, resp: Response<()>, refetch: Response<seq<Order>>)
      returns (request: StatusUpdate)
      modifies this
      ensures request == StatusUpdate(orderId, Complete)
      ensures resp.Ok? ==>
        && !loading
        && orders == (if refetch.Ok? then refetch.data else old(orders))
        && error == FetchOrdersError(refetch, old(error))
      ensures !resp.Ok? ==> orders == old(orders) && loading == old(loading)
      ensures resp.NotOk? ==> error == ErrorOr(resp.error, "Failed to update order status")
      ensures resp.NetworkError? ==> error == "Network error while updating order status"
      ensures selectedTab == old(selectedTab) && searchTerm == old(searchTerm)
      ensures washermanData == old(washermanData)
    {
      request := HandleStatusUpdate(orderId, Complete, resp, refetch);
    }

    /** Pressing the button of an order card: a pending order is marked
        received, an order in progress is marked ready, any other card has no
        button and nothing happens. */
    method PressButton(o: Order, resp: Response<()>, refetch: Response<seq<Order>>)
      returns (request: Option<StatusUpdate>)
      modifies this
      ensures request == ButtonRequest(o)
      ensures request.None? ==>
        && orders == old(orders) && loading == old(loading) && error == old(error)
      ensures request.Some? && resp.Ok? ==>
        && !loading
        && orders == (if refetch.Ok? then refetch.data else old(orders))
        && error == FetchOrdersError(refetch, old(error))
      ensures request.Some? && !resp.Ok? ==> orders == old(orders) && loading == old(loading)
      ensures request.Some? && resp.NotOk? ==> error == ErrorOr(resp.error, "Failed to update order status")
      ensures request.Some? && resp.NetworkError? ==> error == "Network error while updating order status"
      ensures selectedTab == old(selectedTab) && searchTerm == old(searchTerm)
      ensures washermanData == old(washermanData)
    {
      if o.status == "pending" {
        var r := HandleReceived(o.id, resp, refetch);
        request := Some(r);
      } else if o.status == "inprogress" {
        var r := HandleReady(o.id, resp, refetch);
        request := Some(r);
      } else {
        request := None;
      }
    }

    /** Choosing a tab. */
    method SelectTab(tab: Tab)
      modifies this
      ensures selectedTab == tab && searchTerm == old(searchTerm) && orders == old(orders)
      ensures loading == old(loading) && error == old(error) && washermanData == old(washermanData)
    {
      selectedTab := tab;
    }

    /** Typing in the search box. */
    method SetSearchTerm(term: string)
      modifies this
      ensures searchTerm == term && selectedTab == old(selectedTab) && orders == old(orders)
      ensures loading == old(loading) && error == old(error) && washermanData == old(washermanData)
    {
      searchTerm := term;
    }
  }

  // ---------------------------------------------------------------------
  // Statistics
  // ---------------------------------------------------------------------

  /** The body of `GET /api/washerman/dashboard/`. */
  datatype Aggregate = Aggregate(totalOrders: int, pendingOrders: int, inprogressOrders: int, completeOrders: int)

  /** The recent-activity list: the first ten orders of the list, or all of
      them when there are fewer. */
  function RecentOrders(orders: seq<Order>): (r: seq<Order>)
    ensures |r| == if |orders| < 10 then |orders| else 10
    ensures forall i :: 0 <= i < |r| ==> r[i] == orders[i]
  {
    if |orders| < 10 then orders else orders[..10]
  }

  /** `Math.round(part / whole * 100)` in exact arithmetic: the integer
      nearest to the percentage, halves rounded up. */
  function RoundedPercent(part: int, whole: int): (r: int)
    requires whole > 0
    ensures 2 * whole * r <= 200 * part + whole < 2 * whole * (r + 1)
  {
    var n := 200 * part + whole;
    var d := 2 * whole;
    assert n == d * (n / d) + n % d;
    n / d
  }

  /** The completion-rate card: a percentage when there are orders, the
      "No orders yet" text (`None`) otherwise. */
  function CompletionRate(stats: Aggregate): (r: Option<int>)
    ensures r.Some? <==> stats.totalOrders > 0
    ensures r.Some? ==>
      && 2 * stats.totalOrders * r.value <= 200 * stats.completeOrders + stats.totalOrders
      && 200 * stats.completeOrders + stats.totalOrders < 2 * stats.totalOrders * (r.value + 1)
  {
    if stats.totalOrders > 0 then Some(RoundedPercent(stats.completeOrders, stats.totalOrders)) else None
  }

  /** Multiplying by a positive number keeps strict order, both ways. */
  lemma ScaleStrict(k: int, a: int, b: int)
    requires k > 0
    ensures k * a < k * b <==> a < b
  {
    if a < b {
      assert k * b - k * a == k * (b - a);
    } else {
      assert k * a - k * b == k * (a - b);
    }
  }

  /** The rate of a consistent summary is a percentage: none completed is 0,
      all completed is 100. */
  lemma CompletionRateIsPercentage(stats: Aggregate)
    requires 0 <= stats.completeOrders <= stats.totalOrders && stats.totalOrders > 0
    ensures 0 <= CompletionRate(stats).value <= 100
    ensures stats.completeOrders == 0 ==> CompletionRate(stats).value == 0
    ensures stats.completeOrders == stats.totalOrders ==> CompletionRate(stats).value == 100
  {
    var t, c, r := stats.totalOrders, stats.completeOrders, CompletionRate(stats).value;
    var k := 2 * t;
    // lower bound: k * 0 < 200c + t < k * (r + 1)
    ScaleStrict(k, 0, r + 1);
    // upper bound: k * r <= 200c + t <= 201t < k * 101
    ScaleStrict(k, r, 101);
    if c == 0 {
      ScaleStrict(k, r, 1);
    }
    if c == t {
      ScaleStrict(k, 100, r + 1);
    }
  }

  /** Two of five orders completed reads as 40%, one of three as 33%, two of
      three as 67%, one of eight (12.5%) as 13%. */
  lemma CompletionRateExamples()
    ensures CompletionRate(Aggregate(5, 2, 1, 2)) == Some(40)
    ensures CompletionRate(Aggregate(3, 1, 1, 1)) == Some(33)
    ensures CompletionRate(Aggregate(3, 0, 1, 2)) == Some(67)
    ensures CompletionRate(Aggregate(8, 7, 0, 1)) == Some(13)
    ensures CompletionRate(Aggregate(0, 0, 0, 0)) == None
  {
  }

  class Stats {
    var washermanData: Option<Record>
    var statsData: Option<Aggregate>
    var recentOrders: seq<Order>
    var loading: bool
    var error: string

    constructor ()
      ensures washermanData == None && statsData == None && recentOrders == []
      ensures loading && error == ""
    {
      washermanData, statsData, recentOrders := None, None, [];
      loading, error := true, "";
    }

    /** The mount effect: the staff gate, then the summary (`statsResp`) and
        the order list (`ordersResp`), taken in that order. */
    method Mount(store: Storage, c: Codec, statsResp: Response<Aggregate>, ordersResp: Response<seq<Order>>)
      returns (redirect: Option<string>)
      modifies this
      ensures WashermanGate(store.items, c).Proceed? ==>
        && redirect == None
        && washermanData == Some(WashermanGate(store.items, c).profile)
        && !loading
        && statsData == (if statsResp.Ok? then Some(statsResp.data) else old(statsData))
        && recentOrders == (if ordersResp.Ok? then RecentOrders(ordersResp.data) else old(recentOrders))
      ensures WashermanGate(store.items, c).Redirect? ==>
        && redirect == Some(WashermanGate(store.items, c).to)
        && washermanData == old(washermanData)
        && statsData == old(statsData) && recentOrders == old(recentOrders)
        && loading == old(loading) && error == old(error)
    {
      match WashermanGate(store.items, c) {
        case Proceed(w) =>
          washermanData := Some(w);
          redirect := None;
          FetchStatsData(statsResp);
          FetchRecentOrders(ordersResp);
        case Redirect(to) =>
          redirect := Some(to);
      }
    }

    /** `fetchStatsData`: it does not touch `loading`. */
    method FetchStatsData(resp: Response<Aggregate>)
      modifies this
      ensures statsData == (if resp.Ok? then Some(resp.data) else old(statsData))
      ensures resp.Ok? ==> error == old(error)
      ensures resp.NotOk? ==> error == "Failed to fetch statistics"
      ensures resp.NetworkError? ==> error == "Network error while fetching statistics"
      ensures loading == old(loading) && recentOrders == old(recentOrders)
      ensures washermanData == old(washermanData)
    {
      match resp {
        case Ok(data) =>
          statsData := Some(data);
        case NotOk(_) =>
          error := "Failed to fetch statistics";
        case NetworkError =>
          error := "Network error while fetching statistics";
      }
    }

    /** `fetchRecentOrders`: keeps the first ten orders and ends loading. */
    method FetchRecentOrders(resp: Response<seq<Order>>)
      modifies this
      ensures !loading
      ensures recentOrders == (if resp.Ok? then RecentOrders(resp.data) else old(recentOrders))
      ensures resp.Ok? ==> error == old(error)
      ensures resp.NotOk? ==> error == "Failed to fetch recent orders"
      ensures resp.NetworkError? ==> error == "Network error while fetching recent orders"
      ensures statsData == old(statsData) && washermanData == old(washermanData)
    {
      match resp {
        case Ok(data) =>
          recentOrders := RecentOrders(data);
        case NotOk(_) =>
          error := "Failed to fetch recent orders";
        case NetworkError =>
          error := "Network error while fetching recent orders";
      }
      loading := false;
    }

    /** `handleLogout`: end the washerman's session and go home. */
    method HandleLogout(store: Storage) returns (navigateTo: string)
      modifies store
      ensures store.items == SessionCleared(old(store.items), WashermanDataKey)
      ensures navigateTo == "/home"
    {
      store.RemoveItem(WashermanDataKey);
      store.RemoveItem(IsLoggedInKey);
      store.RemoveItem(UserTypeKey);
      navigateTo := "/home";
    }
  }

  // ---------------------------------------------------------------------
  // Staff navigation bar
  // ---------------------------------------------------------------------

  class StaffNavbar {
    var serviceStatus: ServiceState
    var isDropdownOpen: bool
    var isLangOpen: bool
    var isMobileMenuOpen: bool

    /** The indicator starts out "Open", every menu closed. */
    constructor ()
      ensures serviceStatus == StateFor(true) && Valid()
      ensures !isDropdownOpen && !isLangOpen && !isMobileMenuOpen
    {
      serviceStatus := StateFor(true);
      isDropdownOpen, isLangOpen, isMobileMenuOpen := false, false, false;
    }

    /** Whatever the buttons did, the indicator's label and colour agree with
        its state. */
    predicate Valid()
      reads this
    {
      Consistent(serviceStatus)
    }

    /** `handleStatusToggle`. */
    method HandleStatusToggle()
      modifies this
      ensures serviceStatus == Toggled(old(serviceStatus)) && Valid()
      ensures isDropdownOpen == old(isDropdownOpen) && isLangOpen == old(isLangOpen)
      ensures isMobileMenuOpen == old(isMobileMenuOpen)
    {
      serviceStatus := Toggled(serviceStatus);
    }

    /** The "Open" button: the indicator is open however often it is pressed. */
    method SetOpen()
      modifies this
      ensures serviceStatus == StateFor(true) && Valid()
      ensures isDropdownOpen == old(isDropdownOpen) && isLangOpen == old(isLangOpen)
      ensures isMobileMenuOpen == old(isMobileMenuOpen)
    {
      serviceStatus := StateFor(true);
    }

    /** The "Closed" button. */
    method SetClosed()
      modifies this
      ensures serviceStatus == StateFor(false) && Valid()
      ensures isDropdownOpen == old(isDropdownOpen) && isLangOpen == old(isLangOpen)
      ensures isMobileMenuOpen == old(isMobileMenuOpen)
    {
      serviceStatus := StateFor(false);
    }

    /** `handleLogout`: end the washerman's session, close the profile menu,
        go home. */
    method HandleLogout(store: Storage) returns (navigateTo: string)
      modifies this, store
      ensures store.items == SessionCleared(old(store.items), WashermanDataKey)
      ensures !isDropdownOpen && navigateTo == "/home"
      ensures serviceStatus == old(serviceStatus) && isLangOpen == old(isLangOpen)
      ensures isMobileMenuOpen == old(isMobileMenuOpen)
    {
      store.RemoveItem(WashermanDataKey);
      store.RemoveItem(IsLoggedInKey);
      store.RemoveItem(UserTypeKey);
      isDropdownOpen := false;
      navigateTo := "/home";
    }

    /** The mobile menu's "Sign Out": close the menu, then log out. */
    method MobileSignOut(store: Storage) returns (navigateTo: string)
      modifies this, store
      ensures store.items == SessionCleared(old(store.items), WashermanDataKey)
      ensures !isMobileMenuOpen && !isDropdownOpen && navigateTo == "/home"
      ensures serviceStatus == old(serviceStatus) && isLangOpen == old(isLangOpen)
    {
      isMobileMenuOpen := false;
      navigateTo := HandleLogout(store);
    }

    /** Choosing a language in the menu: switch and persist it, close the menu. */
    method ChooseLanguage(lang: string, provider: LanguageProvider, store: Storage)
      modifies this, provider, store
      ensures provider.language == lang && !isLangOpen
      ensures store.items == old(store.items)[LanguageKey := lang]
      ensures serviceStatus == old(serviceStatus) && isDropdownOpen == old(isDropdownOpen)
      ensures isMobileMenuOpen == old(isMobileMenuOpen)
    {
      provider.SetLanguage(lang, store);
      isLangOpen := false;
    }
  }
}
