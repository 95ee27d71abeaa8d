/** The staff "student lookup" screen: the whole order list is grouped by bag
    number on the client (one entry per bag with its order count and latest
    submission date), and the groups whose bag number contains the search term
    are shown. */
module Lookup {
  import opened Common
  import opened Lifecycle
  import opened Session

  /** One search result: `{bag_no, total_orders, latest_order}`. */
  datatype BagGroup = BagGroup(bagNo: string, totalOrders: nat, latestOrder: Option<int>)

  /** `new Date(a) > new Date(b)`: false as soon as either date is missing,
      since an invalid date compares false with everything. */
  predicate Later(a: Option<int>, b: Option<int>)
  {
    a.Some? && b.Some? && a.value > b.value
  }

  predicate HasBag(orders: seq<Order>, b: string)
  {
    exists i :: 0 <= i < |orders| && orders[i].bagNo == b
  }

  function Init(orders: seq<Order>): seq<Order>
    requires |orders| > 0
  {
    orders[..|orders| - 1]
  }

  function Last(orders: seq<Order>): Order
    requires |orders| > 0
  {
    orders[|orders| - 1]
  }

  lemma HasBagInit(orders: seq<Order>, b: string)
    requires |orders| > 0
    ensures HasBag(orders, b) <==> HasBag(Init(orders), b) || Last(orders).bagNo == b
  {
    if HasBag(orders, b) && Last(orders).bagNo != b {
      var i :| 0 <= i < |orders| && orders[i].bagNo == b;
      assert Init(orders)[i].bagNo == b;
    }
    if HasBag(Init(orders), b) {
      var i :| 0 <= i < |Init(orders)| && Init(orders)[i].bagNo == b;
      assert orders[i].bagNo == b;
    }
  }

  /** The distinct bag numbers in the order of their first appearance. */
  function Bags(orders: seq<Order>): (r: seq<string>)
    ensures forall b :: b in r <==> HasBag(orders, b)
    ensures forall i, j :: 0 <= i < j < |r| ==> r[i] != r[j]
  {
    if |orders| == 0 then []
    else
      HasBagInit(orders, Last(orders).bagNo);
      var prev := Bags(Init(orders));
      forall b ensures b in prev + [Last(orders).bagNo] <==> HasBag(orders, b) {
        HasBagInit(orders, b);
      }
      if Last(orders).bagNo in prev then prev else prev + [Last(orders).bagNo]
  }

  /** The position of the first order with bag number `b`. */
  function FirstIndex(orders: seq<Order>, b: string): (i: nat)
    requires HasBag(orders, b)
    ensures i < |orders| && orders[i].bagNo == b
    ensures forall j :: 0 <= j < i ==> orders[j].bagNo != b
  {
    HasBagInit(orders, b);
    if HasBag(Init(orders), b) then FirstIndex(Init(orders), b) else |orders| - 1
  }

  /** The number of orders with bag number `b`. */
  function CountBag(orders: seq<Order>, b: string): nat
  {
    if |orders| == 0 then 0
    else CountBag(Init(orders), b) + if Last(orders).bagNo == b then 1 else 0
  }

  /** The largest of `lo` and the dates of the orders with bag number `b` that
      have one. */
  function MaxDate(orders: seq<Order>, b: string, lo: int): (m: int)
    ensures m >= lo
    ensures forall i :: 0 <= i < |orders| && orders[i].bagNo == b && orders[i].submissionDate.Some? ==>
      orders[i].submissionDate.value <= m
    ensures m == lo || exists i :: 0 <= i < |orders| && orders[i].bagNo == b && orders[i].submissionDate == Some(m)
  {
    if |orders| == 0 then lo
    else
      var m := MaxDate(Init(orders), b, lo);
      var o := Last(orders);
      assert forall i :: 0 <= i < |orders| - 1 ==> orders[i] == Init(orders)[i];
      if o.bagNo == b && o.submissionDate.Some? && o.submissionDate.value > m then o.submissionDate.value else m
  }

  /** The latest order date of bag `b` as the screen computes it: absent when
      the bag's first order has no date (a missing date is never replaced),
      otherwise the maximum date over the bag's orders. */
  function LatestDate(orders: seq<Order>, b: string): (r: Option<int>)
    requires HasBag(orders, b)
    ensures r.Some? <==> orders[FirstIndex(orders, b)].submissionDate.Some?
    ensures r.Some? ==> forall i :: 0 <= i < |orders| && orders[i].bagNo == b && orders[i].submissionDate.Some? ==>
      orders[i].submissionDate.value <= r.value
    ensures r.Some? ==> exists i :: 0 <= i < |orders| && orders[i].bagNo == b && orders[i].submissionDate == r
  {
    var first := orders[FirstIndex(orders, b)].submissionDate;
    if first.None? then None else Some(MaxDate(orders, b, first.value))
  }

  /** The entry of bag `b` after folding over all of `orders`. */
  function GroupFor(orders: seq<Order>, b: string): BagGroup
    requires HasBag(orders, b)
  {
    BagGroup(b, CountBag(orders, b), LatestDate(orders, b))
  }

  /** The grouped orders, one entry per bag in first-appearance order. */
  function Grouped(orders: seq<Order>): (r: seq<BagGroup>)
    ensures |r| == |Bags(orders)|
    ensures forall k :: 0 <= k < |r| ==> r[k] == GroupFor(orders, Bags(orders)[k])
  {
    var bags := Bags(orders);
    seq(|bags|, k requires 0 <= k < |bags| => GroupFor(orders, bags[k]))
  }

  // ---------------------------------------------------------------------
  // The loop of the screen (`orders.forEach` over a `Map`)
  // ---------------------------------------------------------------------

  /** The effect of one more order on the entry of bag `b`. */
  lemma {:induction false} GroupForSnoc(orders: seq<Order>, n: nat, b: string)
    requires 0 < n <= |orders|
    requires HasBag(orders[..n], b)
    ensures var s, o := orders[..n - 1], orders[n - 1];
      && (b != o.bagNo ==> HasBag(s, b) && GroupFor(orders[..n], b) == GroupFor(s, b))
      && (b == o.bagNo && !HasBag(s, b) ==> GroupFor(orders[..n], b) == BagGroup(b, 1, o.submissionDate))
      && (b == o.bagNo && HasBag(s, b) ==>
            var g := GroupFor(s, b);
            GroupFor(orders[..n], b) ==
              BagGroup(b, g.totalOrders + 1,
                if Later(o.submissionDate, g.latestOrder) then o.submissionDate else g.latestOrder))
  {
    var t := orders[..n];
    var s, o := orders[..n - 1], orders[n - 1];
    assert Init(t) == s && Last(t) == o;
    HasBagInit(t, b);
    if b == o.bagNo && !HasBag(s, b) {
      assert FirstIndex(t, b) == n - 1;
      MaxDateAbsent(s, b, if o.submissionDate.Some? then o.submissionDate.value else 0);
      CountBagAbsent(s, b);
    }
  }

  lemma {:induction false} MaxDateAbsent(orders: seq<Order>, b: string, lo: int)
    requires !HasBag(orders, b)
    ensures MaxDate(orders, b, lo) == lo
  {
    if |orders| > 0 {
      HasBagInit(orders, b);
      MaxDateAbsent(Init(orders), b, lo);
    }
  }

  lemma {:induction false} CountBagAbsent(orders: seq<Order>, b: string)
    requires !HasBag(orders, b)
    ensures CountBag(orders, b) == 0
  {
    if |orders| > 0 {
      HasBagInit(orders, b);
      CountBagAbsent(Init(orders), b);
    }
  }

  /** `searchStudents`' grouping loop: a map from bag number to entry, filled
      in the order the bags first appear, counting each order and replacing
      the latest date by a strictly later one. */
  method GroupByBag(orders: seq<Order>) returns (groups: seq<BagGroup>)
    ensures groups == Grouped(orders)
  {
    var keys: seq<string> := [];
    var table: map<string, BagGroup> := map[];
    var i := 0;
    while i < |orders|
      invariant 0 <= i <= |orders|
      invariant keys == Bags(orders[..i])
      invariant forall b :: b in table <==> b in keys
      invariant forall b :: b in table ==> HasBag(orders[..i], b) && table[b] == GroupFor(orders[..i], b)
    {
      var o := orders[i];
      assert Init(orders[..i + 1]) == orders[..i] && Last(orders[..i + 1]) == o;
      if o.bagNo !in table {
        keys := keys + [o.bagNo];
        table := table[o.bagNo := BagGroup(o.bagNo, 0, o.submissionDate)];
      }
      table := table[o.bagNo := table[o.bagNo].(totalOrders := table[o.bagNo].totalOrders + 1)];
      if Later(o.submissionDate, table[o.bagNo].latestOrder) {
        table := table[o.bagNo := table[o.bagNo].(latestOrder := o.submissionDate)];
      }
      forall b | b in table
        ensures HasBag(orders[..i + 1], b) && table[b] == GroupFor(orders[..i + 1], b)
      {
        HasBagInit(orders[..i + 1], b);
        GroupForSnoc(orders, i + 1, b);
      }
      i := i + 1;
    }
    assert orders[..i] == orders;
    groups := seq(|keys|, k requires 0 <= k < |keys| => table[keys[k]]);
  }

  // ---------------------------------------------------------------------
  // What the grouping promises
  // ---------------------------------------------------------------------

  /** Bags are listed in the order their first orders appear. */
  lemma {:induction false} BagsInFirstAppearanceOrder(orders: seq<Order>)
    ensures forall i, j :: 0 <= i < j < |Bags(orders)| ==>
      FirstIndex(orders, Bags(orders)[i]) < FirstIndex(orders, Bags(orders)[j])
  {
    if |orders| > 0 {
      var s, o := Init(orders), Last(orders);
      BagsInFirstAppearanceOrder(s);
      var bags, prev := Bags(orders), Bags(s);
      forall k | 0 <= k < |prev|
        ensures FirstIndex(orders, prev[k]) == FirstIndex(s, prev[k])
      {
        HasBagInit(orders, prev[k]);
      }
      if o.bagNo !in prev {
        HasBagInit(orders, o.bagNo);
        assert FirstIndex(orders, o.bagNo) == |orders| - 1;
      }
    }
  }

  function SumTotals(groups: seq<BagGroup>): nat
  {
    if |groups| == 0 then 0 else groups[0].totalOrders + SumTotals(groups[1..])
  }

  function SumCounts(orders: seq<Order>, bags: seq<string>): nat
  {
    if |bags| == 0 then 0 else CountBag(orders, bags[0]) + SumCounts(orders, bags[1..])
  }

  function Occurrences(bags: seq<string>, b: string): nat
  {
    if |bags| == 0 then 0 else (if bags[0] == b then 1 else 0) + Occurrences(bags[1..], b)
  }

  lemma {:induction false} OccurrencesDistinct(bags: seq<string>, b: string)
    requires forall i, j :: 0 <= i < j < |bags| ==> bags[i] != bags[j]
    ensures Occurrences(bags, b) == if b in bags then 1 else 0
  {
    if |bags| > 0 {
      OccurrencesDistinct(bags[1..], b);
      assert b in bags <==> b == bags[0] || b in bags[1..];
      if b == bags[0] {
        assert b !in bags[1..] by {
          forall k | 0 <= k < |bags[1..]| ensures bags[1..][k] != b {
            assert bags[1..][k] == bags[k + 1];
          }
        }
      }
    }
  }

  lemma {:induction false} SumCountsSnoc(orders: seq<Order>, bags: seq<string>)
    requires |orders| > 0
    ensures SumCounts(orders, bags) == SumCounts(Init(orders), bags) + Occurrences(bags, Last(orders).bagNo)
  {
    if |bags| > 0 {
      SumCountsSnoc(orders, bags[1..]);
    }
  }

  lemma {:induction false} SumCountsAppend(orders: seq<Order>, bags: seq<string>, b: string)
    ensures SumCounts(orders, bags + [b]) == SumCounts(orders, bags) + CountBag(orders, b)
  {
    if |bags| > 0 {
      assert (bags + [b])[1..] == bags[1..] + [b];
      SumCountsAppend(orders, bags[1..], b);
    }
  }

  lemma {:induction false} SumCountsOfBags(orders: seq<Order>)
    ensures SumCounts(orders, Bags(orders)) == |orders|
  {
    if |orders| > 0 {
      var s, o := Init(orders), Last(orders);
      SumCountsOfBags(s);
      var prev := Bags(s);
      SumCountsSnoc(orders, prev);
      OccurrencesDistinct(prev, o.bagNo);
      if o.bagNo !in prev {
        SumCountsAppend(orders, prev, o.bagNo);
        CountBagAbsent(s, o.bagNo);
      }
    }
  }

  lemma {:induction false} SumTotalsIsSumCounts(orders: seq<Order>, groups: seq<BagGroup>, bags: seq<string>)
    requires |groups| == |bags|
    requires forall k :: 0 <= k < |groups| ==> groups[k].totalOrders == CountBag(orders, bags[k])
    ensures SumTotals(groups) == SumCounts(orders, bags)
  {
    if |groups| > 0 {
      SumTotalsIsSumCounts(orders, groups[1..], bags[1..]);
    }
  }

  /** Every order is counted in exactly one entry: the totals add up to the
      number of orders. */
  lemma TotalsSumToOrderCount(orders: seq<Order>)
    ensures SumTotals(Grouped(orders)) == |orders|
  {
    SumTotalsIsSumCounts(orders, Grouped(orders), Bags(orders));
    SumCountsOfBags(orders);
  }

  // ---------------------------------------------------------------------
  // Filtering by the search term
  // ---------------------------------------------------------------------

  /** Case-insensitive `includes` of the search term in the bag number. */
  predicate MatchesTerm(g: BagGroup, term: string)
  {
    Includes(ToLower(g.bagNo), ToLower(term))
  }

  function GroupFilter(term: string): BagGroup -> bool
  {
    g => MatchesTerm(g, term)
  }

  /** `filteredStudents`: the entries whose bag number contains the term. */
  function MatchingGroups(groups: seq<BagGroup>, term: string): (r: seq<BagGroup>)
    ensures IsSubsequence(r, groups)
    ensures forall g :: g in r <==> g in groups && MatchesTerm(g, term)
  {
    FilterIsSubsequence(GroupFilter(term), groups);
    Filter(GroupFilter(term), groups)
  }

  /** The search results, their bag numbers, counts and dates, all at once. */
  lemma SearchResultsAreTheMatchingBags(orders: seq<Order>, term: string)
    ensures forall g :: g in MatchingGroups(Grouped(orders), term) <==>
      && HasBag(orders, g.bagNo)
      && MatchesTerm(g, term)
      && g == GroupFor(orders, g.bagNo)
  {
    var groups := Grouped(orders);
    forall g: BagGroup | HasBag(orders, g.bagNo) && g == GroupFor(orders, g.bagNo)
      ensures g in groups
    {
      var bags := Bags(orders);
      var k :| 0 <= k < |bags| && bags[k] == g.bagNo;
      assert groups[k] == g;
    }
  }

  // ---------------------------------------------------------------------
  // The screen
  // ---------------------------------------------------------------------

  const EnterTermMessage := "Please enter a search term"
  const NoStudentsMessage := "No students found with the given search term"

  class StudentLookup {
    var searchTerm: string
    var searchResults: seq<BagGroup>
    var selectedStudent: Option<Record>
    var studentOrders: seq<Order>
    var loading: bool
    var error: string
    var washermanData: Option<Record>

    constructor ()
      ensures searchTerm == "" && searchResults == [] && selectedStudent == None
      ensures studentOrders == [] && !loading && error == "" && washermanData == None
    {
      searchTerm, searchResults, selectedStudent := "", [], None;
      studentOrders, loading, error, washermanData := [], false, "", None;
    }

    /** The mount effect: the staff gate. */
    method Mount(store: Storage, c: Codec) returns (redirect: Option<string>)
      modifies this
      ensures var g := WashermanGate(store.items, c);
        && (g.Proceed? ==> redirect == None && washermanData == Some(g.profile))
        && (g.Redirect? ==> redirect == Some(g.to) && washermanData == old(washermanData))
      ensures searchTerm == old(searchTerm) && searchResults == old(searchResults)
      ensures selectedStudent == old(selectedStudent) && studentOrders == old(studentOrders)
      ensures loading == old(loading) && error == old(error)
    {
      match WashermanGate(store.items, c)
      case Proceed(w) =>
        washermanData := Some(w);
        redirect := None;
      case Redirect(to) =>
        redirect := Some(to);
    }

    /** Typing in the search box. */
    method SetSearchTerm(term: string)
      modifies this
      ensures searchTerm == term
      ensures searchResults == old(searchResults) && selectedStudent == old(selectedStudent)
      ensures studentOrders == old(studentOrders) && loading == old(loading)
      ensures error == old(error) && washermanData == old(washermanData)
    {
      searchTerm := term;
    }

    /** `searchStudents`: a blank term only sets an error; otherwise the
        previous results are cleared, all orders are fetched (`resp`), grouped
        and filtered. `fetched` tells whether a request went out. */
    method SearchStudents(resp: Response<seq<Order>>) returns (fetched: bool)
      modifies this
      ensures fetched <==> !Blank(old(searchTerm))
      ensures searchTerm == old(searchTerm) && washermanData == old(washermanData)
      ensures !fetched ==>
        && error == EnterTermMessage
        && searchResults == old(searchResults) && selectedStudent == old(selectedStudent)
        && studentOrders == old(studentOrders) && loading == old(loading)
      ensures fetched ==> !loading && selectedStudent == None && studentOrders == []
      ensures fetched && resp.Ok? ==>
        && searchResults == MatchingGroups(Grouped(resp.data), searchTerm)
        && error == (if searchResults == [] then NoStudentsMessage else "")
      ensures fetched && resp.NotOk? ==> searchResults == [] && error == "Failed to search students"
      ensures fetched && resp.NetworkError? ==>
        searchResults == [] && error == "Network error while searching students"
    {
      if Blank(searchTerm) {
        error := EnterTermMessage;
        return false;
      }
      fetched := true;
      loading := true;
      error := "";
      searchResults := [];
      selectedStudent := None;
      studentOrders := [];
      match resp {
        case Ok(orders) =>
          var groups := GroupByBag(orders);
          var filtered := MatchingGroups(groups, searchTerm);
          searchResults := filtered;
          if |filtered| == 0 {
            error := NoStudentsMessage;
          }
        case NotOk(_) =>
          error := "Failed to search students";
        case NetworkError =>
          error := "Network error while searching students";
      }
      loading := false;
    }

    /** `viewStudentDetails`: fetch one student's profile and orders. */
    method ViewStudentDetails(resp: Response<StudentOrders>)
      modifies this
      ensures !loading
      ensures resp.Ok? ==> selectedStudent == Some(resp.data.student) && studentOrders == resp.data.orders && error == ""
      ensures resp.NotOk? ==> error == "Failed to fetch student details"
      ensures resp.NetworkError? ==> error == "Network error while fetching student details"
      ensures !resp.Ok? ==> selectedStudent == old(selectedStudent) && studentOrders == old(studentOrders)
      ensures searchTerm == old(searchTerm) && searchResults == old(searchResults)
      ensures washermanData == old(washermanData)
    {
      loading := true;
      error := "";
      match resp {
        case Ok(data) =>
          selectedStudent := Some(data.student);
          studentOrders := data.orders;
        case NotOk(_) =>
          error := "Failed to fetch student details";
        case NetworkError =>
          error := "Network error while fetching student details";
      }
      loading := false;
    }
  }
}
