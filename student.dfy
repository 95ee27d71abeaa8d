/** The student side: the navigation bar (opening hours, rating, logout), the
    dashboard where a bag is handed in, the incomplete and completed order
    screens, and the profile screen. */
module Student {
  import opened Common
  import opened Lifecycle
  import opened Session

  /** Every student logout: remove the profile, the login flag and the role,
      then go home. */
  method Logout(store: Storage) returns (navigateTo: string)
    modifies store
    ensures store.items == SessionCleared(old(store.items), StudentDataKey)
    ensures navigateTo == "/home"
  {
    store.RemoveItem(StudentDataKey);
    store.RemoveItem(IsLoggedInKey);
    store.RemoveItem(UserTypeKey);
    navigateTo := "/home";
  }

  // ---------------------------------------------------------------------
  // Navigation bar
  // ---------------------------------------------------------------------

  /** The stars `lo`, `lo + 1`, ..., `hi`. */
  function Range(lo: int, hi: int): (r: seq<int>)
    ensures |r| == if lo > hi then 0 else hi - lo + 1
    decreases hi - lo
  {
    if lo > hi then [] else [lo] + Range(lo + 1, hi)
  }

  /** The five stars of "Rate Us". */
  const Stars: seq<int> := [1, 2, 3, 4, 5]

  /** A star is drawn filled when it is at or below the rating. */
  predicate StarLit(star: int, rating: int)
  {
    star <= rating
  }

  function StarFilter(rating: int): int -> bool
  {
    star => StarLit(star, rating)
  }

  /** The stars drawn filled for a rating. */
  function LitStars(rating: int): (r: seq<int>)
    ensures forall star :: star in r <==> star in Stars && star <= rating
  {
    Filter(StarFilter(rating), Stars)
  }

  /** Of a run of consecutive stars, those up to the rating are lit. */
  lemma {:induction false} LitRange(lo: int, hi: int, rating: int)
    ensures Filter(StarFilter(rating), Range(lo, hi)) == Range(lo, if hi < rating then hi else rating)
    decreases hi - lo
  {
    if lo <= hi {
      LitRange(lo + 1, hi, rating);
      assert Range(lo, hi)[1..] == Range(lo + 1, hi);
    }
  }

  /** Rating with the k-th star fills exactly the first k stars, and no star
      is filled before a rating is given. */
  lemma RatingFillsThatManyStars(rating: int)
    requires 0 <= rating <= 5
    ensures LitStars(rating) == Range(1, rating)
    ensures |LitStars(rating)| == rating
  {
    assert Stars == Range(1, 5);
    LitRange(1, 5, rating);
  }

  class StudentNavbar {
    var isDropdownOpen: bool
    var isMobileMenuOpen: bool
    var rating: int
    var hasRated: bool

    constructor ()
      ensures !isDropdownOpen && !isMobileMenuOpen && rating == 0 && !hasRated
    {
      isDropdownOpen, isMobileMenuOpen, rating, hasRated := false, false, 0, false;
    }

    /** `handleLogout`: the student logout, and the profile menu closes. */
    method HandleLogout(store: Storage) returns (navigateTo: string)
      modifies this, store
      ensures store.items == SessionCleared(old(store.items), StudentDataKey)
      ensures navigateTo == "/home" && !isDropdownOpen
      ensures isMobileMenuOpen == old(isMobileMenuOpen)
      ensures rating == old(rating) && hasRated == old(hasRated)
    {
      navigateTo := Logout(store);
      isDropdownOpen := false;
    }

    /** `handleRating`: remember the star chosen and thank the student. */
    method HandleRating(star: int)
      modifies this
      ensures rating == star && hasRated
      ensures isDropdownOpen == old(isDropdownOpen) && isMobileMenuOpen == old(isMobileMenuOpen)
    {
      rating := star;
      hasRated := true;
    }

    /** The stars drawn filled. */
    function Lit(): seq<int>
      reads this
    {
      LitStars(rating)
    }
  }

  // ---------------------------------------------------------------------
  // Dashboard: handing in a bag
  // ---------------------------------------------------------------------

  /** `POST /api/orders/create/` with `{bag_no, number_of_clothes}`;
      `bagNo` is `None` when the stored profile has no bag number. */
  datatype CreateOrder = CreateOrder(bagNo: Option<string>, count: int)

  /** `selectedCount || Number(customCount)`, kept only when it is a
      positive number: a pressed button wins over the typed text. */
  function OrderCount(selected: Option<int>, custom: string): (r: Option<int>)
    ensures r.Some? ==> r.value > 0
    ensures selected.Some? && selected.value > 0 ==> r == selected
    ensures selected.Some? && selected.value < 0 ==> r == None
    ensures selected.None? || selected.value == 0 ==>
      r == (if ParseNumber(custom).Some? && ParseNumber(custom).value > 0 then ParseNumber(custom) else None)
  {
    var count := if selected.Some? && selected.value != 0 then selected else ParseNumber(custom);
    if count.Some? && count.value > 0 then count else None
  }

  /** A typed positive number is ordered as typed; an empty box, a zero or
      a negative number is no order at all. */
  lemma TypedCountIsOrdered(n: nat)
    ensures n > 0 ==> OrderCount(None, NatToString(n)) == Some(n)
    ensures OrderCount(None, NatToString(0)) == None
    ensures OrderCount(None, "") == None
    ensures OrderCount(None, "-" + NatToString(n)) == None
  {
    ParseNumberRoundTrip(n);
    ParseNumberRoundTrip(0);
    var typed := "-" + NatToString(n);
    assert typed[1..] == NatToString(n);
  }

  class StudentDashboard {
    var selectedCount: Option<int>
    var customCount: string
    var showSuccess: bool
    var loading: bool
    var studentData: Option<Record>
    var dashboardData: Option<Record>
    var error: string

    constructor ()
      ensures selectedCount == None && customCount == "" && !showSuccess && !loading
      ensures studentData == None && dashboardData == None && error == ""
    {
      selectedCount, customCount, showSuccess, loading := None, "", false, false;
      studentData, dashboardData, error := None, None, "";
    }

    /** The mount effect: the student gate, then the dashboard summary of the
        student's bag (`resp`). */
    method Mount(store: Storage, c: Codec, resp: Response<Record>) returns (redirect: Option<string>)
      modifies this
      ensures StudentGate(store.items, c).Proceed? ==>
        && redirect == None
        && studentData == Some(StudentGate(store.items, c).profile)
        && dashboardData == (if resp.Ok? then Some(resp.data) else old(dashboardData))
      ensures StudentGate(store.items, c).Redirect? ==>
        && redirect == Some(StudentGate(store.items, c).to)
        && studentData == old(studentData) && dashboardData == old(dashboardData)
        && error == old(error)
      ensures selectedCount == old(selectedCount) && customCount == old(customCount)
      ensures showSuccess == old(showSuccess) && loading == old(loading)
    {
      match StudentGate(store.items, c) {
        case Proceed(s) =>
          studentData := Some(s);
          redirect := None;
          FetchDashboardData(resp);
        case Redirect(to) =>
          redirect := Some(to);
      }
    }

    /** `fetchDashboardData`: it does not touch `loading`. */
    method FetchDashboardData(resp: Response<Record>)
      modifies this
      ensures dashboardData == (if resp.Ok? then Some(resp.data) else old(dashboardData))
      ensures resp.Ok? ==> error == old(error)
      ensures resp.NotOk? ==> error == "Failed to fetch dashboard data"
      ensures resp.NetworkError? ==> error == "Network error while fetching dashboard data"
      ensures selectedCount == old(selectedCount) && customCount == old(customCount)
      ensures showSuccess == old(showSuccess) && loading == old(loading)
      ensures studentData == old(studentData)
    {
      match resp {
        case Ok(data) =>
          dashboardData := Some(data);
        case NotOk(_) =>
          error := "Failed to fetch dashboard data";
        case NetworkError =>
          error := "Network error while fetching dashboard data";
      }
    }

    /** `handleNumberClick`: one of the buttons 1 to 10 selects its number
        and writes it into the box. */
    method HandleNumberClick(n: nat)
      modifies this
      ensures selectedCount == Some(n) && customCount == NatToString(n)
      ensures ParseNumber(customCount) == selectedCount
      ensures showSuccess == old(showSuccess) && loading == old(loading)
      ensures studentData == old(studentData) && dashboardData == old(dashboardData)
      ensures error == old(error)
    {
      selectedCount := Some(n);
      customCount := NatToString(n);
      ParseNumberRoundTrip(n);
    }

    /** Typing in the box drops the selected button. */
    method TypeCount(text: string)
      modifies this
      ensures customCount == text && selectedCount == None
      ensures showSuccess == old(showSuccess) && loading == old(loading)
      ensures studentData == old(studentData) && dashboardData == old(dashboardData)
      ensures error == old(error)
    {
      customCount := text;
      selectedCount := None;
    }

    /** `handleConfirm`: with a positive count and a profile, create the
        order (`resp`) and, when that succeeds, reset the form, show the
        success message and fetch the summary again (`refetch`). `request` is
        the request sent, if any. */
    method HandleConfirm(resp: Response<()>, refetch: Response<Record>) returns (request: Option<CreateOrder>)
      modifies this
      ensures request.Some? <==> OrderCount(old(selectedCount), old(customCount)).Some? && old(studentData).Some?
      ensures request.Some? ==>
        request.value == CreateOrder(Get(old(studentData).value, "bag_no"), OrderCount(old(selectedCount), old(customCount)).value)
      ensures OrderCount(old(selectedCount), old(customCount)).None? ==>
        && error == old(error) && loading == old(loading) && dashboardData == old(dashboardData)
        && selectedCount == old(selectedCount) && customCount == old(customCount) && showSuccess == old(showSuccess)
      ensures OrderCount(old(selectedCount), old(customCount)).Some? && old(studentData).None? ==>
        && error == "Student data not found. Please login again."
        && loading == old(loading) && dashboardData == old(dashboardData)
        && selectedCount == old(selectedCount) && customCount == old(customCount) && showSuccess == old(showSuccess)
      ensures request.Some? ==> !loading
      ensures request.Some? && resp.Ok? ==>
        && selectedCount == None && customCount == "" && showSuccess
        && dashboardData == (if refetch.Ok? then Some(refetch.data) else old(dashboardData))
        && error == (match refetch
                     case Ok(_) => ""
                     case NotOk(_) => "Failed to fetch dashboard data"
                     case NetworkError => "Network error while fetching dashboard data")
      ensures request.Some? && !resp.Ok? ==>
        && selectedCount == old(selectedCount) && customCount == old(customCount)
        && showSuccess == old(showSuccess) && dashboardData == old(dashboardData)
      ensures request.Some? && resp.NotOk? ==> error == ErrorOr(resp.error, "Failed to create order")
      ensures request.Some? && resp.NetworkError? ==> error == "Network error. Please try again."
      ensures studentData == old(studentData)
    {
      var count := OrderCount(selectedCount, customCount);
      if count.None? {
        return None;
      }
      if studentData.None? {
        error := "Student data not found. Please login again.";
        return None;
      }
      request := Some(CreateOrder(Get(studentData.value, "bag_no"), count.value));
      loading := true;
      error := "";
      match resp {
        case Ok(_) =>
          selectedCount := None;
          customCount := "";
          showSuccess := true;
          FetchDashboardData(refetch);
        case NotOk(e) =>
          error := ErrorOr(e, "Failed to create order");
        case NetworkError =>
          error := "Network error. Please try again.";
      }
      loading := false;
    }
  }

  // ---------------------------------------------------------------------
  // Incomplete and completed orders
  // ---------------------------------------------------------------------

  class IncompleteScreen {
    var studentData: Option<Record>
    var incompleteOrders: seq<Order>
    var loading: bool
    var error: string

    constructor ()
      ensures studentData == None && incompleteOrders == [] && loading && error == ""
    {
      studentData, incompleteOrders, loading, error := None, [], true, "";
    }

    /** The mount effect: the student gate, then the student's orders (`resp`). */
    method Mount(store: Storage, c: Codec, resp: Response<StudentOrders>) returns (redirect: Option<string>)
      modifies this
      ensures StudentGate(store.items, c).Proceed? ==>
        && redirect == None
        && studentData == Some(StudentGate(store.items, c).profile)
        && !loading
        && incompleteOrders == (if resp.Ok? then IncompleteOrders(resp.data.orders) else old(incompleteOrders))
        && error == FetchOrdersError(resp, old(error))
      ensures StudentGate(store.items, c).Redirect? ==>
        && redirect == Some(StudentGate(store.items, c).to)
        && studentData == old(studentData) && incompleteOrders == old(incompleteOrders)
        && loading == old(loading) && error == old(error)
    {
      match StudentGate(store.items, c) {
        case Proceed(s) =>
          studentData := Some(s);
          redirect := None;
          FetchIncompleteOrders(resp);
        case Redirect(to) =>
          redirect := Some(to);
      }
    }

    /** `fetchIncompleteOrders`: keep every order that is not complete. */
    method FetchIncompleteOrders(resp: Response<StudentOrders>)
      modifies this
      ensures !loading
      ensures incompleteOrders == (if resp.Ok? then IncompleteOrders(resp.data.orders) else old(incompleteOrders))
      ensures error == FetchOrdersError(resp, old(error))
      ensures studentData == old(studentData)
    {
      loading := true;
      match resp {
        case Ok(data) =>
          incompleteOrders := IncompleteOrders(data.orders);
        case NotOk(_) =>
          error := "Failed to fetch orders";
        case NetworkError =>
          error := "Network error while fetching orders";
      }
      loading := false;
    }
  }

  class CompletedScreen {
    var studentData: Option<Record>
    var completedOrders: seq<Order>
    var loading: bool
    var error: string

    constructor ()
      ensures studentData == None && completedOrders == [] && loading && error == ""
    {
      studentData, completedOrders, loading, error := None, [], true, "";
    }

    /** The mount effect: the student gate, then the student's orders (`resp`). */
    method Mount(store: Storage, c: Codec, resp: Response<StudentOrders>) returns (redirect: Option<string>)
      modifies this
      ensures StudentGate(store.items, c).Proceed? ==>
        && redirect == None
        && studentData == Some(StudentGate(store.items, c).profile)
        && !loading
        && completedOrders == (if resp.Ok? then CompletedOrders(resp.data.orders) else old(completedOrders))
        && error == FetchOrdersError(resp, old(error))
      ensures StudentGate(store.items, c).Redirect? ==>
        && redirect == Some(StudentGate(store.items, c).to)
        && studentData == old(studentData) && completedOrders == old(completedOrders)
        && loading == old(loading) && error == old(error)
    {
      match StudentGate(store.items, c) {
        case Proceed(s) =>
          studentData := Some(s);
          redirect := None;
          FetchCompletedOrders(resp);
        case Redirect(to) =>
          redirect := Some(to);
      }
    }

    /** `fetchCompletedOrders`: keep the complete orders. It does not set
        `loading` first, only ends it. */
    method FetchCompletedOrders(resp: Response<StudentOrders>)
      modifies this
      ensures !loading
      ensures completedOrders == (if resp.Ok? then CompletedOrders(resp.data.orders) else old(completedOrders))
      ensures error == FetchOrdersError(resp, old(error))
      ensures studentData == old(studentData)
    {
      match resp {
        case Ok(data) =>
          completedOrders := CompletedOrders(data.orders);
        case NotOk(_) =>
          error := "Failed to fetch orders";
        case NetworkError =>
          error := "Network error while fetching orders";
      }
      loading := false;
    }
  }

  /** Both screens loaded from the same successful response show every order
      of the student exactly once between them. */
  lemma OrderScreensSplitTheOrders(data: StudentOrders)
    ensures |IncompleteOrders(data.orders)| + |CompletedOrders(data.orders)| == |data.orders|
    ensures forall o :: o in data.orders ==>
      (o in IncompleteOrders(data.orders) <==> o !in CompletedOrders(data.orders))
  {
    CompletedIncompletePartition(data.orders);
  }

  // ---------------------------------------------------------------------
  // Profile
  // ---------------------------------------------------------------------

  /** The fields the profile form lets a student change. */
  const EditableFields: set<string> := {"name", "email", "phone_no", "residency_no"}

  /** One keystroke of the form: `handleInputChange(field, value)`. */
  datatype FieldEdit = FieldEdit(field: string, value: string)

  /** The form's data after a run of keystrokes. */
  function ApplyEdits(r: Record, edits: seq<FieldEdit>): (r': Record)
    ensures r'.Keys == r.Keys + (set i | 0 <= i < |edits| :: edits[i].field)
    decreases |edits|
  {
    if |edits| == 0 then r else ApplyEdits(r[edits[0].field := edits[0].value], edits[1..])
  }

  /** One more keystroke after a run of them. */
  lemma {:induction false} ApplyEditsSnoc(r: Record, edits: seq<FieldEdit>, e: FieldEdit)
    ensures ApplyEdits(r, edits + [e]) == ApplyEdits(r, edits)[e.field := e.value]
    decreases |edits|
  {
    if |edits| > 0 {
      assert (edits + [e])[1..] == edits[1..] + [e];
      ApplyEditsSnoc(r[edits[0].field := edits[0].value], edits[1..], e);
    }
  }

  /** Keystrokes in the form leave every field they do not touch as it was;
      in particular the bag number, which the form does not offer, survives
      any editing. */
  lemma {:induction false} EditsKeepOtherFields(r: Record, edits: seq<FieldEdit>, key: string)
    requires forall i :: 0 <= i < |edits| ==> edits[i].field != key
    ensures key in ApplyEdits(r, edits) <==> key in r
    ensures key in r ==> ApplyEdits(r, edits)[key] == r[key]
    decreases |edits|
  {
    if |edits| > 0 {
      EditsKeepOtherFields(r[edits[0].field := edits[0].value], edits[1..], key);
    }
  }

  lemma FormKeepsBagNumber(r: Record, edits: seq<FieldEdit>)
    requires forall i :: 0 <= i < |edits| ==> edits[i].field in EditableFields
    ensures Get(ApplyEdits(r, edits), "bag_no") == Get(r, "bag_no")
  {
    EditsKeepOtherFields(r, edits, "bag_no");
  }

  /** A saved profile is what the student screens read back on their next
      mount, as long as the login flag is still there. */
  lemma SavedProfileReopens(m: map<string, string>, c: Codec, edited: Record)
    requires Truthy(Get(m, IsLoggedInKey)) && RoundTrips(c, edited)
    ensures StudentGate(m[StudentDataKey := c.stringify(edited)], c) == Proceed(edited)
  {
  }

  class ProfileScreen {
    var isEditing: bool
    var studentData: Option<Record>
    var profileData: Record
    var editData: Record
    var error: string
    var success: string

    constructor ()
      ensures !isEditing && studentData == None && profileData == map[] && editData == map[]
      ensures error == "" && success == ""
    {
      isEditing, studentData, profileData, editData := false, None, map[], map[];
      error, success := "", "";
    }

    /** The mount effect: the student gate; the stored profile fills the
        screen and the form. */
    method Mount(store: Storage, c: Codec) returns (redirect: Option<string>)
      modifies this
      ensures StudentGate(store.items, c).Proceed? ==>
        && redirect == None
        && studentData == Some(StudentGate(store.items, c).profile)
        && profileData == StudentGate(store.items, c).profile
        && editData == profileData
      ensures StudentGate(store.items, c).Redirect? ==>
        && redirect == Some(StudentGate(store.items, c).to)
        && studentData == old(studentData) && profileData == old(profileData)
        && editData == old(editData)
      ensures isEditing == old(isEditing) && error == old(error) && success == old(success)
    {
      match StudentGate(store.items, c) {
        case Proceed(s) =>
          studentData := Some(s);
          profileData := s;
          editData := s;
          redirect := None;
        case Redirect(to) =>
          redirect := Some(to);
      }
    }

    /** `handleEdit`: start editing a copy of the profile. */
    method HandleEdit()
      modifies this
      ensures editData == profileData && isEditing && error == "" && success == ""
      ensures profileData == old(profileData) && studentData == old(studentData)
    {
      editData := profileData;
      isEditing := true;
      error, success := "", "";
    }

    /** `handleInputChange`. */
    method HandleInputChange(field: string, value: string)
      modifies this
      ensures editData == ApplyEdits(old(editData), [FieldEdit(field, value)])
      ensures isEditing == old(isEditing) && profileData == old(profileData)
      ensures studentData == old(studentData) && error == old(error) && success == old(success)
    {
      editData := editData[field := value];
    }

    /** `handleSave`: the form becomes the profile, on screen and in storage. */
    method HandleSave(store: Storage, c: Codec)
      modifies this, store
      ensures profileData == old(editData) && studentData == Some(old(editData))
      ensures editData == old(editData)
      ensures store.items == old(store.items)[StudentDataKey := c.stringify(old(editData))]
      ensures !isEditing && success == "Profile updated successfully!" && error == old(error)
    {
      profileData := editData;
      studentData := Some(editData);
      store.SetItem(StudentDataKey, c.stringify(editData));
      isEditing := false;
      success := "Profile updated successfully!";
    }

    /** `handleCancel`: the edits are dropped and the profile is untouched. */
    method HandleCancel()
      modifies this
      ensures editData == profileData && !isEditing && error == "" && success == ""
      ensures profileData == old(profileData) && studentData == old(studentData)
    {
      editData := profileData;
      isEditing := false;
      error, success := "", "";
    }

    /** Edit, type any run of keystrokes, Cancel: the profile and the student
        record are as before and the form shows the profile again. None of
        these steps has access to storage. */
    method EditThenCancel(edits: seq<FieldEdit>)
      modifies this
      ensures profileData == old(profileData) && studentData == old(studentData)
      ensures editData == profileData && !isEditing
    {
      HandleEdit();
      var i := 0;
      while i < |edits|
        invariant 0 <= i <= |edits|
        invariant editData == ApplyEdits(old(profileData), edits[..i])
        invariant profileData == old(profileData) && studentData == old(studentData)
      {
        HandleInputChange(edits[i].field, edits[i].value);
        ApplyEditsSnoc(old(profileData), edits[..i], edits[i]);
        assert edits[..i + 1] == edits[..i] + [edits[i]];
        i := i + 1;
      }
      HandleCancel();
    }

    /** Edit then Save with no keystrokes: the profile stays as it was, and
        storage holds that same profile. */
    method EditThenSave(store: Storage, c: Codec)
      modifies this, store
      ensures profileData == old(profileData) && studentData == Some(old(profileData))
      ensures store.items == old(store.items)[StudentDataKey := c.stringify(old(profileData))]
      ensures !isEditing
    {
      HandleEdit();
      HandleSave(store, c);
    }
  }
}
