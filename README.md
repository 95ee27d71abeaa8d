# Laundry client: a Dafny model

This project models the client-side logic of a React web client for a campus
laundry service. Students hand in a bag of clothes and follow their orders.
Washermen (the laundry staff) move orders through the lifecycle
`pending -> inprogress -> complete`, look students up by bag number and read
statistics.

The screens share one small piece of state: browser storage. It holds the
logged-in profile (`studentData` or `washermanData`), the `isLoggedIn` flag,
the `userType` role and the preferred language. Everything else lives in each
screen's own component state. That state changes only in event handlers, in
mount effects and when a request to the remote API comes back.

The model is organised like the client:

- `common.dfy` (module `Common`) holds the shared pieces: optional values, the
  three outcomes of a request (`Ok(data)`, `NotOk(error)`, `NetworkError`) and
  JavaScript truthiness of stored strings. It also has the string operations
  the screens use (`toLowerCase`, `includes`, `trim`, `Number`) and an
  order-preserving `filter` with its partition lemmas.
- `lifecycle.dfy` (module `Lifecycle`) holds the order statuses, the successor
  relation, the status labels, the one button each order card offers, the
  staff tab/search filter, the student's complete/incomplete filters and the
  fields an order card falls back to.
- `session.dfy` (module `Session`) holds browser storage as a class over a
  `map<string, string>` and the storage keys. It also holds the gate every
  protected screen runs on mount, what each login writes and what each logout
  removes. `JSON.parse`/`JSON.stringify` are a `Codec` passed in as a
  parameter.
- `lookup.dfy` (module `Lookup`) is the staff student-lookup screen. A loop
  folds all orders into one entry per bag number, holding the order count and
  the latest submission date. The method is proved equal to a
  specification, and the entries' properties are proved about that
  specification.
- `staff.dfy` (module `Staff`) holds the staff order dashboard, the statistics
  screen (recent orders, completion rate) and the staff navigation bar with
  its hand-set open/closed indicator.
- `service.dfy` (module `Service`) is the open/closed indicator. The students'
  bar computes it from the clock and the staff bar sets it by hand.
- `student.dfy` (module `Student`) holds the student navigation bar (logout,
  star rating), the dashboard where a bag is handed in, the incomplete and
  completed order screens, and the profile edit/save/cancel screen.
- `auth.dfy` (module `Auth`) holds both logins and the two signup steps.
- `language.dfy` (module `Language`) holds the language context: the initial
  language, `setLanguage` and `t`, the translation lookup with fallbacks.

Each screen is a class whose fields are its component state. Each handler is
a method. The response of each request is a parameter of the method, and the
method states the new state for every outcome. Navigation appears as a
returned path.

The same `getStatusText` is written out four times in the client: in the
lookup, the staff dashboard, statistics and incomplete screens. It is modelled
once as `Lifecycle.StatusText`.

The students' navigation bar has a tooltip that says "Monday - Saturday".
Its code (`src/pages/student/components/Navbar.jsx:34`) opens only Monday to
Friday, which is what the code's comment says too. The model follows the
code: `Service.ClosedAtWeekends`.

The staff bar defines `handleStatusToggle`, but none of its buttons calls it.
The bar's "Open" and "Closed" buttons set the state directly. Both are
modelled.

## Model

| member | source | states |
|---|---|---|
| Common.Get | src/pages/washerman/WashermanDashboard.jsx:18-20 | `getItem` gives a value exactly when the key is stored, and that value is the stored one |
| Common.ErrorOr | src/pages/washerman/WashermanDashboard.jsx:72 | `data.error \|\| fallback` is the server's message when it is a non-empty string and the screen's own message otherwise; it is never empty when the fallback is not |
| Common.ToLower | src/pages/washerman/StudentLookup.jsx:72 | lower-casing keeps the length and folds every character on its own |
| Common.IncludesAt | src/pages/washerman/WashermanDashboard.jsx:124 | a window of the string that spells the term makes `includes` true |
| Common.IncludesWitness | src/pages/washerman/WashermanDashboard.jsx:124 | when `includes` is true there is an offset at which the term occurs |
| Common.TrimEmptyIffBlank | src/pages/washerman/StudentLookup.jsx:37 | `!searchTerm.trim()` holds exactly when every character of the term is one that `trim` removes (`Common.Blank` over `Common.IsWhitespace`), checked against a separate front-and-back `Common.Trim` |
| Common.IncludesEmpty | src/pages/washerman/WashermanDashboard.jsx:124 | every string includes the empty search term |
| Common.ParseNumber | src/pages/student/Dashboard.jsx:54 | `Number(text)`: the empty text is 0, a run of digits is its decimal value, a minus sign before digits negates that value, and text that is neither digits nor negated digits is not a number |
| Common.DigitsRoundTrip | src/pages/student/Dashboard.jsx:101-104 | the decimal digits of a natural number read back as that number |
| Common.ParseNumberRoundTrip | src/pages/student/Dashboard.jsx:101-104 | `Number(String(n))` is `n` for every natural `n` |
| Common.Filter | src/pages/student/Completed.jsx:39 | `filter` keeps exactly the elements that satisfy the condition and is never longer than its input |
| Common.FilterIsSubsequence | src/pages/washerman/WashermanDashboard.jsx:119-126 | `filter` keeps the kept elements in their original order |
| Common.SubsequenceSkip | src/pages/washerman/WashermanDashboard.jsx:119-126 | a subsequence of the tail is a subsequence of the whole list |
| Common.SubsequenceTail | src/pages/washerman/WashermanDashboard.jsx:119-126 | the tail of a subsequence is still a subsequence |
| Common.FilterComplement | src/pages/student/Incomplete.jsx:56 | filtering by a condition and by its negation splits a list: the lengths add up and no element is in both |
| Common.FilterThreeWay | src/pages/washerman/WashermanDashboard.jsx:120-123 | three mutually exclusive conditions whose union is a fourth split that fourth condition's result by length |
| Common.FilterAll | src/pages/washerman/WashermanDashboard.jsx:120-124 | a condition every element meets keeps the list as it is |
| Lifecycle.ParseStatus | src/pages/washerman/WashermanDashboard.jsx:120-123 | the three status strings and the three statuses correspond one to one, in both directions; any other string is no status |
| Lifecycle.Successor | src/pages/washerman/WashermanDashboard.jsx:80-86 | only `complete` has no next status, and the next status is always exactly one step further along the lifecycle |
| Lifecycle.StatusText | src/pages/washerman/StudentLookup.jsx:125-136 | the three statuses read "Pending", "In Progress" and "Completed"; any other status string is shown unchanged |
| Lifecycle.ActionFor | src/pages/washerman/WashermanDashboard.jsx:230-250 | a card has a button exactly when its status has a successor, and the button requests that successor (`Lifecycle.Requested` is the status each button asks for, as at lines 80-86) |
| Lifecycle.ActionsNeverSkip | src/pages/washerman/WashermanDashboard.jsx:230-245 | no button moves an order backwards, back to `pending`, or from `pending` straight to `complete` |
| Lifecycle.FilteredOrders | src/pages/washerman/WashermanDashboard.jsx:119-126 | the list shown is an order-preserving subsequence holding exactly the orders on the selected tab whose lower-cased bag number contains the lower-cased term |
| Lifecycle.AllTabEmptySearchShowsEverything | src/pages/washerman/WashermanDashboard.jsx:120-124 | the "all" tab with an empty search shows every order, in order |
| Lifecycle.StatusTabsPartitionAll | src/pages/washerman/WashermanDashboard.jsx:120-123 | for orders with known statuses, the three status tabs are disjoint, each order of "all" is on its own status tab, and their sizes add up to the size of "all" |
| Lifecycle.CompletedOrders | src/pages/student/Completed.jsx:39 | the completed screen keeps exactly the orders whose status is `complete`, in their original order |
| Lifecycle.IncompleteOrders | src/pages/student/Incomplete.jsx:56 | the incomplete screen keeps exactly the orders whose status is not `complete`, unknown statuses included, in order |
| Lifecycle.CompletedIncompletePartition | src/pages/student/Incomplete.jsx:56 | with the completed screen's filter it splits a student's orders: disjoint lists whose lengths add up to the total |
| Lifecycle.ShownDate | src/pages/student/Incomplete.jsx:104 | the card shows the submission date when there is one and the `date` field otherwise |
| Lifecycle.ShownClothes | src/pages/student/Incomplete.jsx:105 | the card shows `number_of_clothes` unless it is absent or zero, and then `count` |
| Session.Storage.SetItem | src/pages/student/StudentLogin.jsx:39-40 | `setItem` changes that one key and nothing else |
| Session.Storage.RemoveItem | src/pages/student/components/Navbar.jsx:17-19 | `removeItem` removes that one key and nothing else |
| Session.WashermanGate | src/pages/washerman/WashermanDashboard.jsx:17-34 | the staff screens carry on exactly when `isLoggedIn` is non-empty, `userType` is "washerman" and `washermanData` is present and parses, with the parsed profile; otherwise they go to /washerman/login |
| Session.StudentGate | src/pages/student/Dashboard.jsx:18-35 | the student screens carry on exactly when `isLoggedIn` and `studentData` are non-empty and the profile parses, whatever `userType` says; otherwise they go to /student/login |
| Session.SessionCleared | src/pages/student/components/Navbar.jsx:15-24 | a logout removes exactly the profile key, `isLoggedIn` and `userType` and keeps every other entry as it was |
| Session.StudentSession | src/pages/student/StudentLogin.jsx:39-40 | a student login stores the profile under `studentData` and `isLoggedIn` as "true", adds no other key and leaves every other entry as it was |
| Session.WashermanSession | src/pages/washerman/WashermanLogin.jsx:39-41 | a washerman login stores the profile under `washermanData`, `isLoggedIn` as "true" and `userType` as "washerman", adds no other key and leaves every other entry as it was |
| Session.WashermanLoginOpensGate | src/pages/washerman/WashermanLogin.jsx:39-41 | what a washerman login writes is exactly what the staff gate checks: the gate then lets that same profile through, whatever was stored before |
| Session.StudentLoginOpensGate | src/pages/student/StudentLogin.jsx:39-40 | a student login makes the student gate let that same profile through |
| Session.StudentLoginKeepsStaffRole | src/pages/student/StudentLogin.jsx:39-40 | a student login does not write `userType`, so the staff gate opens after it exactly when a washerman's role and profile were already stored |
| Session.LogoutClosesEveryGate | src/pages/washerman/Stats.jsx:96-101 | after either logout neither gate opens, and the preferred language survives |
| Session.ProfileWithoutFlagRedirects | src/pages/student/Dashboard.jsx:23-26 | a stored profile without the login flag sends both kinds of screen to their login |
| Lookup.Bags | src/pages/washerman/StudentLookup.jsx:55-63 | the bag numbers of the map are exactly those of the orders, each once |
| Lookup.FirstIndex | src/pages/washerman/StudentLookup.jsx:57-62 | the entry of a bag is created at the bag's first order |
| Lookup.MaxDate | src/pages/washerman/StudentLookup.jsx:65-67 | the running maximum bounds every dated order of the bag and is attained by one, unless it is still the starting value; `Lookup.Later` is the `Date` comparison, false when either date is missing |
| Lookup.LatestDate | src/pages/washerman/StudentLookup.jsx:58-67 | a bag's latest date is absent exactly when its first order has no date; otherwise it is the largest date among the bag's orders and belongs to one of them, so an equal later date changes nothing |
| Lookup.GroupByBag | src/pages/washerman/StudentLookup.jsx:55-71 | the `forEach` over a `Map` yields the specified grouping: one entry per bag with its count and latest date, in first-appearance order |
| Lookup.BagsInFirstAppearanceOrder | src/pages/washerman/StudentLookup.jsx:57-63 | the entries come in the order of the bags' first orders |
| Lookup.TotalsSumToOrderCount | src/pages/washerman/StudentLookup.jsx:56-64 | the entries' `total_orders` add up to the number of orders |
| Lookup.MatchingGroups | src/pages/washerman/StudentLookup.jsx:71-73 | the results are the entries whose lower-cased bag number contains the lower-cased term, in their order |
| Lookup.SearchResultsAreTheMatchingBags | src/pages/washerman/StudentLookup.jsx:55-73 | an entry is a result exactly when it is the entry of a bag of the orders that matches the term |
| Lookup.StudentLookup.constructor | src/pages/washerman/StudentLookup.jsx:8-14 | the screen starts with no term, no results, no student and not loading |
| Lookup.StudentLookup.Mount | src/pages/washerman/StudentLookup.jsx:16-34 | the staff gate: the profile is kept or the screen goes to the staff login |
| Lookup.StudentLookup.SetSearchTerm | src/pages/washerman/StudentLookup.jsx:172 | typing changes only the term |
| Lookup.StudentLookup.SearchStudents | src/pages/washerman/StudentLookup.jsx:36-89 | a blank term only sets "Please enter a search term" and sends nothing; otherwise results, student and orders are cleared, the results are the matching bag entries with "No students found ..." when there are none, each failure has its message, and loading ends false |
| Lookup.StudentLookup.ViewStudentDetails | src/pages/washerman/StudentLookup.jsx:91-110 | one student's profile and orders replace the shown ones on success; failures keep them and set their message; loading ends false |
| Language.Entry | src/contexts/LanguageContext.jsx:30-36 | a table entry counts only when the language and key are present and the text is non-empty |
| Language.Translate | src/contexts/LanguageContext.jsx:29-39 | `t(key)` is the current language's non-empty text, else the English one, else the key |
| Language.TranslateIsTotal | src/contexts/LanguageContext.jsx:38 | `t` always answers with a table text or the key, and never with the empty string for a non-empty key |
| Language.UntranslatedLanguagesShowEnglish | src/contexts/translations.js:3-19 | the offered languages without a table (Bengali, Tamil, Telugu, Kannada) show what English shows |
| Language.InitialLanguage | src/contexts/LanguageContext.jsx:18-22 | the first language is the stored one when it is non-empty, English otherwise |
| Language.ChosenLanguagePersists | src/contexts/LanguageContext.jsx:24-27 | a language chosen and stored is the one the next page load starts in |
| Language.LanguageProvider.constructor | src/contexts/LanguageContext.jsx:18-22 | the provider starts in the initial language |
| Language.LanguageProvider.T | src/contexts/LanguageContext.jsx:29-39 | `t(key)` in the current language never answers with the empty string for a non-empty key, and an offered language without a table answers as English does |
| Language.LanguageProvider.SetLanguage | src/contexts/LanguageContext.jsx:24-27 | `setLanguage` switches the language and stores it under `preferred-language`, changing no other entry |
| Service.StateFor | src/pages/washerman/components/Navbar.jsx:141-148 | the indicator for an open or closed laundry has the matching label and colour |
| Service.ServiceStatus | src/pages/student/components/Navbar.jsx:27-44 | the indicator is open exactly on weekdays 1 to 5, from 8:30 and before 18:00, and its label and colour agree |
| Service.OpenInterval | src/pages/student/components/Navbar.jsx:33-40 | for a clock reading, open means a weekday and a minute of the day in [8:30, 18:00) |
| Service.OpeningBoundaries | src/pages/student/components/Navbar.jsx:35-36 | 8:29 is closed, 8:30 open, 17:59 open, 18:00 closed |
| Service.ClosedAtWeekends | src/pages/student/components/Navbar.jsx:34 | Sunday and Saturday are closed at every hour |
| Service.Toggled | src/pages/washerman/components/Navbar.jsx:45-54 | a toggle flips `isOpen` and derives label and colour from it |
| Service.ToggleTwice | src/pages/washerman/components/Navbar.jsx:45-54 | toggling twice gives back a consistent indicator unchanged |
| Staff.ButtonRequest | src/pages/washerman/WashermanDashboard.jsx:230-250 | a card sends a request exactly when it has a button; the request names the card's order and asks for the successor of its status |
| Staff.ButtonsWalkTheLifecycle | src/pages/washerman/WashermanDashboard.jsx:230-245 | a pending order's buttons, pressed in turn, take it to `inprogress`, then to `complete`, and then offer nothing |
| Staff.WashermanDashboard.constructor | src/pages/washerman/WashermanDashboard.jsx:9-14 | the dashboard starts on "all" with no term and no orders, loading |
| Staff.WashermanDashboard.Visible | src/pages/washerman/WashermanDashboard.jsx:119-126 | the cards shown are the orders on the selected tab that match the term, in order |
| Staff.WashermanDashboard.Mount | src/pages/washerman/WashermanDashboard.jsx:16-35 | the staff gate, then the first fetch of all orders when it opens; a redirect changes nothing |
| Lifecycle.FetchOrdersError | src/pages/washerman/WashermanDashboard.jsx:37-53 | a failed fetch of orders sets its message and a successful one keeps the earlier error; the student order screens use the same texts |
| Staff.WashermanDashboard.FetchOrders | src/pages/washerman/WashermanDashboard.jsx:37-53 | the orders are replaced on success and kept on failure, and loading ends false |
| Staff.WashermanDashboard.HandleStatusUpdate | src/pages/washerman/WashermanDashboard.jsx:55-78 | the request carries the order and the new status; success fetches the orders again; failure keeps the orders and sets the server's message or "Failed to update order status", or the network message |
| Staff.WashermanDashboard.HandleReceived | src/pages/washerman/WashermanDashboard.jsx:80-82 | "Mark as Received" asks for `inprogress`, with the new state of `handleStatusUpdate`: on success the orders are fetched again, with their error text, and loading ends false; on failure the orders and loading stay, and the error is the server's message or "Failed to update order status", or the network message |
| Staff.WashermanDashboard.HandleReady | src/pages/washerman/WashermanDashboard.jsx:84-86 | "Mark as Ready" asks for `complete`, with the same new state as "Mark as Received": a refetch with its error text on success, and the kept orders and loading and the failure message otherwise |
| Staff.WashermanDashboard.PressButton | src/pages/washerman/WashermanDashboard.jsx:230-250 | pressing a card's button sends exactly the card's request, then the orders, loading and error change as a status update's do; a card without a button changes nothing |
| Staff.WashermanDashboard.SelectTab | src/pages/washerman/WashermanDashboard.jsx:162 | choosing a tab changes only the tab |
| Staff.WashermanDashboard.SetSearchTerm | src/pages/washerman/WashermanDashboard.jsx:176 | typing changes only the term |
| Staff.RecentOrders | src/pages/washerman/Stats.jsx:58 | the recent list is the first min(10, n) orders in their original order |
| Staff.RoundedPercent | src/pages/washerman/Stats.jsx:184 | the rate is the integer nearest to complete·100/total, halves rounded up |
| Staff.CompletionRate | src/pages/washerman/Stats.jsx:181-192 | a rate exists exactly when there are orders (no division by zero; "No orders yet" otherwise) and it is the rounded percentage |
| Staff.CompletionRateIsPercentage | src/pages/washerman/Stats.jsx:184 | for a consistent summary the rate lies in 0..100, is 0 when nothing is complete and 100 when everything is |
| Staff.CompletionRateExamples | src/pages/washerman/Stats.jsx:184 | 2 of 5 is 40%, 1 of 3 is 33%, 2 of 3 is 67%, 1 of 8 is 13%, and no orders gives no rate |
| Staff.Stats.constructor | src/pages/washerman/Stats.jsx:9-13 | the screen starts without summary or recent orders, loading |
| Staff.Stats.Mount | src/pages/washerman/Stats.jsx:15-35 | the staff gate, then both fetches when it opens; a redirect changes nothing |
| Staff.Stats.FetchStatsData | src/pages/washerman/Stats.jsx:37-50 | the summary is replaced on success; failures set their message; loading is not touched |
| Staff.Stats.FetchRecentOrders | src/pages/washerman/Stats.jsx:52-68 | the recent list becomes the first ten orders on success; failures set their message; loading ends false |
| Staff.Stats.HandleLogout | src/pages/washerman/Stats.jsx:96-101 | logout removes exactly `washermanData`, `isLoggedIn` and `userType` and goes to /home |
| Staff.StaffNavbar.constructor | src/pages/washerman/components/Navbar.jsx:10-16 | the indicator starts "Open" with its label and colour agreeing (`Valid`), and every menu is closed |
| Staff.StaffNavbar.HandleStatusToggle | src/pages/washerman/components/Navbar.jsx:45-54 | the indicator flips and stays consistent; the menus are untouched |
| Staff.StaffNavbar.SetOpen | src/pages/washerman/components/Navbar.jsx:141 | the "Open" button sets the open indicator, whatever it was, so pressing it again changes nothing |
| Staff.StaffNavbar.SetClosed | src/pages/washerman/components/Navbar.jsx:148 | the "Closed" button sets the closed indicator, whatever it was |
| Staff.StaffNavbar.HandleLogout | src/pages/washerman/components/Navbar.jsx:20-29 | logout removes exactly the three session keys, closes the profile menu and goes to /home |
| Staff.StaffNavbar.MobileSignOut | src/pages/washerman/components/Navbar.jsx:279-282 | the mobile "Sign Out" also closes the mobile menu |
| Staff.StaffNavbar.ChooseLanguage | src/pages/washerman/components/Navbar.jsx:120-123 | choosing a language makes it current, stores it and closes the language menu |
| Student.Logout | src/pages/student/Completed.jsx:52-57 | a student logout removes exactly `studentData`, `isLoggedIn` and `userType`, keeps every other entry, and goes to /home (the profile and dashboard screens' `handleLogout` are the same code) |
| Student.LitStars | src/pages/student/components/Navbar.jsx:299-302 | a star is filled exactly when it is at or below the rating (`Student.StarLit`, line 299) |
| Student.LitRange | src/pages/student/components/Navbar.jsx:295-302 | of a run of consecutive stars, exactly those up to the rating are filled |
| Student.RatingFillsThatManyStars | src/pages/student/components/Navbar.jsx:295-302 | a rating of k fills exactly stars 1 to k; no rating fills none |
| Student.StudentNavbar.constructor | src/pages/student/components/Navbar.jsx:9-12 | no rating yet and every menu closed |
| Student.StudentNavbar.HandleLogout | src/pages/student/components/Navbar.jsx:15-24 | the student logout, and the profile menu closes |
| Student.StudentNavbar.HandleRating | src/pages/student/components/Navbar.jsx:49-54 | the chosen star becomes the rating and the thank-you shows |
| Student.OrderCount | src/pages/student/Dashboard.jsx:54-55 | the count is the pressed button's number if any, else the typed number, and it is kept only when positive: missing, zero, negative and non-numeric counts send nothing |
| Student.TypedCountIsOrdered | src/pages/student/Dashboard.jsx:54-55 | a typed positive number is ordered as typed; an empty box, 0 or a typed negative number orders nothing |
| Student.StudentDashboard.constructor | src/pages/student/Dashboard.jsx:10-16 | nothing selected or typed, not loading, no profile |
| Student.StudentDashboard.Mount | src/pages/student/Dashboard.jsx:18-36 | the student gate, then the summary fetch when it opens |
| Student.StudentDashboard.FetchDashboardData | src/pages/student/Dashboard.jsx:38-51 | the summary is replaced on success; failures set their message |
| Student.StudentDashboard.HandleNumberClick | src/pages/student/Dashboard.jsx:101-104 | a quick pick sets both the selection and the box, which reads back as the same number |
| Student.StudentDashboard.TypeCount | src/pages/student/Dashboard.jsx:237-240 | typing sets the box and drops the selection |
| Student.StudentDashboard.HandleConfirm | src/pages/student/Dashboard.jsx:53-99 | no valid count: nothing at all; no profile: only the error; otherwise the request carries the profile's bag number and the count, success resets the form, shows success and fetches again, failure keeps the form and sets the server's message or its fallback, and loading ends false |
| Student.IncompleteScreen.constructor | src/pages/student/Incomplete.jsx:26-29 | no profile, no orders, loading |
| Student.IncompleteScreen.Mount | src/pages/student/Incomplete.jsx:31-47 | the student gate, then the fetch when it opens |
| Student.IncompleteScreen.FetchIncompleteOrders | src/pages/student/Incomplete.jsx:49-67 | the list becomes the incomplete orders on success and is kept on failure; loading ends false |
| Student.CompletedScreen.constructor | src/pages/student/Completed.jsx:8-11 | no profile, no orders, loading |
| Student.CompletedScreen.Mount | src/pages/student/Completed.jsx:13-31 | the student gate, then the fetch when it opens |
| Student.CompletedScreen.FetchCompletedOrders | src/pages/student/Completed.jsx:33-50 | the list becomes the completed orders on success and is kept on failure; loading ends false |
| Student.OrderScreensSplitTheOrders | src/pages/student/Completed.jsx:39 | the two screens loaded from the same answer show each of the student's orders on exactly one of them |
| Student.ApplyEdits | src/pages/student/Profile.jsx:64-69 | keystrokes add only the fields they name to the form |
| Student.ApplyEditsSnoc | src/pages/student/Profile.jsx:64-69 | one more keystroke updates only its field |
| Student.EditsKeepOtherFields | src/pages/student/Profile.jsx:64-69 | keystrokes leave every field they do not name as it was |
| Student.FormKeepsBagNumber | src/pages/student/Profile.jsx:184-285 | the form offers no bag number field, so no editing changes the bag number |
| Student.SavedProfileReopens | src/pages/student/Profile.jsx:51 | a saved profile is what the student gate reads back on the next mount |
| Student.ProfileScreen.constructor | src/pages/student/Profile.jsx:9-16 | not editing, empty profile and form |
| Student.ProfileScreen.Mount | src/pages/student/Profile.jsx:18-37 | after the gate opens the profile, the shown profile and the form are all the stored record |
| Student.ProfileScreen.HandleEdit | src/pages/student/Profile.jsx:39-44 | editing starts from a copy of the profile and clears both messages |
| Student.ProfileScreen.HandleInputChange | src/pages/student/Profile.jsx:64-69 | a keystroke changes only its field of the form |
| Student.ProfileScreen.HandleSave | src/pages/student/Profile.jsx:46-55 | the form becomes the profile on screen and in storage, editing ends and the success message shows |
| Student.ProfileScreen.HandleCancel | src/pages/student/Profile.jsx:57-62 | the form is reset to the profile, editing ends, the profile and storage are untouched |
| Student.ProfileScreen.EditThenCancel | src/pages/student/Profile.jsx:39-69 | Edit, any keystrokes, Cancel leave the profile and the student record as they were, and the form shows the profile again |
| Student.ProfileScreen.EditThenSave | src/pages/student/Profile.jsx:39-55 | Edit then Save without keystrokes leaves the profile as it was |
| Auth.StudentLogin.constructor | src/pages/student/StudentLogin.jsx:7-10 | empty fields, no error, not loading |
| Auth.StudentLogin.HandleLogin | src/pages/student/StudentLogin.jsx:12-53 | an empty field sends nothing and asks for all fields; otherwise `{email, enrollment_no}` is sent, success stores the profile and `isLoggedIn` (not `userType`) and goes to the dashboard, failure leaves storage alone with the server's message or the fallback, and loading ends false |
| Auth.WashermanLogin.constructor | src/pages/washerman/WashermanLogin.jsx:7-10 | empty fields, no error, not loading |
| Auth.WashermanLogin.HandleLogin | src/pages/washerman/WashermanLogin.jsx:12-54 | as the student login, with `{username, password}`, and success also stores `userType` "washerman" |
| Auth.SignupCheck | src/pages/student/StudentSignup1.jsx:28-39 | the step may move on exactly when the code is "1234" and the two passwords are equal and non-empty; an empty field is reported as such, and only the three messages occur |
| Auth.SignupCheckOrder | src/pages/student/StudentSignup1.jsx:28-39 | a wrong code is reported whatever the passwords, and a mismatch only once the code is right |
| Auth.SignupStart.constructor | src/pages/student/StudentSignup1.jsx:7-12 | empty fields, no code sent |
| Auth.SignupStart.HandleSendOtp | src/pages/student/StudentSignup1.jsx:15-23 | without an e-mail address only the error is set; with one the code is marked sent and the error cleared |
| Auth.SignupStart.HandleVerifyAndNext | src/pages/student/StudentSignup1.jsx:25-43 | the step moves on exactly when the checks pass, handing over the e-mail address alone; otherwise the first failure is shown |
| Auth.SignupBody | src/pages/student/StudentSignup2.jsx:45 | the request holds the e-mail address and every form field |
| Auth.FillingTheFormCompletesIt | src/pages/student/StudentSignup2.jsx:9-36 | the fresh form fails the empty-field check of lines 27-33 (`Auth.FormComplete`) and a form with all five fields filled passes it |
| Auth.SignupDetails.constructor | src/pages/student/StudentSignup2.jsx:8-17 | the e-mail address comes from the navigation state, "" when there is none; the form starts empty |
| Auth.SignupDetails.HandleChange | src/pages/student/StudentSignup2.jsx:19-22 | a change updates only the named field |
| Auth.SignupDetails.HandleSubmit | src/pages/student/StudentSignup2.jsx:24-59 | an empty field sends nothing; otherwise the e-mail address and form are sent, success goes to the login, failure shows "Error completing signup" or the network message, and loading ends false |
| Auth.SignupSendsEveryDetail | src/pages/student/StudentSignup2.jsx:45 | the request carries the step-1 e-mail address and all five details as typed |

## Left out

- Requests to the remote API are not modelled. Each call's outcome is a parameter of the method that makes it. The server, and any lifecycle rules it enforces, are not part of this model.
- A response body that is not JSON is left out. In the client, `response.json()` then throws and the screen shows its network-error message. The model's `NotOk(None)` stands for a body with no usable `error` field.
- `JSON.parse` and `JSON.stringify` are not modelled. They are the `Codec` parameter. The login and profile lemmas assume that a stored record reads back as itself (`Session.RoundTrips`).
- Async interleaving is not modelled. Handlers run one at a time, to completion. The statistics screen's two fetches run in the order they are started. Stale responses overwriting newer state are not represented.
- Rendering is not modelled: JSX, CSS class names, `getStatusColor`, spinners, the click-outside listeners, menu toggles other than those named above, and `showOrdersModal`.
- `setTimeout` auto-dismiss of success messages is not modelled. The model keeps the flag set.
- `alert`, `console` output and `window.open` are not modelled.
- `Date` is not modelled. The day, hour and minute are integer parameters of `Service.ServiceStatus`. `submission_date` is an optional integer timestamp, and date formatting is left out.
- A `submission_date` of JSON `null` and a missing one are both `None`. In the client, `new Date(null)` is the epoch and compares as a real date, while `new Date(undefined)` is invalid. So a bag whose first order has a `null` date can get a later latest date in the client, where the model keeps it absent.
- Common.ToLower: folds ASCII letters only, because Unicode case mapping is not modelled.
- Common.ParseNumber: reads only optionally negated digit strings. Decimal fractions, exponents, surrounding white space and hexadecimal forms that `Number` also accepts are not numbers in the model. So `Student.StudentDashboard.HandleConfirm` sends nothing for a typed "2.5", where the client would send 2.5.
- Staff.RoundedPercent: exact rational rounding, because `Math.round` on floating-point values is not modelled. Floating-point error near a half could round differently.
- Staff.Stats.Mount: does not state the final error text after both fetches, because that text depends on which fetch finishes last.
- Student.StudentDashboard.Mount: does not state the error text after the summary fetch. `Student.StudentDashboard.FetchDashboardData` states it.
- Language.Translate: over any table the model answers with the key when there is no "en" table, where the client would throw. The shipped table has an "en" table.
- Prototype keys of the translation object (such as "constructor") are not modelled as translations.
- `Lookup` orders store the bag number as a string. A missing `bag_no`, and the `toLowerCase` failure it would cause, are not modelled.
- The service-status colour is `Green`/`Red` rather than the CSS class strings.
- The OTP step is a demonstration with the fixed code "1234", and no OTP is actually sent. `Auth.SignupStart.HandleVerifyAndNext` models the handler, which itself checks neither `otpSent` nor the e-mail address.
- The rendering gate of the first signup step is not modelled: the code field and the "Next" button appear only once "Send OTP" has succeeded (src/pages/student/StudentSignup1.jsx:85-121), so on screen the step cannot move on before that.
- The browser's own form validation (`required` on the inputs of both logins and both signup steps, and `type="email"` on the e-mail fields) is not modelled. The handlers' own empty-field checks are.
- The orders overview screen, the router table, the footer, the home and launch pages and the mobile-menu context are not modelled. They hold no logic beyond fetching and display.
