/** The booking lookup of src/pages/MyBookings.tsx: a filter over the stored
    bookings with two optional, case-insensitive substring criteria, and the
    page state that the search, the expand toggle and "Try Again" replace. */
module MyBookings {
  import opened Wrappers
  import opened Text
  import opened Types

  /** The page's `useState` cells. */
  datatype BookingsPage = BookingsPage(
    bookingReference: string,
    lastName: string,
    searchResults: seq<BookingDetails>,
    expandedBooking: Option<string>,
    showSearchForm: bool,
    searchPerformed: bool)

  const InitialPage: BookingsPage := BookingsPage("", "", [], None, true, false)

  /** Some passenger's lower-cased last name contains the lower-cased query. */
  predicate SomePassengerNamed(booking: BookingDetails, lastName: string) {
    exists p :: p in booking.passengers && Contains(ToLower(p.lastName), ToLower(lastName))
  }

  /** The `filter` predicate of `handleSearch`. */
  predicate MatchesSearch(booking: BookingDetails, bookingReference: string, lastName: string) {
    && (bookingReference == "" || Contains(ToLower(booking.bookingNumber), ToLower(bookingReference)))
    && (lastName == "" || SomePassengerNamed(booking, lastName))
  }

  /** The bookings `handleSearch` finds: those that match, in stored order. */
  function SearchBookings(bookings: seq<BookingDetails>, bookingReference: string, lastName: string)
    : (r: seq<BookingDetails>)
    ensures IsSubsequence(r, bookings)
    ensures forall b :: b in r <==> b in bookings && MatchesSearch(b, bookingReference, lastName)
    ensures forall b :: multiset(r)[b] ==
              if MatchesSearch(b, bookingReference, lastName) then multiset(bookings)[b] else 0
    ensures bookingReference == "" && lastName == "" ==> r == bookings
  {
    var p := b => MatchesSearch(b, bookingReference, lastName);
    FilterFacts(bookings, p);
    Filter(bookings, p)
  }

  /** The explicit empty-query test on the last name is not redundant: a
      booking with no passengers matches an empty last-name query only
      because of it. */
  lemma EmptyLastNameGuardMatters(booking: BookingDetails)
    requires booking.passengers == []
    ensures MatchesSearch(booking, "", "")
    ensures !SomePassengerNamed(booking, "")
  {
  }

  /** Searching for a booking's own reference, in any letter case, finds it. */
  lemma OwnReferenceFound(bookings: seq<BookingDetails>, i: nat)
    requires i < |bookings|
    ensures bookings[i] in SearchBookings(bookings, bookings[i].bookingNumber, "")
  {
    ContainsItself(ToLower(bookings[i].bookingNumber));
  }

  /** `handleSearch`: stores the results and marks a search as performed; on
      a narrow viewport (`window.innerWidth < 768`) the form is hidden. */
  function HandleSearch(page: BookingsPage, bookings: seq<BookingDetails>, narrowViewport: bool)
    : (r: BookingsPage)
    ensures r.searchResults == SearchBookings(bookings, page.bookingReference, page.lastName)
    ensures r.searchPerformed
    ensures r.showSearchForm == (page.showSearchForm && !narrowViewport)
    ensures r.bookingReference == page.bookingReference && r.lastName == page.lastName
    ensures r.expandedBooking == page.expandedBooking
  {
    page.(searchResults := SearchBookings(bookings, page.bookingReference, page.lastName),
          searchPerformed := true,
          showSearchForm := if narrowViewport then false else page.showSearchForm)
  }

  /** `toggleBookingDetails`: collapses the booking if it is the expanded
      one, and otherwise expands it in place of whichever was. */
  function ToggleBookingDetails(page: BookingsPage, bookingId: string): (r: BookingsPage)
    ensures r.expandedBooking == None <==> page.expandedBooking == Some(bookingId)
    ensures r.expandedBooking != None ==> r.expandedBooking == Some(bookingId)
    ensures r == page.(expandedBooking := r.expandedBooking)
  {
    page.(expandedBooking := if page.expandedBooking == Some(bookingId) then None else Some(bookingId))
  }

  /** Toggling the same booking twice restores the page when that booking was
      the expanded one or none was; from another expanded booking it ends
      with none expanded. */
  lemma ToggleTwice(page: BookingsPage, bookingId: string)
    ensures var twice := ToggleBookingDetails(ToggleBookingDetails(page, bookingId), bookingId);
            if page.expandedBooking in {None, Some(bookingId)} then twice == page
            else twice.expandedBooking == None
  {
  }

  /** The reference input's `onChange`: only the typed reference changes. */
  function SetBookingReference(page: BookingsPage, value: string): (r: BookingsPage)
    ensures r.bookingReference == value
    ensures r.(bookingReference := page.bookingReference) == page
  {
    page.(bookingReference := value)
  }

  /** The last-name input's `onChange`: only the typed last name changes. */
  function SetLastName(page: BookingsPage, value: string): (r: BookingsPage)
    ensures r.lastName == value
    ensures r.(lastName := page.lastName) == page
  {
    page.(lastName := value)
  }

  /** What is typed is what the next search looks for. */
  lemma SearchUsesTypedQueries(page: BookingsPage, bookings: seq<BookingDetails>, reference: string,
                               lastName: string, narrowViewport: bool)
    ensures HandleSearch(SetLastName(SetBookingReference(page, reference), lastName), bookings, narrowViewport)
              .searchResults == SearchBookings(bookings, reference, lastName)
  {
  }

  /** The small-screen "Search Bookings" button: shows or hides the form. */
  function ToggleSearchForm(page: BookingsPage): (r: BookingsPage)
    ensures r.showSearchForm == !page.showSearchForm
    ensures r.(showSearchForm := page.showSearchForm) == page
  {
    page.(showSearchForm := !page.showSearchForm)
  }

  /** Pressing the button twice restores the page. */
  lemma ToggleSearchFormTwice(page: BookingsPage)
    ensures ToggleSearchForm(ToggleSearchForm(page)) == page
  {
  }

  /** The "Try Again" button. */
  function TryAgain(page: BookingsPage): (r: BookingsPage)
    ensures r.bookingReference == "" && r.lastName == ""
    ensures !r.searchPerformed && r.showSearchForm
    ensures r.searchResults == page.searchResults && r.expandedBooking == page.expandedBooking
  {
    page.(bookingReference := "", lastName := "", searchPerformed := false, showSearchForm := true)
  }

  /** "Try Again" on a page with no results and nothing expanded brings back
      the page as it first appears. */
  lemma TryAgainRestoresInitialPage(page: BookingsPage)
    requires page.searchResults == [] && page.expandedBooking == None
    ensures TryAgain(page) == InitialPage
  {
  }

  /** After "Try Again" a new search with nothing typed lists every booking. */
  lemma TryAgainThenSearchListsAll(page: BookingsPage, bookings: seq<BookingDetails>, narrowViewport: bool)
    ensures HandleSearch(TryAgain(page), bookings, narrowViewport).searchResults == bookings
  {
  }
}
