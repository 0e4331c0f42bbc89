/** The session store of src/context/AppContext.tsx: four independent state
    cells that every wizard step reads and overwrites, last write wins. */
module AppContext {
  import opened Wrappers
  import opened Types

  /** React's `SetStateAction<T>`: either a new value or an updater that is
      applied to the current value. */
  datatype SetStateAction<!T> = Replace(value: T) | Update(updater: T -> T)

  function Apply<T>(action: SetStateAction<T>, current: T): T {
    match action
    case Replace(v) => v
    case Update(f) => f(current)
  }

  /** The search parameters a fresh session starts with. */
  const InitialSearchParams: SearchParams :=
    SearchParams("", "", "", "", 1, Economy)

  /** The state an `AppProvider` holds. */
  class AppSession {
    var searchParams: SearchParams
    var selectedFlight: Option<Flight>
    var passengers: seq<Passenger>
    var bookingDetails: Option<BookingDetails>

    /** Mounting the provider: the four `useState` initial values. */
    constructor ()
      ensures searchParams.from == "" && searchParams.to == ""
      ensures searchParams.departDate == "" && searchParams.returnDate == ""
      ensures searchParams.passengers == 1 && searchParams.flightClass == Economy
      ensures selectedFlight == None && passengers == [] && bookingDetails == None
    {
      searchParams := InitialSearchParams;
      selectedFlight := None;
      passengers := [];
      bookingDetails := None;
    }

    method SetSearchParams(action: SetStateAction<SearchParams>)
      modifies this`searchParams
      ensures searchParams == Apply(action, old(searchParams))
      ensures selectedFlight == old(selectedFlight) && passengers == old(passengers)
      ensures bookingDetails == old(bookingDetails)
    {
      searchParams := Apply(action, searchParams);
    }

    method SetSelectedFlight(action: SetStateAction<Option<Flight>>)
      modifies this`selectedFlight
      ensures selectedFlight == Apply(action, old(selectedFlight))
      ensures searchParams == old(searchParams) && passengers == old(passengers)
      ensures bookingDetails == old(bookingDetails)
    {
      selectedFlight := Apply(action, selectedFlight);
    }

    method SetPassengers(action: SetStateAction<seq<Passenger>>)
      modifies this`passengers
      ensures passengers == Apply(action, old(passengers))
      ensures searchParams == old(searchParams) && selectedFlight == old(selectedFlight)
      ensures bookingDetails == old(bookingDetails)
    {
      passengers := Apply(action, passengers);
    }

    method SetBookingDetails(action: SetStateAction<Option<BookingDetails>>)
      modifies this`bookingDetails
      ensures bookingDetails == Apply(action, old(bookingDetails))
      ensures searchParams == old(searchParams) && selectedFlight == old(selectedFlight)
      ensures passengers == old(passengers)
    {
      bookingDetails := Apply(action, bookingDetails);
    }
  }

  const NoProviderMessage: string := "useAppContext must be used within an AppProvider"

  /** `useAppContext`: the nearest provider's session, or the error thrown
      when the component is not inside a provider. */
  function UseAppContext(provider: Option<AppSession>): (r: Result<AppSession, string>)
    ensures r.Failure? <==> provider.None?
    ensures r.Success? ==> r.value == provider.value
    ensures r.Failure? ==> r.error == NoProviderMessage
  {
    match provider
    case None => Failure(NoProviderMessage)
    case Some(session) => Success(session)
  }
}
