/** The records of `src/types/index.ts`. A JavaScript `number` that counts
    (passengers, rows, seats) is an `int` or a `nat`; a money amount is a
    `real`; an optional property (`x?: T`) or a nullable one is an `Option`. */
module Types {
  import opened Wrappers

  datatype FlightClass = Economy | PremiumEconomy | Business | First

  /** The string literal of each fare class, as the source spells it. */
  function FlightClassName(c: FlightClass): string {
    match c
    case Economy => "economy"
    case PremiumEconomy => "premium_economy"
    case Business => "business"
    case First => "first"
  }

  datatype Airport = Airport(code: string, name: string, city: string, country: string)

  datatype Airline = Airline(code: string, name: string, logo: string)

  datatype SearchParams = SearchParams(
    from: string,
    to: string,
    departDate: string,
    returnDate: string,
    passengers: int,
    flightClass: FlightClass)

  datatype FlightSegment = FlightSegment(
    departureAirport: Airport,
    arrivalAirport: Airport,
    departureTime: string,
    arrivalTime: string,
    duration: string,
    airline: Airline,
    flightNumber: string,
    aircraft: string)

  datatype Money = Money(amount: real, currency: string)

  datatype BaggageAllowance = BaggageAllowance(cabin: string, checked: string)

  datatype Flight = Flight(
    id: string,
    segments: seq<FlightSegment>,
    price: Money,
    seatsAvailable: int,
    flightClass: FlightClass,
    isRefundable: bool,
    baggageAllowance: BaggageAllowance)

  datatype SeatStatus = Available | Unavailable | Selected

  datatype SeatType = Standard | ExtraLegroom | Premium

  datatype Seat = Seat(
    row: nat,
    col: string,
    status: SeatStatus,
    price: Option<real>,
    seatType: Option<SeatType>)

  datatype SeatMap = SeatMap(rows: nat, cols: nat, seats: seq<Seat>)

  datatype PassengerType = Adult | Child | Infant

  datatype Passenger = Passenger(
    id: string,
    passengerType: PassengerType,
    title: string,
    firstName: string,
    lastName: string,
    dateOfBirth: string,
    nationality: string,
    passportNumber: Option<string>,
    passportExpiry: Option<string>,
    seat: Option<string>,
    specialRequests: Option<seq<string>>)

  datatype ContactInfo = ContactInfo(email: string, phone: string)

  datatype PriceBreakdown = PriceBreakdown(subtotal: real, taxes: real, total: real, currency: string)

  datatype BookingStatus = Confirmed | Pending | Cancelled

  datatype BookingDetails = BookingDetails(
    bookingNumber: string,
    bookingDate: string,
    outboundFlight: Flight,
    returnFlight: Option<Flight>,
    passengers: seq<Passenger>,
    contactInfo: ContactInfo,
    price: PriceBreakdown,
    paymentMethod: string,
    status: BookingStatus)
}
