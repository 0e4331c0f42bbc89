/** The payment step of src/pages/Payment.tsx: the card-field checks that
    fill the error record, the input reformatters for the card number, the
    expiry date and the CVV, the price breakdown, the payment descriptor and
    the booking record the submit stores in the session. */
module Payment {
  import opened Wrappers
  import opened Text
  import opened Types
  import opened AppContext
  import opened Helpers

  datatype PaymentMethod = CreditCard | PayPal | ApplePay

  function Min(a: int, b: int): int {
    if a <= b then a else b
  }

  // ---------------------------------------------------------------------
  // Field checks
  // ---------------------------------------------------------------------

  const CardNumberRequired: string := "Card number is required"
  const CardNumberInvalid: string := "Please enter a valid 16-digit card number"
  const CardNameRequired: string := "Cardholder name is required"
  const ExpiryRequired: string := "Expiry date is required"
  const ExpiryInvalid: string := "Please use MM/YY format"
  const CvvRequired: string := "CVV is required"
  const CvvInvalid: string := "CVV must be 3 or 4 digits"

  /** `/^\d{16}$/`. */
  predicate IsCardDigits(s: string) {
    |s| == 16 && AllDigits(s)
  }

  /** `0[1-9]|1[0-2]`. */
  predicate IsMonth(tens: char, units: char) {
    (tens == '0' && '1' <= units <= '9') || (tens == '1' && '0' <= units <= '2')
  }

  /** `/^(0[1-9]|1[0-2])\/\d{2}$/`. */
  predicate IsExpiryFormat(s: string) {
    |s| == 5 && IsMonth(s[0], s[1]) && s[2] == '/' && IsDigit(s[3]) && IsDigit(s[4])
  }

  /** `/^\d{3,4}$/`. */
  predicate IsCvvFormat(s: string) {
    3 <= |s| <= 4 && AllDigits(s)
  }

  /** The card-number message: presence first, then 16 digits once every
      `\s` character is deleted. */
  function CardNumberError(cardNumber: string): (r: Option<string>)
    ensures r == Some(CardNumberRequired) <==> cardNumber == ""
    ensures r == Some(CardNumberInvalid) <==> cardNumber != "" && !IsCardDigits(RemoveWhitespace(cardNumber))
    ensures r.None? <==> cardNumber != "" && IsCardDigits(RemoveWhitespace(cardNumber))
  {
    if cardNumber == "" then Some(CardNumberRequired)
    else if !IsCardDigits(RemoveWhitespace(cardNumber)) then Some(CardNumberInvalid)
    else None
  }

  function CardNameError(cardName: string): (r: Option<string>)
    ensures r.Some? <==> cardName == ""
    ensures r.Some? ==> r.value == CardNameRequired
  {
    if cardName == "" then Some(CardNameRequired) else None
  }

  function ExpiryError(expiryDate: string): (r: Option<string>)
    ensures r == Some(ExpiryRequired) <==> expiryDate == ""
    ensures r == Some(ExpiryInvalid) <==> expiryDate != "" && !IsExpiryFormat(expiryDate)
    ensures r.None? <==> IsExpiryFormat(expiryDate)
  {
    if expiryDate == "" then Some(ExpiryRequired)
    else if !IsExpiryFormat(expiryDate) then Some(ExpiryInvalid)
    else None
  }

  function CvvError(cvv: string): (r: Option<string>)
    ensures r == Some(CvvRequired) <==> cvv == ""
    ensures r == Some(CvvInvalid) <==> cvv != "" && !IsCvvFormat(cvv)
    ensures r.None? <==> IsCvvFormat(cvv)
  {
    if cvv == "" then Some(CvvRequired)
    else if !IsCvvFormat(cvv) then Some(CvvInvalid)
    else None
  }

  /** A number typed as digits only is accepted exactly when it has sixteen. */
  lemma DigitOnlyCardNumbers(cardNumber: string)
    requires AllDigits(cardNumber) && cardNumber != ""
    ensures CardNumberError(cardNumber).None? <==> |cardNumber| == 16
    ensures |cardNumber| != 16 ==> CardNumberError(cardNumber) == Some(CardNumberInvalid)
  {
    DigitsKeepAll(cardNumber);
  }

  /** The keys of the error record: `cardNumber`, `cardName`, `expiryDate`, `cvv`. */
  datatype PaymentField = CardNumberField | CardNameField | ExpiryDateField | CvvField

  function FieldName(f: PaymentField): string {
    match f
    case CardNumberField => "cardNumber"
    case CardNameField => "cardName"
    case ExpiryDateField => "expiryDate"
    case CvvField => "cvv"
  }

  /** Different fields have different property names. */
  lemma FieldNamesDistinct(f: PaymentField, g: PaymentField)
    ensures f != g ==> FieldName(f) != FieldName(g)
  {
    if f != g && |FieldName(f)| == |FieldName(g)| {
      assert FieldName(f)[1] != FieldName(g)[1];
    }
  }

  /** The record `validateForm` builds: only the card method is checked,
      and each field carries at most one message. */
  function PaymentErrors(paymentMethod: PaymentMethod, cardNumber: string, cardName: string,
                         expiryDate: string, cvv: string): (r: map<PaymentField, string>)
    ensures paymentMethod != CreditCard ==> r == map[]
    ensures CardNumberField in r <==> paymentMethod == CreditCard && CardNumberError(cardNumber).Some?
    ensures CardNumberField in r ==> r[CardNumberField] == CardNumberError(cardNumber).value
    ensures CardNameField in r <==> paymentMethod == CreditCard && CardNameError(cardName).Some?
    ensures CardNameField in r ==> r[CardNameField] == CardNameError(cardName).value
    ensures ExpiryDateField in r <==> paymentMethod == CreditCard && ExpiryError(expiryDate).Some?
    ensures ExpiryDateField in r ==> r[ExpiryDateField] == ExpiryError(expiryDate).value
    ensures CvvField in r <==> paymentMethod == CreditCard && CvvError(cvv).Some?
    ensures CvvField in r ==> r[CvvField] == CvvError(cvv).value
    ensures r == map[] <==>
              paymentMethod != CreditCard ||
              (CardNumberError(cardNumber).None? && CardNameError(cardName).None? &&
               ExpiryError(expiryDate).None? && CvvError(cvv).None?)
  {
    if paymentMethod != CreditCard then map[]
    else
      var m1: map<PaymentField, string> :=
        if CardNumberError(cardNumber).Some? then map[CardNumberField := CardNumberError(cardNumber).value] else map[];
      var m2 := if CardNameError(cardName).Some? then m1[CardNameField := CardNameError(cardName).value] else m1;
      var m3 := if ExpiryError(expiryDate).Some? then m2[ExpiryDateField := ExpiryError(expiryDate).value] else m2;
      var m4 := if CvvError(cvv).Some? then m3[CvvField := CvvError(cvv).value] else m3;
      assert CardNumberField in m4 || CardNameField in m4 || ExpiryDateField in m4 || CvvField in m4 ==> m4 != map[];
      m4
  }

  // ---------------------------------------------------------------------
  // Card-number formatting
  // ---------------------------------------------------------------------

  /** `v.match(/\d{4,16}/g)[0]` on a string of digits: its first sixteen
      digits, or nothing when it has fewer than four. */
  function FirstDigitRun(v: string): (r: string)
    requires AllDigits(v)
    ensures |v| >= 4 ==> r == v[..Min(16, |v|)]
    ensures |v| < 4 ==> r == ""
  {
    if |v| >= 4 then v[..Min(16, |v|)] else ""
  }

  /** `match.substring(i, i + 4)` for `i = 0, 4, 8, ...`. */
  function Chunks4(m: string): (r: seq<string>)
    ensures |r| == (|m| + 3) / 4
    ensures forall k :: 0 <= k < |r| ==> r[k] == m[4 * k .. Min(4 * k + 4, |m|)]
    decreases |m|
  {
    if |m| == 0 then []
    else if |m| <= 4 then [m]
    else
      var rest := Chunks4(m[4..]);
      forall k | 1 <= k < 1 + |rest|
        ensures rest[k - 1] == m[4 * k .. Min(4 * k + 4, |m|)]
      {
        ChunkShift(m, k);
      }
      [m[..4]] + rest
  }

  lemma ChunkShift(m: string, k: nat)
    requires 1 <= k && 4 * k < |m|
    ensures m[4..][4 * (k - 1) .. Min(4 * (k - 1) + 4, |m| - 4)] == m[4 * k .. Min(4 * k + 4, |m|)]
  {
  }

  /** The value `formatCardNumber` returns for an input. */
  function CardNumberDisplay(value: string): (r: string)
    ensures |KeepDigits(value)| < 4 ==> r == value
    ensures |KeepDigits(value)| >= 4 ==>
              && RemoveWhitespace(r) == KeepDigits(value)[..Min(16, |KeepDigits(value)|)]
              && |r| <= 19
    ensures |KeepDigits(value)| >= 4 ==>
              var n := Min(16, |KeepDigits(value)|);
              && |r| == n + (n + 3) / 4 - 1
              && forall i :: 0 <= i < |r| ==> (r[i] == ' ' <==> i % 5 == 4)
  {
    KeepDigitsAfterRemoveWhitespace(value);
    var m := FirstDigitRun(KeepDigits(RemoveWhitespace(value)));
    if |m| > 0 then
      ChunksJoinDigits(m);
      ChunksJoinLength(m);
      ChunksJoinSpacing(m);
      Join(Chunks4(m), " ")
    else value
  }

  /** Deleting the separators gives the digits back. */
  lemma {:induction false} ChunksJoinDigits(m: string)
    requires AllDigits(m)
    ensures RemoveWhitespace(Join(Chunks4(m), " ")) == m
    decreases |m|
  {
    if |m| <= 4 {
      DigitsKeepAll(m);
    } else {
      var head, rest := m[..4], Join(Chunks4(m[4..]), " ");
      assert Chunks4(m) == [head] + Chunks4(m[4..]);
      assert Join(Chunks4(m), " ") == (head + " ") + rest;
      ChunksJoinDigits(m[4..]);
      DigitsKeepAll(head);
      FilterAppend(head, " ", NotWhitespace);
      assert Filter(" ", NotWhitespace) == [];
      FilterAppend(head + " ", rest, NotWhitespace);
      assert m == head + m[4..];
    }
  }

  /** One separator between consecutive groups. */
  lemma {:induction false} ChunksJoinLength(m: string)
    requires |m| > 0
    ensures |Join(Chunks4(m), " ")| == |m| + (|m| + 3) / 4 - 1
    decreases |m|
  {
    if |m| > 4 {
      ChunksJoinLength(m[4..]);
      assert Join(Chunks4(m), " ") == m[..4] + " " + Join(Chunks4(m[4..]), " ");
    }
  }

  /** Groups of four digits separated by single spaces: a space stands
      exactly at every fifth position. */
  lemma {:induction false} ChunksJoinSpacing(m: string)
    requires AllDigits(m) && |m| > 0
    ensures forall i :: 0 <= i < |Join(Chunks4(m), " ")| ==>
              (Join(Chunks4(m), " ")[i] == ' ' <==> i % 5 == 4)
    decreases |m|
  {
    var j := Join(Chunks4(m), " ");
    if |m| <= 4 {
      assert j == m;
      forall i | 0 <= i < |j|
        ensures j[i] == ' ' <==> i % 5 == 4
      {
        assert IsDigit(m[i]);
      }
    } else {
      var rest := Join(Chunks4(m[4..]), " ");
      assert Chunks4(m) == [m[..4]] + Chunks4(m[4..]);
      assert j == m[..4] + " " + rest;
      ChunksJoinSpacing(m[4..]);
      forall i | 0 <= i < |j|
        ensures j[i] == ' ' <==> i % 5 == 4
      {
        if i < 4 {
          assert j[i] == m[i] && IsDigit(m[i]);
        } else if i >= 5 {
          assert j[i] == rest[i - 5];
          assert rest[i - 5] == ' ' <==> (i - 5) % 5 == 4;
          assert (i - 5) % 5 == i % 5;
        }
      }
    }
  }

  /** Taking one group off the front of the remaining digits. */
  lemma ChunksStep(m: string, i: nat)
    requires i < |m|
    ensures Chunks4(m[i..]) == [m[i..Min(i + 4, |m|)]] + Chunks4(m[Min(i + 4, |m|)..])
  {
    var t := m[i..];
    if |t| > 4 {
      assert t[..4] == m[i..i + 4];
      assert t[4..] == m[i + 4..];
    } else {
      assert t == m[i..|m|];
      assert m[|m|..] == [];
    }
  }

  /** `formatCardNumber`. */
  method FormatCardNumber(value: string) returns (formatted: string)
    ensures formatted == CardNumberDisplay(value)
  {
    var v := KeepDigits(RemoveWhitespace(value));
    var m := FirstDigitRun(v);
    var parts := GroupInFours(m);
    if |parts| > 0 {
      formatted := Join(parts, " ");
    } else {
      formatted := value;
    }
  }

  /** The `for (let i = 0; i < len; i += 4)` loop of `formatCardNumber`. */
  method GroupInFours(m: string) returns (parts: seq<string>)
    ensures parts == Chunks4(m)
  {
    parts := [];
    var i := 0;
    var len := |m|;
    while i < len
      invariant 0 <= i < len + 4
      invariant parts + Chunks4(m[Min(i, len)..]) == Chunks4(m)
    {
      ChunksStep(m, i);
      parts := parts + [m[i..Min(i + 4, len)]];
      i := i + 4;
    }
    assert m[Min(i, len)..] == [];
  }

  /** Any input with at least sixteen digits passes the card-number check
      once formatted; with four to fifteen digits it fails the 16-digit check. */
  lemma FormattedCardAccepted(value: string)
    requires |KeepDigits(value)| >= 4
    ensures CardNumberError(CardNumberDisplay(value)).None? <==> |KeepDigits(value)| >= 16
    ensures |KeepDigits(value)| < 16 ==> CardNumberError(CardNumberDisplay(value)) == Some(CardNumberInvalid)
  {
  }

  /** The last group of a sixteen-digit display is the last four digits. */
  lemma FormattedCardEnding(value: string)
    requires |KeepDigits(value)| >= 16
    ensures SliceLast(CardNumberDisplay(value), 4) == KeepDigits(value)[12..16]
  {
    KeepDigitsAfterRemoveWhitespace(value);
    var m := KeepDigits(value)[..16];
    var chunks := Chunks4(m);
    assert |chunks| == 4;
    JoinEndsWithLast(chunks, " ");
    assert chunks[3] == KeepDigits(value)[12..16];
  }

  lemma {:induction false} JoinEndsWithLast(parts: seq<string>, sep: string)
    requires |parts| > 0
    ensures |Join(parts, sep)| >= |parts[|parts| - 1]|
    ensures Join(parts, sep)[|Join(parts, sep)| - |parts[|parts| - 1]|..] == parts[|parts| - 1]
  {
    if |parts| > 1 {
      JoinEndsWithLast(parts[1..], sep);
      assert parts[1..][|parts| - 2] == parts[|parts| - 1];
      var tail := Join(parts[1..], sep);
      assert Join(parts, sep) == (parts[0] + sep) + tail;
    }
  }

  // ---------------------------------------------------------------------
  // Expiry and CVV inputs
  // ---------------------------------------------------------------------

  /** What `handleExpiryDateChange` stores: the digits, with a `/` after the
      first two once there are more than two. */
  function ReformatExpiry(value: string): (r: string)
    ensures |KeepDigits(value)| <= 2 ==> r == KeepDigits(value)
    ensures |KeepDigits(value)| > 2 ==>
              && 4 <= |r| <= 5 && r[2] == '/'
              && r[..2] == KeepDigits(value)[..2]
              && r[3..] == KeepDigits(value)[2..Min(4, |KeepDigits(value)|)]
  {
    var digits := KeepDigits(value);
    if |digits| > 2 then digits[..2] + "/" + digits[2..Min(4, |digits|)] else digits
  }

  /** The reformatted date passes the expiry check exactly when at least four
      digits were typed and the first two form a month 01 to 12. */
  lemma ReformattedExpiryAccepted(value: string)
    ensures ExpiryError(ReformatExpiry(value)).None? <==>
              |KeepDigits(value)| >= 4 && IsMonth(KeepDigits(value)[0], KeepDigits(value)[1])
  {
    var d := KeepDigits(value);
    var r := ReformatExpiry(value);
    if |d| > 2 {
      assert r[0] == d[0] && r[1] == d[1];
      if |d| >= 4 {
        assert r[3] == d[2] && r[4] == d[3];
      }
    }
  }

  /** What the CVV input stores: its digits. The stored value passes the
      check exactly when three or four digits were typed. */
  lemma CvvInputAccepted(value: string)
    ensures CvvError(KeepDigits(value)).None? <==> 3 <= |KeepDigits(value)| <= 4
    ensures CvvError(KeepDigits(value)) == Some(CvvRequired) <==> |KeepDigits(value)| == 0
  {
  }

  // ---------------------------------------------------------------------
  // Price, descriptor and booking record
  // ---------------------------------------------------------------------

  /** Base fare times the searched passenger count, plus 12% taxes. */
  function PriceFor(basePrice: real, passengerCount: int, currency: string): (r: PriceBreakdown)
    ensures r.subtotal == basePrice * passengerCount as real
    ensures r.taxes == r.subtotal * 0.12
    ensures r.total == r.subtotal * 1.12 && r.total == r.subtotal + r.taxes
    ensures r.currency == currency
  {
    var subtotal := basePrice * passengerCount as real;
    var taxes := subtotal * 0.12;
    PriceBreakdown(subtotal, taxes, subtotal + taxes, currency)
  }

  /** Two passengers at 689: 1378 plus 165.36 taxes is 1543.36. */
  lemma PriceExample()
    ensures PriceFor(689.0, 2, "USD") == PriceBreakdown(1378.0, 165.36, 1543.36, "USD")
  {
  }

  const CardEndingPrefix: string := "Card ending in "

  /** The `paymentMethod` text of the booking record. */
  function PaymentDescriptor(paymentMethod: PaymentMethod, cardNumber: string): (r: string)
    ensures paymentMethod == CreditCard ==>
              && |r| == |CardEndingPrefix| + Min(4, |cardNumber|)
              && r[..|CardEndingPrefix|] == CardEndingPrefix
              && r[|CardEndingPrefix|..] == SliceLast(cardNumber, 4)
    ensures paymentMethod == PayPal ==> r == "PayPal"
    ensures paymentMethod == ApplePay ==> r == "Apple Pay"
  {
    match paymentMethod
    case CreditCard => CardEndingPrefix + SliceLast(cardNumber, 4)
    case PayPal => "PayPal"
    case ApplePay => "Apple Pay"
  }

  /** A card entered with at least sixteen digits is described by its
      thirteenth to sixteenth digits. */
  lemma DescriptorOfFormattedCard(value: string)
    requires |KeepDigits(value)| >= 16
    ensures PaymentDescriptor(CreditCard, CardNumberDisplay(value)) == CardEndingPrefix + KeepDigits(value)[12..16]
  {
    FormattedCardEnding(value);
  }

  const PlaceholderContact: ContactInfo := ContactInfo("user@example.com", "+1234567890")

  /** The record the submit stores: confirmed, one way, with the placeholder
      contact details. */
  function BuildBooking(bookingNumber: string, bookingDate: string, flight: Flight,
                        passengers: seq<Passenger>, price: PriceBreakdown, descriptor: string)
    : (r: BookingDetails)
    ensures r.status == Confirmed && r.returnFlight == None
    ensures r.contactInfo == ContactInfo("user@example.com", "+1234567890")
    ensures r.bookingNumber == bookingNumber && r.bookingDate == bookingDate
    ensures r.outboundFlight == flight && r.passengers == passengers
    ensures r.price == price && r.paymentMethod == descriptor
  {
    BookingDetails(bookingNumber, bookingDate, flight, None, passengers, PlaceholderContact,
                   price, descriptor, Confirmed)
  }

  // ---------------------------------------------------------------------
  // The page
  // ---------------------------------------------------------------------

  /** The body of `validateForm`: a fresh record, written field by field
      when the card method is selected. */
  method CollectPaymentErrors(paymentMethod: PaymentMethod, cardNumber: string, cardName: string,
                              expiryDate: string, cvv: string)
    returns (newErrors: map<PaymentField, string>)
    ensures newErrors == PaymentErrors(paymentMethod, cardNumber, cardName, expiryDate, cvv)
  {
    newErrors := map[];
    if paymentMethod == CreditCard {
      if cardNumber == "" {
        newErrors := newErrors[CardNumberField := CardNumberRequired];
      } else if !IsCardDigits(RemoveWhitespace(cardNumber)) {
        newErrors := newErrors[CardNumberField := CardNumberInvalid];
      }
      if cardName == "" {
        newErrors := newErrors[CardNameField := CardNameRequired];
      }
      if expiryDate == "" {
        newErrors := newErrors[ExpiryDateField := ExpiryRequired];
      } else if !IsExpiryFormat(expiryDate) {
        newErrors := newErrors[ExpiryDateField := ExpiryInvalid];
      }
      if cvv == "" {
        newErrors := newErrors[CvvField := CvvRequired];
      } else if !IsCvvFormat(cvv) {
        newErrors := newErrors[CvvField := CvvInvalid];
      }
    }
  }

  datatype PageView = RedirectHome | ShowForm

  /** Without a chosen flight or with no passengers the page goes back to the start. */
  function View(selectedFlight: Option<Flight>, passengers: seq<Passenger>): (r: PageView)
    ensures r == ShowForm <==> selectedFlight.Some? && |passengers| > 0
  {
    if selectedFlight.None? || |passengers| == 0 then RedirectHome else ShowForm
  }

  datatype SubmitOutcome = GoToConfirmation | StayOnPayment

  /** The page's `useState` cells and its handlers. */
  class PaymentPage {
    var cardNumber: string
    var cardName: string
    var expiryDate: string
    var cvv: string
    var paymentMethod: PaymentMethod
    var isLoading: bool
    var errors: map<PaymentField, string>

    constructor ()
      ensures cardNumber == "" && cardName == "" && expiryDate == "" && cvv == ""
      ensures paymentMethod == CreditCard && !isLoading && errors == map[]
    {
      cardNumber, cardName, expiryDate, cvv := "", "", "", "";
      paymentMethod := CreditCard;
      isLoading := false;
      errors := map[];
    }

    /** The method buttons. */
    method SelectMethod(m: PaymentMethod)
      modifies this`paymentMethod
      ensures paymentMethod == m
    {
      paymentMethod := m;
    }

    /** `handleCardNumberChange`. */
    method OnCardNumberChange(value: string)
      modifies this`cardNumber
      ensures cardNumber == CardNumberDisplay(value)
    {
      cardNumber := FormatCardNumber(value);
    }

    method OnCardNameChange(value: string)
      modifies this`cardName
      ensures cardName == value
    {
      cardName := value;
    }

    /** `handleExpiryDateChange`. */
    method OnExpiryDateChange(input: string)
      modifies this`expiryDate
      ensures expiryDate == ReformatExpiry(input)
    {
      var value := input;
      value := KeepDigits(value);
      if |value| > 2 {
        value := value[..2] + "/" + value[2..Min(4, |value|)];
      }
      expiryDate := value;
    }

    /** The CVV input's `onChange`: non-digits are dropped. */
    method OnCvvChange(value: string)
      modifies this`cvv
      ensures cvv == KeepDigits(value)
    {
      cvv := KeepDigits(value);
    }

    /** `validateForm`: writes the messages into a fresh record, stores it,
        and reports whether it has no key. */
    method ValidateForm() returns (valid: bool)
      modifies this`errors
      ensures errors == PaymentErrors(paymentMethod, cardNumber, cardName, expiryDate, cvv)
      ensures valid <==> errors == map[]
    {
      var newErrors := CollectPaymentErrors(paymentMethod, cardNumber, cardName, expiryDate, cvv);
      errors := newErrors;
      valid := |newErrors| == 0;
      if |newErrors| != 0 {
        assert newErrors.Keys != {};
      }
    }

    /** `handleSubmit`: on a valid form, draws a booking reference, builds
        the confirmed booking and stores it in the session. The page only
        shows its form, so only submits, with a flight and passengers chosen. */
    method HandleSubmit(session: AppSession, draws: seq<real>, bookingDate: string)
      returns (outcome: SubmitOutcome)
      requires ValidDraws(draws)
      requires session.selectedFlight.Some? && |session.passengers| > 0
      modifies this`errors, this`isLoading, session`bookingDetails
      ensures errors == PaymentErrors(paymentMethod, cardNumber, cardName, expiryDate, cvv)
      ensures outcome == GoToConfirmation <==> errors == map[]
      ensures outcome == GoToConfirmation ==>
                && isLoading
                && session.bookingDetails == Some(BuildBooking(
                     ReferenceFromDraws(draws), bookingDate, session.selectedFlight.value, session.passengers,
                     PriceFor(session.selectedFlight.value.price.amount, session.searchParams.passengers,
                              session.selectedFlight.value.price.currency),
                     PaymentDescriptor(paymentMethod, cardNumber)))
      ensures outcome == StayOnPayment ==>
                isLoading == old(isLoading) && session.bookingDetails == old(session.bookingDetails)
      ensures session.searchParams == old(session.searchParams)
      ensures session.selectedFlight == old(session.selectedFlight)
      ensures session.passengers == old(session.passengers)
    {
      var valid := ValidateForm();
      if !valid {
        return StayOnPayment;
      }
      isLoading := true;
      var flight := session.selectedFlight.value;
      var price := PriceFor(flight.price.amount, session.searchParams.passengers, flight.price.currency);
      var bookingNumber := GenerateBookingNumber(draws);
      var booking := BuildBooking(bookingNumber, bookingDate, flight, session.passengers, price,
                                  PaymentDescriptor(paymentMethod, cardNumber));
      session.SetBookingDetails(Replace(Some(booking)));
      outcome := GoToConfirmation;
    }
  }

  /** A booking stored by a successful submit carries a reference of the
      two-letters-four-digits shape and is confirmed. */
  lemma StoredBookingShape(draws: seq<real>, bookingDate: string, flight: Flight, passengers: seq<Passenger>,
                           price: PriceBreakdown, descriptor: string)
    requires ValidDraws(draws)
    ensures var b := BuildBooking(ReferenceFromDraws(draws), bookingDate, flight, passengers, price, descriptor);
            IsBookingReference(b.bookingNumber) && b.status == Confirmed
  {
  }
}
