/**
 * The hotel booking page: the room catalogue, the booking form and its validation, the stay
 * length, the choice between live and fallback pricing, the payment request it sends, and the
 * booking record it stores once the payment has gone through.
 *
 * Form dates are turned into instants (milliseconds) by `dateOf`, standing for `new Date(…)`;
 * `today` is the instant of the local midnight that starts the current day.
 */
module BookHotel {
  import opened Wrappers
  import opened Js
  import opened Bookings
  import opened Lifecycle
  import opened Pricing
  import opened PaymentApi

  /** The room categories offered, in the order of the selector. */
  const RoomTypes: seq<Room> := [
    Room("standard", "Standard Room", "Comfortable room with essential amenities",
         ["Free WiFi", "Air Conditioning", "TV", "Private Bathroom"], 2, "prod_standard_room"),
    Room("deluxe", "Deluxe Room", "Spacious room with premium amenities",
         ["Free WiFi", "Air Conditioning", "Smart TV", "Mini Bar", "City View"], 3, "prod_deluxe_room"),
    Room("suite", "Suite", "Luxurious suite with separate living area",
         ["Free WiFi", "Air Conditioning", "Smart TV", "Mini Bar", "Ocean View", "Balcony"], 4, "prod_suite_room"),
    Room("family", "Family Room", "Large room perfect for families",
         ["Free WiFi", "Air Conditioning", "Smart TV", "Kitchenette", "Sofa Bed"], 6, "prod_family_room")
  ]

  /** `roomTypes.find(room => room.id === id)`: the first room with that id. */
  function FindRoom(id: string): (r: Option<Room>)
    ensures r.Some? ==> r.value in RoomTypes && r.value.id == id
    ensures r.None? <==> forall i :: 0 <= i < |RoomTypes| ==> RoomTypes[i].id != id
  {
    if id == "standard" then Some(RoomTypes[0])
    else if id == "deluxe" then Some(RoomTypes[1])
    else if id == "suite" then Some(RoomTypes[2])
    else if id == "family" then Some(RoomTypes[3])
    else None
  }

  /** Each room's product is the one the server prices, and the capacities are 2, 3, 4 and 6. */
  lemma RoomCatalogue(id: string)
    requires FindRoom(id).Some?
    ensures FindRoom(id).value.stripeProductId == ProductOf(id)
    ensures FindRoom(id).value.maxGuests == (if id == "standard" then 2 else if id == "deluxe" then 3
                                              else if id == "suite" then 4 else 6)
    ensures CatalogueRate(FindRoom(id).value.stripeProductId) == FallbackRate(id)
  {
  }

  /** The form state `formData`: every field starts as the empty string. */
  const InitialForm: map<string, string> := map[
    "name" := "", "email" := "", "mobile" := "", "roomType" := "",
    "guests" := "", "checkIn" := "", "checkOut" := "", "specialRequests" := ""]

  /** `handleInputChange`: the named field takes the value and every other field is kept. */
  function HandleInputChange(form: map<string, string>, name: string, value: string): (r: map<string, string>)
    ensures Field(r, name) == value
    ensures forall k :: k != name ==> Field(r, k) == Field(form, k) && (k in r <==> k in form)
  {
    WithField(form, name, value)
  }

  /** The fields that must be filled, in the order they are checked. */
  const RequiredFields: seq<string> := ["name", "email", "mobile", "roomType", "guests", "checkIn", "checkOut"]

  /** The first field of `fields` left empty, if any. */
  function FirstMissing(form: map<string, string>, fields: seq<string>): (r: Option<string>)
    ensures r.None? <==> forall i :: 0 <= i < |fields| ==> Filled(form, fields[i])
    ensures r.Some? ==> r.value in fields && !Filled(form, r.value)
  {
    if |fields| == 0 then None
    else if !Filled(form, fields[0]) then Some(fields[0])
    else FirstMissing(form, fields[1..])
  }

  /** The field reported is the first empty one: every field checked before it is filled. */
  lemma {:induction false} FirstMissingIsFirst(form: map<string, string>, fields: seq<string>)
    requires FirstMissing(form, fields).Some?
    ensures exists i :: 0 <= i < |fields| && fields[i] == FirstMissing(form, fields).value
                        && forall k :: 0 <= k < i ==> Filled(form, fields[k])
  {
    if Filled(form, fields[0]) {
      FirstMissingIsFirst(form, fields[1..]);
      var i :| 0 <= i < |fields[1..]| && fields[1..][i] == FirstMissing(form, fields[1..]).value
                && forall k :: 0 <= k < i ==> Filled(form, fields[1..][k]);
      assert fields[i + 1] == FirstMissing(form, fields).value;
      forall k | 0 <= k < i + 1
        ensures Filled(form, fields[k])
      {
        if k > 0 {
          assert fields[k] == fields[1..][k - 1];
        }
      }
    } else {
      assert fields[0] == FirstMissing(form, fields).value;
    }
  }

  /** `field.replace(/([A-Z])/g, ' $1')`: a space before every capital letter. */
  function SpaceBeforeCapitals(s: string): (r: string)
    ensures |r| >= |s|
  {
    if |s| == 0 then []
    else (if 'A' <= s[0] <= 'Z' then [' ', s[0]] else [s[0]]) + SpaceBeforeCapitals(s[1..])
  }

  /** How a missing field is named in the error, e.g. "room type" for `roomType`. */
  function FieldLabel(field: string): string
  {
    ToLower(SpaceBeforeCapitals(field))
  }

  predicate NoCapitals(s: string)
  {
    forall k :: 0 <= k < |s| ==> !('A' <= s[k] <= 'Z')
  }

  lemma {:induction false} SpaceBeforeCapitalsNone(s: string)
    requires NoCapitals(s)
    ensures SpaceBeforeCapitals(s) == s
  {
    if |s| > 0 {
      SpaceBeforeCapitalsNone(s[1..]);
    }
  }

  lemma {:induction false} SpaceBeforeCapitalsAppend(a: string, b: string)
    ensures SpaceBeforeCapitals(a + b) == SpaceBeforeCapitals(a) + SpaceBeforeCapitals(b)
  {
    if |a| == 0 {
      assert a + b == b;
    } else {
      assert (a + b)[0] == a[0];
      assert (a + b)[1..] == a[1..] + b;
      SpaceBeforeCapitalsAppend(a[1..], b);
      var head := if 'A' <= a[0] <= 'Z' then [' ', a[0]] else [a[0]];
      assert SpaceBeforeCapitals(a + b) == head + SpaceBeforeCapitals(a[1..] + b);
      assert SpaceBeforeCapitals(a) == head + SpaceBeforeCapitals(a[1..]);
    }
  }

  /** A one-word field is named as it is. */
  lemma LabelOfWord(field: string)
    requires NoCapitals(field)
    ensures FieldLabel(field) == field
  {
    SpaceBeforeCapitalsNone(field);
  }

  /** A two-word camel-case field is named by its words, lower-cased and split by a space ("room type"). */
  lemma LabelOfCamelCase(first: string, capital: char, rest: string)
    requires NoCapitals(first) && NoCapitals(rest) && 'A' <= capital <= 'Z'
    ensures FieldLabel(first + [capital] + rest) == first + [' ', LowerChar(capital)] + rest
  {
    SpaceBeforeCapitalsAppend(first + [capital], rest);
    SpaceBeforeCapitalsAppend(first, [capital]);
    SpaceBeforeCapitalsNone(first);
    SpaceBeforeCapitalsNone(rest);
    assert SpaceBeforeCapitals([capital]) == [' ', capital];
  }

  /** A character the email pattern's `[^\s@]` class accepts. */
  predicate Plain(c: char)
  {
    !IsSpace(c) && c != '@'
  }

  /** A non-empty run of such characters, `[^\s@]+`. */
  predicate PlainRun(t: string)
  {
    |t| > 0 && forall k :: 0 <= k < |t| ==> Plain(t[k])
  }

  /** The email pattern `^[^\s@]+@[^\s@]+\.[^\s@]+$` as a decomposition of s. */
  ghost predicate EmailShape(s: string)
  {
    exists i, j :: 0 <= i < j < |s| && s[i] == '@' && s[j] == '.'
      && PlainRun(s[..i]) && PlainRun(s[i + 1..j]) && PlainRun(s[j + 1..])
  }

  /** A '.' in the domain after the '@' at i, with text on both sides of it. */
  predicate InnerDot(s: string, i: int)
    requires 0 <= i
  {
    exists j :: i + 1 < j < |s| - 1 && s[j] == '.'
  }

  /** The '@' at i is the only one. */
  predicate OnlyAt(s: string, i: int)
  {
    forall k :: 0 <= k < |s| && s[k] == '@' ==> k == i
  }

  /**
   * An acceptable email: no white space, exactly one '@', not at the start, and a '.' in the
   * domain with text on both sides.
   */
  predicate ValidEmail(s: string)
  {
    && (forall k :: 0 <= k < |s| ==> !IsSpace(s[k]))
    && exists i :: 0 < i < |s| && s[i] == '@' && OnlyAt(s, i) && InnerDot(s, i)
  }

  /** The email check accepts exactly the strings the pattern matches. */
  lemma ValidEmailIffShape(s: string)
    ensures ValidEmail(s) <==> EmailShape(s)
  {
    if ValidEmail(s) {
      var i :| 0 < i < |s| && s[i] == '@' && OnlyAt(s, i) && InnerDot(s, i);
      var j :| i + 1 < j < |s| - 1 && s[j] == '.';
      forall k | 0 <= k < |s| && k != i
        ensures Plain(s[k])
      {
      }
      assert forall k :: 0 <= k < i ==> s[..i][k] == s[k];
      var domain, tld := s[i + 1..j], s[j + 1..];
      assert forall k :: 0 <= k < |domain| ==> domain[k] == s[i + 1 + k];
      assert forall k :: 0 <= k < |tld| ==> tld[k] == s[j + 1 + k];
      assert PlainRun(s[..i]) && PlainRun(s[i + 1..j]) && PlainRun(s[j + 1..]);
    }
    if EmailShape(s) {
      var i, j :| 0 <= i < j < |s| && s[i] == '@' && s[j] == '.'
        && PlainRun(s[..i]) && PlainRun(s[i + 1..j]) && PlainRun(s[j + 1..]);
      forall k | 0 <= k < |s| && k != i && k != j
        ensures Plain(s[k])
      {
        if k < i {
          assert s[k] == s[..i][k];
        } else if k < j {
          assert s[k] == s[i + 1..j][k - i - 1];
        } else {
          assert s[k] == s[j + 1..][k - j - 1];
        }
      }
      assert OnlyAt(s, i);
      assert InnerDot(s, i);
    }
  }

  /** `^[0-9]{10}$`: exactly ten decimal digits. */
  predicate ValidMobile(s: string)
  {
    |s| == 10 && AllDigits(s)
  }

  /** The guest count exceeds the capacity of the selected room; a count that is not a number never does. */
  predicate OverCapacity(form: map<string, string>)
  {
    && FindRoom(Field(form, "roomType")).Some?
    && ParseInt(Field(form, "guests")).Some?
    && ParseInt(Field(form, "guests")).value > FindRoom(Field(form, "roomType")).value.maxGuests
  }

  const InvalidEmail := "Please enter a valid email address"
  const InvalidMobile := "Please enter a valid 10-digit mobile number"
  const PastCheckIn := "Check-in date cannot be in the past"
  const CheckOutNotAfter := "Check-out date must be after check-in date"

  function CapacityMessage(maxGuests: nat): string
  {
    "Selected room type can accommodate maximum " + NatToString(maxGuests) + " guests"
  }

  /** The error `validateForm` reports for a form, None when it accepts the form. */
  function FormError(form: map<string, string>, dateOf: string -> int, today: int): Option<string>
  {
    match FirstMissing(form, RequiredFields)
    case Some(field) => Some("Please fill in " + FieldLabel(field))
    case None =>
      if !ValidEmail(Field(form, "email")) then Some(InvalidEmail)
      else if !ValidMobile(Field(form, "mobile")) then Some(InvalidMobile)
      else if dateOf(Field(form, "checkIn")) < today then Some(PastCheckIn)
      else if dateOf(Field(form, "checkOut")) <= dateOf(Field(form, "checkIn")) then Some(CheckOutNotAfter)
      else if OverCapacity(form) then Some(CapacityMessage(FindRoom(Field(form, "roomType")).value.maxGuests))
      else None
  }

  /** The conditions under which the form is accepted. */
  predicate Acceptable(form: map<string, string>, dateOf: string -> int, today: int)
  {
    && (forall i :: 0 <= i < |RequiredFields| ==> Filled(form, RequiredFields[i]))
    && ValidEmail(Field(form, "email"))
    && ValidMobile(Field(form, "mobile"))
    && dateOf(Field(form, "checkIn")) >= today
    && dateOf(Field(form, "checkOut")) > dateOf(Field(form, "checkIn"))
    && !OverCapacity(form)
  }

  /** The form is accepted exactly when every check passes; a rejection names one reason. */
  lemma FormAccepted(form: map<string, string>, dateOf: string -> int, today: int)
    ensures FormError(form, dateOf, today).None? <==> Acceptable(form, dateOf, today)
  {
  }

  /**
   * `validateForm`: the required fields are checked in order and the first empty one is
   * reported; then the email, the mobile number, the dates and the room capacity.
   */
  method ValidateForm(form: map<string, string>, dateOf: string -> int, today: int) returns (error: Option<string>)
    ensures error == FormError(form, dateOf, today)
  {
    for i := 0 to |RequiredFields|
      invariant FirstMissing(form, RequiredFields) == FirstMissing(form, RequiredFields[i..])
    {
      assert RequiredFields[i..][1..] == RequiredFields[i + 1..];
      var field := RequiredFields[i];
      if !Filled(form, field) {
        return Some("Please fill in " + FieldLabel(field));
      }
    }
    var email := Field(form, "email");
    if !ValidEmail(email) {
      return Some(InvalidEmail);
    }
    if !ValidMobile(Field(form, "mobile")) {
      return Some(InvalidMobile);
    }
    var checkIn := dateOf(Field(form, "checkIn"));
    var checkOut := dateOf(Field(form, "checkOut"));
    if checkIn < today {
      return Some(PastCheckIn);
    }
    if checkOut <= checkIn {
      return Some(CheckOutNotAfter);
    }
    var selected := FindRoom(Field(form, "roomType"));
    if selected.Some? {
      var guests := ParseInt(Field(form, "guests"));
      if guests.Some? && guests.value > selected.value.maxGuests {
        return Some(CapacityMessage(selected.value.maxGuests));
      }
    }
    return None;
  }

  const DayMs := 86400000

  /** `Math.abs(a - b)`. */
  function Abs(x: int): (r: nat)
    ensures r == x || r == -x
  {
    if x < 0 then -x else x
  }

  /**
   * `calculateDuration`: the whole days between the two dates, a part day counting as a day;
   * 0 when either date is empty.
   */
  function CalculateDuration(checkIn: string, checkOut: string, dateOf: string -> int): (r: nat)
    ensures checkIn == "" || checkOut == "" ==> r == 0
    ensures checkIn != "" && checkOut != "" ==>
      var gap := Abs(dateOf(checkOut) - dateOf(checkIn));
      (r - 1) * DayMs < gap <= r * DayMs
  {
    if checkIn != "" && checkOut != "" then
      (Abs(dateOf(checkOut) - dateOf(checkIn)) + DayMs - 1) / DayMs
    else 0
  }

  /** Swapping the two dates gives the same duration, and a gap of n whole days gives n. */
  lemma DurationSymmetric(checkIn: string, checkOut: string, dateOf: string -> int, n: nat)
    ensures CalculateDuration(checkIn, checkOut, dateOf) == CalculateDuration(checkOut, checkIn, dateOf)
    ensures checkIn != "" && checkOut != "" && dateOf(checkOut) - dateOf(checkIn) == n * DayMs ==>
      CalculateDuration(checkIn, checkOut, dateOf) == n
  {
  }

  /**
   * `fetchRoomPricing`: nothing when the form is rejected. Otherwise the server's answer
   * `live` (None when the request fails); a room id outside the catalogue fails before any
   * request. On failure the fallback table prices the stay.
   */
  function FetchRoomPricing(form: map<string, string>, dateOf: string -> int, today: int, live: Option<RoomPricing>)
    : (r: Option<RoomPricing>)
    ensures r.Some? <==> Acceptable(form, dateOf, today)
    ensures r.Some? && (live.None? || FindRoom(Field(form, "roomType")).None?) ==>
      r.value == FallbackPricing(Field(form, "roomType"),
                                 CalculateDuration(Field(form, "checkIn"), Field(form, "checkOut"), dateOf))
    ensures r.Some? && r.value != FallbackPricing(Field(form, "roomType"),
                                 CalculateDuration(Field(form, "checkIn"), Field(form, "checkOut"), dateOf)) ==>
      live.Some? && r.value == live.value
    ensures r.Some? && live.Some? && FindRoom(Field(form, "roomType")).Some? ==> r.value == live.value
  {
    FormAccepted(form, dateOf, today);
    if FormError(form, dateOf, today).Some? then None
    else
      var duration := CalculateDuration(Field(form, "checkIn"), Field(form, "checkOut"), dateOf);
      if FindRoom(Field(form, "roomType")).Some? && live.Some? then live
      else Some(FallbackPricing(Field(form, "roomType"), duration))
  }

  const SignInFirst := "Please sign in to continue with booking"
  const InvalidPricing := "Invalid pricing information. Please try again."

  /**
   * The payment-intent request `handlePayment` sends: refused on the page with no signed-in
   * user, or with no pricing or a final price of 0; otherwise the final price in paise and the
   * currency "inr".
   */
  function PaymentRequest(user: Option<string>, pricing: Option<RoomPricing>): (r: Result<IntentRequest, string>)
    ensures user.None? ==> r == Failure(SignInFirst)
    ensures user.Some? && (pricing.None? || pricing.value.finalPrice == 0) ==> r == Failure(InvalidPricing)
    ensures r.Success? <==> user.Some? && pricing.Some? && pricing.value.finalPrice != 0
    ensures r.Success? ==>
      && r.value.amount == Num((100 * pricing.value.finalPrice) as real)
      && r.value.currency == Str("inr")
  {
    if user.None? then Failure(SignInFirst)
    else if pricing.None? || pricing.value.finalPrice == 0 then Failure(InvalidPricing)
    else
      var amount := Round(pricing.value.finalPrice as real * 100.0);
      RoundWhole(100 * pricing.value.finalPrice);
      Success(IntentRequest(Num(amount as real), Str("inr"), true))
  }

  /**
   * A request the page lets through reaches the gateway exactly when its final price is
   * positive; a negative price is turned away by the server's amount check.
   */
  lemma ServerAcceptsPageAmount(user: Option<string>, pricing: Option<RoomPricing>, gateway: Gateway<IntentCreated>)
    requires PaymentRequest(user, pricing).Success?
    ensures var req := PaymentRequest(user, pricing).value;
      && (pricing.value.finalPrice > 0 ==> AmountAccepted(req.amount))
      && (pricing.value.finalPrice > 0 && gateway.Done? ==> CreatePaymentIntent(req, gateway) == Success(gateway.value))
      && (pricing.value.finalPrice < 0 ==> CreatePaymentIntent(req, gateway) == Failure(InvalidAmount))
  {
    var req := PaymentRequest(user, pricing).value;
    InrAccepted("inr");
    if pricing.value.finalPrice > 0 {
      var n: nat := 100 * pricing.value.finalPrice;
      assert (n as real).Floor == n;
      assert AmountAccepted(req.amount);
    }
  }

  /** What the page knows of the hotel being booked. */
  datatype Hotel = Hotel(hotelName: string, hotelAddress: string)

  /**
   * The booking document `saveBookingToFirebase` stores: pending, paid, priced as quoted, with
   * `bookingId` made from the current instant and the invoice id made from the booking id.
   * `serverSeconds` is the server time stamp the store fills in.
   */
  function NewBooking(form: map<string, string>, userEmail: string, hotel: Hotel, pricing: RoomPricing,
                      transactionId: string, nowMs: nat, serverSeconds: int): (d: Document)
    ensures d.bookingStatus == Pending && d.details.paymentStatus == "completed"
    ensures d.details.bookingId == "BK" + NatToString(nowMs) && d.details.bookingId != ""
    ensures d.details.invoiceId == "INV" + d.details.bookingId
    ensures d.details.userId == userEmail && d.details.totalPriceINR == pricing.finalPrice
    ensures d.details.guests == ParseInt(Field(form, "guests"))
    ensures d.details.roomDetails == FindRoom(Field(form, "roomType"))
    ensures d.updatedAt.None? && d.checkInTimestamp.None? && d.checkOutTimestamp.None?
    ensures d.cancelledAt.None? && d.refundedAt.None? && d.refundProcessedAt.None?
  {
    var bookingId := "BK" + NatToString(nowMs);
    Document(
      Details(
        bookingId, userEmail,
        Field(form, "name"), Field(form, "email"), Field(form, "mobile"),
        hotel.hotelName, hotel.hotelAddress,
        Field(form, "roomType"), FindRoom(Field(form, "roomType")),
        ParseInt(Field(form, "guests")),
        Field(form, "checkIn"), Field(form, "checkOut"),
        pricing.duration, Field(form, "specialRequests"),
        pricing.finalPrice, pricing.basePrice, pricing.taxes,
        "completed", transactionId, "INV" + bookingId,
        serverSeconds, nowMs),
      Pending, None, None, None, None, None, None)
  }

  /** A new booking starts the life cycle in a valid state: pending, never written, no time stamps. */
  lemma NewBookingStartsValid(d: Document)
    requires d.bookingStatus == Pending && d.updatedAt.None?
    requires d.checkInTimestamp.None? && d.checkOutTimestamp.None?
    requires d.cancelledAt.None? && d.refundedAt.None? && d.refundProcessedAt.None?
    ensures StampsConsistent(d) && Chronological(d)
  {
  }

  /** The booking id reads back as the instant it was made, and the invoice id carries the booking id. */
  lemma BookingIdReadsBack(nowMs: nat)
    ensures var bookingId := "BK" + NatToString(nowMs);
      && bookingId[..2] == "BK" && ParseInt(bookingId[2..]) == Some(nowMs)
      && ("INV" + bookingId)[..5] == "INVBK"
  {
    ParseIntNatToString(nowMs);
    var x := NatToString(nowMs);
    assert ("BK" + x)[2..] == x;
    var inv := "INV" + ("BK" + x);
    assert inv[..5] == ['I', 'N', 'V', 'B', 'K'];
  }

  /** The fields of a booking the customer page sends to the invoice endpoint. */
  function InvoiceBodyOf(d: Document): InvoiceBody
  {
    InvoiceBody(Some(d.details.bookingId), Some(d.details.invoiceId), Some(d.details.basePrice),
                Some(d.details.totalPriceINR), Some(d.details.taxes))
  }

  /**
   * The invoice of a booking made on this page (which has a booking id and the quoted figures):
   * it is always produced, it is named after the invoice id, and its subtotal is the quoted
   * total before tax.
   */
  lemma InvoiceOfNewBooking(d: Document, pricing: RoomPricing)
    requires d.details.bookingId != ""
    requires d.details.totalPriceINR == pricing.finalPrice && d.details.taxes == pricing.taxes
    requires pricing.finalPrice == pricing.totalPrice + pricing.taxes
    ensures var inv := DownloadInvoice(Some(InvoiceBodyOf(d)));
      && inv.Success?
      && inv.value.filename == "invoice-" + d.details.invoiceId + ".pdf"
      && inv.value.subtotal == pricing.totalPrice && inv.value.taxes == pricing.taxes
  {
  }

  const PaymentConfirmed := "Payment successful! Booking confirmed."
  const SavedWithIssue := "Booking saved but there was an issue. Please contact support."
  const PaidButNotSaved := "Payment successful but failed to save booking. Please contact support."

  /** What the page shows after a successful payment: its notices and whether it confirms the booking. */
  datatype AfterPayment = AfterPayment(store: seq<Booking>, notices: seq<string>, confirmed: bool)

  /**
   * `handlePaymentSuccess` as written: the store write's failure is caught inside
   * `saveBookingToFirebase`, so the caller always goes on to confirm the booking.
   */
  function PaymentSuccessAsWritten(store: seq<Booking>, newId: string, d: Document, writeOk: bool): (r: AfterPayment)
    ensures r.confirmed
    ensures |r.notices| > 0 && r.notices[|r.notices| - 1] == PaymentConfirmed
  {
    if writeOk then AfterPayment(store + [Booking(newId, d)], [PaymentConfirmed], true)
    else AfterPayment(store, [SavedWithIssue, PaymentConfirmed], true)
  }

  /** A failed write is reported as a confirmed booking that the store does not hold. */
  lemma AsWrittenConfirmsUnsavedBooking(store: seq<Booking>, newId: string, d: Document)
    requires !HasId(store, newId)
    ensures var r := PaymentSuccessAsWritten(store, newId, d, false);
      r.confirmed && !HasId(r.store, newId) && PaidButNotSaved !in r.notices
  {
  }

  /**
   * `handlePaymentSuccess` with the write error reaching it: the booking is confirmed exactly
   * when the store holds it, and otherwise the customer is told the payment was taken but the
   * booking was not saved.
   */
  function PaymentSuccess(store: seq<Booking>, newId: string, d: Document, writeOk: bool): (r: AfterPayment)
    ensures r.confirmed <==> writeOk
    ensures writeOk ==> r.store == store + [Booking(newId, d)] && r.notices == [PaymentConfirmed]
    ensures !writeOk ==> r.store == store && r.notices == [PaidButNotSaved]
  {
    if writeOk then AfterPayment(store + [Booking(newId, d)], [PaymentConfirmed], true)
    else AfterPayment(store, [PaidButNotSaved], false)
  }

  /** With the fix, a confirmation always means the booking is stored under its new id. */
  lemma ConfirmedMeansStored(store: seq<Booking>, newId: string, d: Document, writeOk: bool)
    requires !HasId(store, newId)
    ensures PaymentSuccess(store, newId, d, writeOk).confirmed <==> HasId(PaymentSuccess(store, newId, d, writeOk).store, newId)
  {
    if writeOk {
      var s := PaymentSuccess(store, newId, d, writeOk).store;
      assert s[|store|].id == newId;
    }
  }
}
