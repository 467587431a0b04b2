/**
 * The customer's booking page: the signed-in user's bookings newest first, the cancellation
 * and refund requests it writes, the set of booking ids whose refund it watches by re-reading
 * them, and the status label it shows for each booking.
 */
module CustomerBookings {
  import opened Wrappers
  import opened Js
  import opened Bookings
  import opened Grouping
  import opened Lifecycle

  /** The outcome of `getDoc` on one booking: the stored document, no such document, or an error. */
  datatype ReadOutcome = Found(doc: Document) | Missing | ReadError

  /**
   * The list after a successful re-read of one booking: the booking with that id gets the read
   * fields over its own (`{ ...booking, ...bookingData }`), every other booking is unchanged.
   */
  function MergeRead(list: seq<Booking>, id: string, latest: Document): (r: seq<Booking>)
    ensures |r| == |list|
    ensures forall i :: 0 <= i < |list| && list[i].id == id ==> r[i] == Booking(id, Overlay(list[i].doc, latest))
    ensures forall i :: 0 <= i < |list| && list[i].id != id ==> r[i] == list[i]
  {
    UpdateWhere(list, id, d => Overlay(d, latest))
  }

  /** Re-reading a booking whose held copy no later write has lost a field of yields exactly the stored document. */
  lemma MergeReadOfLaterVersion(list: seq<Booking>, id: string, latest: Document, i: int)
    requires 0 <= i < |list| && list[i].id == id && KeepsFieldsOf(latest, list[i].doc)
    ensures MergeRead(list, id, latest)[i] == Booking(id, latest)
  {
    OverlayOfLaterVersion(list[i].doc, latest);
  }

  /** The watch set after a successful read of booking `id` with status `status`. */
  function AfterRead(watch: set<string>, id: string, status: Status): (r: set<string>)
    ensures id in r <==> id in watch && status == RefundRequested
    ensures forall x :: x != id ==> (x in r <==> x in watch)
  {
    if status != RefundRequested then watch - {id} else watch
  }

  /** `new Set([...prev, bookingId])`: the id is watched and no other membership changes. */
  function Watch(watch: set<string>, id: string): (r: set<string>)
    ensures id in r
    ensures forall x :: x != id ==> (x in r <==> x in watch)
  {
    watch + {id}
  }

  /** Watching an id that is already watched leaves the set, and so the set of polls, as it is. */
  lemma WatchTwice(watch: set<string>, id: string)
    ensures Watch(Watch(watch, id), id) == Watch(watch, id)
    ensures id in watch ==> Watch(watch, id) == watch
  {
  }

  /** Whole seconds since the refund request, `Math.floor((now - requestTime) / 1000)`. */
  function ElapsedSeconds(updatedAt: Option<int>, now: int): int
  {
    (now - GetOr(updatedAt, now)) / 1000
  }

  /**
   * The countdown shown while a watched refund is fresh: 5 minus the elapsed seconds, for at most
   * 5 elapsed seconds; None once more time has passed or when the booking is not watched.
   */
  function RefundCountdown(id: string, updatedAt: Option<int>, watch: set<string>, now: int): (r: Option<nat>)
    ensures r.Some? <==> id in watch && ElapsedSeconds(updatedAt, now) <= 5
    ensures r.Some? ==> r.value + ElapsedSeconds(updatedAt, now) == 5
    ensures r.Some? && (updatedAt.None? || updatedAt.value <= now) ==> r.value <= 5
  {
    var elapsed := ElapsedSeconds(updatedAt, now);
    if id in watch && elapsed <= 5 then Some(5 - elapsed) else None
  }

  /** The label of a booking (`getStatusMessage`). */
  function StatusMessage(b: Booking, watch: set<string>, now: int): string
  {
    match b.doc.bookingStatus
    case Confirmed => "CONFIRMED"
    case Pending => "PENDING"
    case Cancelled => "CANCELLED"
    case Refunded => "REFUNDED"
    case CheckedIn => "CHECKED IN"
    case CheckedOut => "CHECKED OUT"
    case CancellationRequested => "CANCELLATION REQUESTED"
    case RefundRequested =>
      match RefundCountdown(b.id, b.doc.updatedAt, watch, now)
      case Some(k) => "PROCESSING REFUND (" + NatToString(k) + "s)"
      case None => "REFUND REQUESTED"
  }

  /**
   * A refund-requested booking shows the countdown exactly while it is watched and at most five
   * seconds old, and the number in the label reads back as five minus the elapsed seconds.
   */
  lemma RefundLabel(b: Booking, watch: set<string>, now: int)
    requires b.doc.bookingStatus == RefundRequested
    ensures var e := ElapsedSeconds(b.doc.updatedAt, now);
      if b.id in watch && e <= 5 then
        exists digits :: StatusMessage(b, watch, now) == "PROCESSING REFUND (" + digits + "s)"
                         && ParseInt(digits) == Some(5 - e)
      else StatusMessage(b, watch, now) == "REFUND REQUESTED"
  {
    var c := RefundCountdown(b.id, b.doc.updatedAt, watch, now);
    if c.Some? {
      ParseIntNatToString(c.value);
      var digits := NatToString(c.value);
      assert StatusMessage(b, watch, now) == "PROCESSING REFUND (" + digits + "s)";
    }
  }

  /** The statuses for which the Invoice button is rendered. */
  predicate InvoiceAvailable(s: Status)
  {
    s in {Pending, Confirmed, CheckedIn, CheckedOut}
  }

  /**
   * The only move that makes the invoice available again is the operator rejecting a
   * cancellation request, which puts the booking back to pending.
   */
  lemma InvoiceRegained(a: Actor, from: Status, to: Status)
    requires Transition(a, from, to) && !InvoiceAvailable(from) && InvoiceAvailable(to)
    ensures a == Operator && from == CancellationRequested && to == Pending
  {
    if a == Operator {
      OperatorMovesExactly(from, to);
    } else {
      CustomerMovesExactly(from, to);
    }
  }

  const RefundSubmitted := "Refund request submitted successfully"
  const RefundFailed := "Failed to submit refund request"
  const CancellationSubmitted := "Cancellation request submitted successfully"
  const CancellationFailed := "Failed to submit cancellation request"

  class Page {
    var bookings: seq<Booking>
    var processingRefunds: set<string>
    /** The e-mail of the stored session user, None when nobody is signed in. */
    var userEmail: Option<string>

    constructor(user: Option<string>)
      ensures bookings == [] && processingRefunds == {} && userEmail == user
    {
      bookings := [];
      processingRefunds := {};
      userEmail := user;
    }

    /**
     * `fetchUserBookings`: with nobody signed in, or when the query fails (None), nothing
     * changes; otherwise the list becomes the user's bookings, newest first.
     */
    method FetchUserBookings(store: Option<seq<Booking>>)
      modifies this
      ensures userEmail.None? || store.None? ==> bookings == old(bookings)
      ensures userEmail.Some? && store.Some? ==>
        bookings == SortNewestFirst(Matching(store.value, UserOf, userEmail.value))
      ensures userEmail.Some? && store.Some? ==>
        NewestFirst(bookings) && multiset(bookings) == multiset(Matching(store.value, UserOf, userEmail.value))
      ensures processingRefunds == old(processingRefunds) && userEmail == old(userEmail)
    {
      if userEmail.None? || store.None? {
        return;
      }
      var snapshot := Matching(store.value, UserOf, userEmail.value);
      var userBookings: seq<Booking> := [];
      for i := 0 to |snapshot|
        invariant userBookings == snapshot[..i]
      {
        userBookings := userBookings + [snapshot[i]];
      }
      assert userBookings == snapshot;
      bookings := SortNewestFirst(userBookings);
    }

    /**
     * `handleRefundRequest` against the collection `store`: the status becomes refund_requested
     * with `updatedAt` set to `now` (the write adds no other stamp), the id joins the watch set
     * and the list is fetched again from the written collection; that fetch is not awaited and
     * may fail (`refetched` false), leaving the list as it was. A failed write changes nothing.
     */
    method HandleRefundRequest(store: seq<Booking>, id: string, now: int, refetched: bool)
      returns (written: seq<Booking>, notice: string)
      modifies this
      ensures !HasId(store, id) ==>
        && written == store && notice == RefundFailed
        && processingRefunds == old(processingRefunds) && bookings == old(bookings)
      ensures HasId(store, id) ==>
        && UpdateDoc(store, id, StatusPatch(RefundRequested, now, now, now)) == Success(written)
        && processingRefunds == Watch(old(processingRefunds), id)
        && notice == RefundSubmitted
      ensures HasId(store, id) && userEmail.Some? && refetched ==>
        bookings == SortNewestFirst(Matching(written, UserOf, userEmail.value))
      ensures HasId(store, id) && userEmail.Some? && refetched ==>
        NewestFirst(bookings) && multiset(bookings) == multiset(Matching(written, UserOf, userEmail.value))
      ensures userEmail.None? || !refetched ==> bookings == old(bookings)
      ensures userEmail == old(userEmail)
    {
      var r := UpdateDoc(store, id, StatusPatch(RefundRequested, now, now, now));
      if r.Failure? {
        return store, RefundFailed;
      }
      written := r.value;
      processingRefunds := Watch(processingRefunds, id);
      notice := RefundSubmitted;
      FetchUserBookings(if refetched then Some(written) else None);
    }

    /**
     * `handleCancelBooking` against the collection `store`: the status becomes
     * cancellation_requested with `updatedAt` set to `now` and the list is fetched again from
     * the written collection, a fetch that is not awaited and may fail (`refetched` false); a
     * failed write changes nothing.
     */
    method HandleCancelBooking(store: seq<Booking>, id: string, now: int, refetched: bool)
      returns (written: seq<Booking>, notice: string)
      modifies this
      ensures !HasId(store, id) ==> written == store && notice == CancellationFailed && bookings == old(bookings)
      ensures HasId(store, id) ==>
        UpdateDoc(store, id, StatusPatch(CancellationRequested, now, now, now)) == Success(written) && notice == CancellationSubmitted
      ensures HasId(store, id) && userEmail.Some? && refetched ==>
        bookings == SortNewestFirst(Matching(written, UserOf, userEmail.value))
      ensures HasId(store, id) && userEmail.Some? && refetched ==>
        NewestFirst(bookings) && multiset(bookings) == multiset(Matching(written, UserOf, userEmail.value))
      ensures userEmail.None? || !refetched ==> bookings == old(bookings)
      ensures processingRefunds == old(processingRefunds) && userEmail == old(userEmail)
    {
      var r := UpdateDoc(store, id, StatusPatch(CancellationRequested, now, now, now));
      if r.Failure? {
        return store, CancellationFailed;
      }
      written := r.value;
      notice := CancellationSubmitted;
      FetchUserBookings(if refetched then Some(written) else None);
    }

    /**
     * `checkBookingStatus`, one poll of a watched booking: a successful read merges the stored
     * fields into the list and drops the id from the watch set once the status has left
     * refund_requested; the success notice fires exactly when the status read is refunded. A
     * missing document or a failed read changes nothing, so the polling goes on.
     */
    method CheckBookingStatus(id: string, outcome: ReadOutcome) returns (refundNotice: bool)
      modifies this
      ensures outcome.Found? ==>
        && bookings == MergeRead(old(bookings), id, outcome.doc)
        && processingRefunds == AfterRead(old(processingRefunds), id, outcome.doc.bookingStatus)
        && (refundNotice <==> outcome.doc.bookingStatus == Refunded)
      ensures !outcome.Found? ==>
        bookings == old(bookings) && processingRefunds == old(processingRefunds) && !refundNotice
      ensures userEmail == old(userEmail)
    {
      refundNotice := false;
      if outcome.Found? {
        var d := outcome.doc;
        bookings := MergeRead(bookings, id, d);
        if d.bookingStatus != RefundRequested {
          processingRefunds := processingRefunds - {id};
          if d.bookingStatus == Refunded {
            refundNotice := true;
          }
        }
      }
    }
  }
}
