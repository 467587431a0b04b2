/**
 * A hotel booking as stored in the `bookings` collection, the partial writes the pages make
 * to it, and the collection itself as the ordered list of documents a query returns.
 */
module Bookings {
  import opened Wrappers

  datatype Status =
    | Pending
    | Confirmed
    | CheckedIn
    | CheckedOut
    | CancellationRequested
    | Cancelled
    | RefundRequested
    | Refunded

  /** The string stored in `bookingStatus`. */
  function StatusName(s: Status): string
  {
    match s
    case Pending => "pending"
    case Confirmed => "confirmed"
    case CheckedIn => "checked_in"
    case CheckedOut => "checked_out"
    case CancellationRequested => "cancellation_requested"
    case Cancelled => "cancelled"
    case RefundRequested => "refund_requested"
    case Refunded => "refunded"
  }

  /** Reading a stored `bookingStatus`; None for a string that names no status. */
  function ParseStatus(name: string): (r: Option<Status>)
    ensures r.Some? ==> StatusName(r.value) == name
  {
    if name == "pending" then Some(Pending)
    else if name == "confirmed" then Some(Confirmed)
    else if name == "checked_in" then Some(CheckedIn)
    else if name == "checked_out" then Some(CheckedOut)
    else if name == "cancellation_requested" then Some(CancellationRequested)
    else if name == "cancelled" then Some(Cancelled)
    else if name == "refund_requested" then Some(RefundRequested)
    else if name == "refunded" then Some(Refunded)
    else None
  }

  /** Every status reads back as itself, so distinct statuses are stored as distinct strings. */
  lemma ParseStatusName(s: Status)
    ensures ParseStatus(StatusName(s)) == Some(s)
  {
  }

  /** A room category as the booking page lists it and copies it into the booking. */
  datatype Room = Room(
    id: string,
    name: string,
    description: string,
    features: seq<string>,
    maxGuests: nat,
    stripeProductId: string)

  /** The fields written once, when the booking is created, and never updated afterwards. */
  datatype Details = Details(
    bookingId: string,
    userId: string,
    userName: string,
    userEmail: string,
    userMobile: string,
    hotelName: string,
    hotelAddress: string,
    roomType: string,
    roomDetails: Option<Room>,
    guests: Option<int>,          // parseInt of the form value; None stands for NaN
    checkInDate: string,
    checkOutDate: string,
    duration: int,
    specialRequests: string,
    totalPriceINR: int,
    basePrice: int,
    taxes: int,
    paymentStatus: string,
    stripeTransactionId: string,
    invoiceId: string,
    timestamp: int,               // the server time stamp, in seconds
    createdAt: int)               // the creation instant, in milliseconds

  /** A stored booking document. Every time stamp is an instant in milliseconds. */
  datatype Document = Document(
    details: Details,
    bookingStatus: Status,
    updatedAt: Option<int>,
    checkInTimestamp: Option<int>,
    checkOutTimestamp: Option<int>,
    cancelledAt: Option<int>,
    refundedAt: Option<int>,
    refundProcessedAt: Option<int>)

  /** A document as the pages hold it: `{ id: doc.id, ...doc.data() }`. */
  datatype Booking = Booking(id: string, doc: Document)

  /** The field set of a status write: status and update time always, other time stamps when present. */
  datatype Patch = Patch(
    bookingStatus: Status,
    updatedAt: int,
    checkInTimestamp: Option<int>,
    checkOutTimestamp: Option<int>,
    cancelledAt: Option<int>,
    refundedAt: Option<int>,
    refundProcessedAt: Option<int>)

  /** The optional time-stamp fields, which only status writes add. */
  datatype StampField = CheckInTimestamp | CheckOutTimestamp | CancelledAt | RefundedAt | RefundProcessedAt

  const AllStamps: seq<StampField> := [CheckInTimestamp, CheckOutTimestamp, CancelledAt, RefundedAt, RefundProcessedAt]

  function Stamp(d: Document, f: StampField): Option<int>
  {
    match f
    case CheckInTimestamp => d.checkInTimestamp
    case CheckOutTimestamp => d.checkOutTimestamp
    case CancelledAt => d.cancelledAt
    case RefundedAt => d.refundedAt
    case RefundProcessedAt => d.refundProcessedAt
  }

  function PatchStamp(p: Patch, f: StampField): Option<int>
  {
    match f
    case CheckInTimestamp => p.checkInTimestamp
    case CheckOutTimestamp => p.checkOutTimestamp
    case CancelledAt => p.cancelledAt
    case RefundedAt => p.refundedAt
    case RefundProcessedAt => p.refundProcessedAt
  }

  /** The time-stamp fields a patch writes besides `bookingStatus` and `updatedAt`. */
  function AddedStamps(p: Patch): set<StampField>
  {
    set f | f in AllStamps && PatchStamp(p, f).Some?
  }

  /** The stamps a status write adds, which depend on the target status alone. */
  function StampsFor(target: Status): set<StampField>
  {
    match target
    case CheckedIn => {CheckInTimestamp}
    case CheckedOut => {CheckOutTimestamp}
    case Cancelled => {CancelledAt}
    case Refunded => {RefundedAt, RefundProcessedAt}
    case _ => {}
  }

  /**
   * The instant a status write gives to stamp field f: `stampAt` is the clock reading taken for
   * the target's own stamp (for a refund, after the processing wait), `processedAt` the further
   * reading taken for `refundProcessedAt`.
   */
  function StampTime(f: StampField, stampAt: int, processedAt: int): int
  {
    if f == RefundProcessedAt then processedAt else stampAt
  }

  /**
   * The update record of a status write (`updateData`): the requested status, `updatedAt` read
   * when the record is started, and the time stamps that belong to the target status, each with
   * the clock reading the handler takes for it.
   */
  function StatusPatch(target: Status, now: int, stampAt: int, processedAt: int): (p: Patch)
    ensures p.bookingStatus == target && p.updatedAt == now
    ensures AddedStamps(p) == StampsFor(target)
    ensures forall f :: f in AddedStamps(p) ==> PatchStamp(p, f) == Some(StampTime(f, stampAt, processedAt))
  {
    var p := Patch(target, now, None, None, None, None, None);
    if target == CheckedIn then p.(checkInTimestamp := Some(stampAt))
    else if target == CheckedOut then p.(checkOutTimestamp := Some(stampAt))
    else if target == Cancelled then p.(cancelledAt := Some(stampAt))
    else if target == Refunded then p.(refundedAt := Some(stampAt), refundProcessedAt := Some(processedAt))
    else p
  }

  /**
   * `updateDoc` on one document: the fields the patch carries replace the stored ones and
   * nothing else changes; in particular the creation-time details are untouched.
   */
  function ApplyPatch(d: Document, p: Patch): (r: Document)
    ensures r.details == d.details
    ensures r.bookingStatus == p.bookingStatus && r.updatedAt == Some(p.updatedAt)
    ensures forall f :: f in AddedStamps(p) ==> Stamp(r, f) == PatchStamp(p, f)
    ensures forall f :: f !in AddedStamps(p) ==> Stamp(r, f) == Stamp(d, f)
  {
    Document(
      d.details,
      p.bookingStatus,
      Some(p.updatedAt),
      if p.checkInTimestamp.Some? then p.checkInTimestamp else d.checkInTimestamp,
      if p.checkOutTimestamp.Some? then p.checkOutTimestamp else d.checkOutTimestamp,
      if p.cancelledAt.Some? then p.cancelledAt else d.cancelledAt,
      if p.refundedAt.Some? then p.refundedAt else d.refundedAt,
      if p.refundProcessedAt.Some? then p.refundProcessedAt else d.refundProcessedAt)
  }

  /**
   * `{ ...held, ...latest }`: every field present in a freshly read document replaces the held
   * one; an optional field absent from the latest read keeps its held value.
   */
  function Overlay(held: Document, latest: Document): (r: Document)
    ensures r.details == latest.details && r.bookingStatus == latest.bookingStatus
    ensures latest.updatedAt.Some? ==> r.updatedAt == latest.updatedAt
    ensures latest.updatedAt.None? ==> r.updatedAt == held.updatedAt
    ensures forall f :: Stamp(latest, f).Some? ==> Stamp(r, f) == Stamp(latest, f)
    ensures forall f :: Stamp(latest, f).None? ==> Stamp(r, f) == Stamp(held, f)
  {
    Document(
      latest.details,
      latest.bookingStatus,
      if latest.updatedAt.Some? then latest.updatedAt else held.updatedAt,
      if latest.checkInTimestamp.Some? then latest.checkInTimestamp else held.checkInTimestamp,
      if latest.checkOutTimestamp.Some? then latest.checkOutTimestamp else held.checkOutTimestamp,
      if latest.cancelledAt.Some? then latest.cancelledAt else held.cancelledAt,
      if latest.refundedAt.Some? then latest.refundedAt else held.refundedAt,
      if latest.refundProcessedAt.Some? then latest.refundProcessedAt else held.refundProcessedAt)
  }

  /** Every optional field set in `older` is also set in `newer`: no write ever removes a field. */
  predicate KeepsFieldsOf(newer: Document, older: Document)
  {
    && (older.updatedAt.Some? ==> newer.updatedAt.Some?)
    && forall f :: Stamp(older, f).Some? ==> Stamp(newer, f).Some?
  }

  /** Merging a latest read of a later version of the same document yields exactly that read. */
  lemma OverlayOfLaterVersion(held: Document, latest: Document)
    requires KeepsFieldsOf(latest, held)
    ensures Overlay(held, latest) == latest
  {
    var r := Overlay(held, latest);
    forall f ensures Stamp(r, f) == Stamp(latest, f) {
    }
    assert Stamp(r, CheckInTimestamp) == Stamp(latest, CheckInTimestamp);
    assert Stamp(r, CheckOutTimestamp) == Stamp(latest, CheckOutTimestamp);
    assert Stamp(r, CancelledAt) == Stamp(latest, CancelledAt);
    assert Stamp(r, RefundedAt) == Stamp(latest, RefundedAt);
    assert Stamp(r, RefundProcessedAt) == Stamp(latest, RefundProcessedAt);
  }

  /** A status write never removes a field it finds: the written document keeps every field of the old one. */
  lemma PatchKeepsFields(d: Document, p: Patch)
    ensures KeepsFieldsOf(ApplyPatch(d, p), d)
  {
  }

  /** The list with every booking whose id matches rewritten by f; all other entries are kept. */
  function UpdateWhere(list: seq<Booking>, id: string, f: Document -> Document): (r: seq<Booking>)
    ensures |r| == |list|
    ensures forall i :: 0 <= i < |list| && list[i].id == id ==> r[i] == Booking(id, f(list[i].doc))
    ensures forall i :: 0 <= i < |list| && list[i].id != id ==> r[i] == list[i]
  {
    if |list| == 0 then []
    else [if list[0].id == id then Booking(id, f(list[0].doc)) else list[0]] + UpdateWhere(list[1..], id, f)
  }

  predicate HasId(list: seq<Booking>, id: string)
  {
    exists i :: 0 <= i < |list| && list[i].id == id
  }

  datatype WriteError = NotFound

  /**
   * `updateDoc(doc(db, 'bookings', id), patch)` on the collection: fails when no document has
   * that id; otherwise the document with that id is patched and every other one is unchanged.
   */
  function UpdateDoc(collection: seq<Booking>, id: string, p: Patch): (r: Result<seq<Booking>, WriteError>)
    ensures r.Success? <==> HasId(collection, id)
    ensures r.Success? ==> |r.value| == |collection|
    ensures r.Success? ==> forall i :: 0 <= i < |collection| && collection[i].id == id ==>
      r.value[i] == Booking(id, ApplyPatch(collection[i].doc, p))
    ensures r.Success? ==> forall i :: 0 <= i < |collection| && collection[i].id != id ==>
      r.value[i] == collection[i]
  {
    if HasId(collection, id) then Success(UpdateWhere(collection, id, d => ApplyPatch(d, p)))
    else Failure(NotFound)
  }

  function UserOf(b: Booking): string
  {
    b.doc.details.userId
  }

  /** The time-stamp seconds the pages sort on. */
  function Seconds(b: Booking): int
  {
    b.doc.details.timestamp
  }

  /** Each booking is at least as recent as the one after it. */
  predicate NewestFirst(s: seq<Booking>)
  {
    forall i :: 0 < i < |s| ==> Seconds(s[i - 1]) >= Seconds(s[i])
  }

  /** In a newest-first list every booking is at least as recent as every later one. */
  lemma {:induction false} NewestFirstOrdersAll(s: seq<Booking>)
    requires NewestFirst(s)
    ensures forall i, j :: 0 <= i < j < |s| ==> Seconds(s[i]) >= Seconds(s[j])
  {
    if |s| > 1 {
      var t := s[1..];
      assert forall k :: 0 <= k < |t| ==> t[k] == s[k + 1];
      NewestFirstOrdersAll(t);
      forall j | 1 < j < |s|
        ensures Seconds(s[0]) >= Seconds(s[j])
      {
        assert Seconds(t[0]) >= Seconds(t[j - 1]);
      }
    }
  }

  function InsertNewestFirst(b: Booking, s: seq<Booking>): (r: seq<Booking>)
    requires NewestFirst(s)
    ensures NewestFirst(r)
    ensures |r| == |s| + 1 && (r[0] == b || (|s| > 0 && r[0] == s[0]))
    ensures multiset(r) == multiset(s) + multiset{b}
  {
    if |s| == 0 || Seconds(s[0]) <= Seconds(b) then [b] + s
    else
      assert s == [s[0]] + s[1..];
      [s[0]] + InsertNewestFirst(b, s[1..])
  }

  /**
   * `list.sort((a, b) => b.timestamp?.seconds - a.timestamp?.seconds)`: the same bookings,
   * newest first.
   */
  function SortNewestFirst(s: seq<Booking>): (r: seq<Booking>)
    ensures NewestFirst(r)
    ensures multiset(r) == multiset(s)
  {
    if |s| == 0 then []
    else
      assert s == [s[0]] + s[1..];
      InsertNewestFirst(s[0], SortNewestFirst(s[1..]))
  }

  /** The bookings of s made in second t, in the order s lists them. */
  function Tied(s: seq<Booking>, t: int): (r: seq<Booking>)
    ensures |r| <= |s|
  {
    if |s| == 0 then []
    else (if Seconds(s[0]) == t then [s[0]] else []) + Tied(s[1..], t)
  }

  /** Inserting b puts it ahead of every booking of its own second and leaves other ties alone. */
  lemma {:induction false} InsertKeepsTies(b: Booking, s: seq<Booking>, t: int)
    requires NewestFirst(s)
    ensures Tied(InsertNewestFirst(b, s), t) == (if Seconds(b) == t then [b] else []) + Tied(s, t)
  {
    var r := InsertNewestFirst(b, s);
    var hb: seq<Booking> := if Seconds(b) == t then [b] else [];
    if |s| == 0 || Seconds(s[0]) <= Seconds(b) {
      assert r == [b] + s;
      assert r[1..] == s;
    } else {
      var rest := InsertNewestFirst(b, s[1..]);
      assert r == [s[0]] + rest;
      assert r[1..] == rest;
      var h0: seq<Booking> := if Seconds(s[0]) == t then [s[0]] else [];
      InsertKeepsTies(b, s[1..], t);
      assert Tied(r, t) == h0 + (hb + Tied(s[1..], t));
      assert h0 == [] || hb == [];
      assert Tied(s, t) == h0 + Tied(s[1..], t);
    }
  }

  /**
   * `Array.prototype.sort` is stable: bookings made in the same second keep the order of the
   * snapshot.
   */
  lemma {:induction false} SortNewestFirstStable(s: seq<Booking>, t: int)
    ensures Tied(SortNewestFirst(s), t) == Tied(s, t)
  {
    if |s| > 0 {
      SortNewestFirstStable(s[1..], t);
      InsertKeepsTies(s[0], SortNewestFirst(s[1..]), t);
    }
  }
}
