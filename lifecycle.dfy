/**
 * The booking life cycle: which status moves the operator console and the customer's
 * booking page offer, what a status write does to the stored document, and the
 * invariants that every sequence of offered moves keeps.
 */
module Lifecycle {
  import opened Wrappers
  import opened Bookings

  datatype Actor = Customer | Operator

  /** An action button: its caption and the status its click writes. */
  datatype Button = Button(caption: string, target: Status)

  /** The buttons the operator console renders beside a booking in status s. */
  function OperatorButtons(s: Status): seq<Button>
  {
    match s
    case Pending => [Button("Confirm Booking", Confirmed), Button("Cancel Booking", Cancelled)]
    case Confirmed => [Button("Check In", CheckedIn)]
    case CancellationRequested =>
      [Button("Approve Cancellation", Cancelled), Button("Reject Cancellation", Pending)]
    case RefundRequested => [Button("Process Refund", Refunded), Button("Reject Refund", Cancelled)]
    case CheckedIn => [Button("Check Out", CheckedOut)]
    case _ => []
  }

  /** The status-changing buttons the customer's booking page renders for a booking in status s. */
  function CustomerButtons(s: Status): seq<Button>
  {
    match s
    case Pending => [Button("Cancel Booking", CancellationRequested)]
    case Confirmed => [Button("Cancel Booking", CancellationRequested)]
    case Cancelled => [Button("Request Refund", RefundRequested)]
    case _ => []
  }

  function Buttons(a: Actor, s: Status): seq<Button>
  {
    match a
    case Operator => OperatorButtons(s)
    case Customer => CustomerButtons(s)
  }

  /** Actor a can move a booking from status `from` to status `to`: some button offers it. */
  predicate Transition(a: Actor, from: Status, to: Status)
  {
    exists i :: 0 <= i < |Buttons(a, from)| && Buttons(a, from)[i].target == to
  }

  /** The operator's moves, written out as a table of (from, to) pairs. */
  const OperatorMoves: set<(Status, Status)> := {
    (Pending, Confirmed), (Pending, Cancelled),
    (Confirmed, CheckedIn),
    (CheckedIn, CheckedOut),
    (CancellationRequested, Cancelled), (CancellationRequested, Pending),
    (RefundRequested, Refunded), (RefundRequested, Cancelled)
  }

  /** The customer's moves, written out as a table of (from, to) pairs. */
  const CustomerMoves: set<(Status, Status)> := {
    (Pending, CancellationRequested), (Confirmed, CancellationRequested),
    (Cancelled, RefundRequested)
  }

  /** Every button the operator console renders writes a move of the table. */
  lemma OperatorButtonsInTable(from: Status, i: int)
    requires 0 <= i < |OperatorButtons(from)|
    ensures (from, OperatorButtons(from)[i].target) in OperatorMoves
  {
    match from
    case Pending => assert i == 0 || i == 1;
    case CancellationRequested => assert i == 0 || i == 1;
    case RefundRequested => assert i == 0 || i == 1;
    case _ =>
  }

  /** The operator console offers exactly the moves of the table. */
  lemma OperatorMovesExactly(from: Status, to: Status)
    ensures Transition(Operator, from, to) <==> (from, to) in OperatorMoves
  {
    var bs := Buttons(Operator, from);
    if Transition(Operator, from, to) {
      var i :| 0 <= i < |bs| && bs[i].target == to;
      OperatorButtonsInTable(from, i);
    }
    if (from, to) in OperatorMoves {
      if from == Pending {
        assert bs[if to == Confirmed then 0 else 1].target == to;
      } else if from == CancellationRequested {
        assert bs[if to == Cancelled then 0 else 1].target == to;
      } else if from == RefundRequested {
        assert bs[if to == Refunded then 0 else 1].target == to;
      } else if from == Confirmed || from == CheckedIn {
        assert bs[0].target == to;
      }
    }
  }

  /** The customer's page offers exactly the moves of the table. */
  lemma CustomerMovesExactly(from: Status, to: Status)
    ensures Transition(Customer, from, to) <==> (from, to) in CustomerMoves
  {
    var bs := Buttons(Customer, from);
    if Transition(Customer, from, to) {
      var i :| 0 <= i < |bs| && bs[i].target == to;
      assert i == 0;
    }
    if (from, to) in CustomerMoves {
      assert from in {Pending, Confirmed, Cancelled};
      assert bs[0].target == to;
    }
  }

  /**
   * No move leaves a checked-out or refunded booking, and a cancelled booking admits only the
   * customer's refund request.
   */
  lemma TerminalStatuses(a: Actor, to: Status)
    ensures !Transition(a, CheckedOut, to) && !Transition(a, Refunded, to)
    ensures Transition(a, Cancelled, to) <==> a == Customer && to == RefundRequested
  {
    OperatorMovesExactly(Cancelled, to);
    CustomerMovesExactly(Cancelled, to);
  }

  /** No button writes the status a booking already has. */
  lemma NoSelfLoops(a: Actor, s: Status)
    ensures !Transition(a, s, s)
  {
    if a == Operator {
      OperatorMovesExactly(s, s);
    } else {
      CustomerMovesExactly(s, s);
    }
  }

  /**
   * A status write (`updateDoc` with the record `handleStatusUpdate` builds, or the customer's
   * request writes): the status becomes the target, `updatedAt` becomes the first clock reading
   * `now`, the time stamps of the target status take the later readings `stampAt` (and
   * `processedAt` for `refundProcessedAt`), and nothing else changes. The stamps depend on the
   * target only: rejecting a refund stamps `cancelledAt` afresh.
   */
  function StatusWrite(d: Document, target: Status, now: int, stampAt: int, processedAt: int): (r: Document)
    ensures r.details == d.details
    ensures r.bookingStatus == target && r.updatedAt == Some(now)
    ensures forall f :: f in StampsFor(target) ==> Stamp(r, f) == Some(StampTime(f, stampAt, processedAt))
    ensures forall f :: f !in StampsFor(target) ==> Stamp(r, f) == Stamp(d, f)
  {
    ApplyPatch(d, StatusPatch(target, now, stampAt, processedAt))
  }

  /**
   * Which time stamps a booking carries is determined by its status: a check-in stamp exactly
   * once checked in, a check-out stamp exactly once checked out, a cancellation stamp exactly
   * in the cancelled, refund-requested and refunded statuses, refund stamps exactly once
   * refunded; and only a never-written booking lacks `updatedAt`.
   */
  predicate StampsConsistent(d: Document)
  {
    && (d.checkInTimestamp.Some? <==> d.bookingStatus in {CheckedIn, CheckedOut})
    && (d.checkOutTimestamp.Some? <==> d.bookingStatus == CheckedOut)
    && (d.cancelledAt.Some? <==> d.bookingStatus in {Cancelled, RefundRequested, Refunded})
    && (d.refundedAt.Some? <==> d.bookingStatus == Refunded)
    && (d.refundProcessedAt.Some? <==> d.bookingStatus == Refunded)
    && (d.updatedAt.None? ==> d.bookingStatus == Pending)
  }

  /**
   * Time stamps in the order the clock gives them: a stamp left by an earlier write is no later
   * than `updatedAt`, a stamp of the current status (written by the last write) is no earlier
   * than it, check-in precedes check-out and cancellation precedes the refund, which precedes
   * its processing.
   */
  predicate Chronological(d: Document)
  {
    && (forall f :: Stamp(d, f).Some? && f !in StampsFor(d.bookingStatus) ==>
          d.updatedAt.Some? && Stamp(d, f).value <= d.updatedAt.value)
    && (forall f :: Stamp(d, f).Some? && f in StampsFor(d.bookingStatus) ==>
          d.updatedAt.Some? && d.updatedAt.value <= Stamp(d, f).value)
    && (d.checkInTimestamp.Some? && d.checkOutTimestamp.Some? ==>
          d.checkInTimestamp.value <= d.checkOutTimestamp.value)
    && (d.cancelledAt.Some? && d.refundedAt.Some? ==> d.cancelledAt.value <= d.refundedAt.value)
    && (d.refundedAt.Some? && d.refundProcessedAt.Some? ==>
          d.refundedAt.value <= d.refundProcessedAt.value)
  }

  /** No instant recorded on the booking is later than t. */
  predicate NotAfter(d: Document, t: int)
  {
    && (d.updatedAt.Some? ==> d.updatedAt.value <= t)
    && (forall f :: Stamp(d, f).Some? ==> Stamp(d, f).value <= t)
  }

  /** A move offered by the buttons keeps the stamps consistent with the status. */
  lemma MovePreservesConsistency(d: Document, a: Actor, target: Status, now: int, stampAt: int, processedAt: int)
    requires StampsConsistent(d) && Transition(a, d.bookingStatus, target)
    ensures StampsConsistent(StatusWrite(d, target, now, stampAt, processedAt))
  {
    if a == Operator {
      OperatorMovesExactly(d.bookingStatus, target);
    } else {
      CustomerMovesExactly(d.bookingStatus, target);
    }
  }

  /**
   * An offered move whose clock readings come in order, none earlier than anything the booking
   * records, keeps the stamps in order and records nothing later than its last reading.
   */
  lemma MovePreservesChronology(d: Document, a: Actor, target: Status, now: int, stampAt: int, processedAt: int)
    requires StampsConsistent(d) && Chronological(d) && Transition(a, d.bookingStatus, target)
    requires NotAfter(d, now) && now <= stampAt <= processedAt
    ensures Chronological(StatusWrite(d, target, now, stampAt, processedAt))
    ensures NotAfter(StatusWrite(d, target, now, stampAt, processedAt), processedAt)
  {
    var r := StatusWrite(d, target, now, stampAt, processedAt);
    MovePreservesConsistency(d, a, target, now, stampAt, processedAt);
    // the stamps a move compares against were recorded before its first reading
    assert Stamp(d, CheckInTimestamp) == d.checkInTimestamp;
    assert Stamp(d, CancelledAt) == d.cancelledAt;
    assert Stamp(r, CheckOutTimestamp) == r.checkOutTimestamp;
    assert Stamp(r, RefundedAt) == r.refundedAt;
    forall f | Stamp(r, f).Some?
      ensures Stamp(r, f).value <= processedAt
      ensures f !in StampsFor(target) ==> Stamp(r, f).value <= now
      ensures f in StampsFor(target) ==> now <= Stamp(r, f).value
    {
      if f !in StampsFor(target) {
        assert Stamp(r, f) == Stamp(d, f);
      }
    }
  }

  /**
   * One button click: who clicks, the status it writes, and the clock readings of the write
   * (for `updatedAt`, for the target's stamp, and for `refundProcessedAt`).
   */
  datatype Move = Move(actor: Actor, target: Status, at: int, stampAt: int, processedAt: int)

  /** The status write one click makes. */
  function Click(d: Document, m: Move): Document
  {
    StatusWrite(d, m.target, m.at, m.stampAt, m.processedAt)
  }

  /**
   * A sequence of button clicks applied to a booking; None when some click is not offered
   * for the status the booking has at that point.
   */
  function Run(d: Document, moves: seq<Move>): (r: Option<Document>)
    ensures r.Some? ==> r.value.details == d.details
    decreases |moves|
  {
    if |moves| == 0 then Some(d)
    else if Transition(moves[0].actor, d.bookingStatus, moves[0].target) then
      Run(Click(d, moves[0]), moves[1..])
    else None
  }

  /**
   * A clock that never goes backwards: each click's readings come in order, each click reads
   * no earlier than the previous one finished, and the first reads no earlier than anything
   * the booking records.
   */
  predicate Monotone(d: Document, moves: seq<Move>)
  {
    && (forall i :: 0 <= i < |moves| ==> moves[i].at <= moves[i].stampAt <= moves[i].processedAt)
    && (forall i :: 0 < i < |moves| ==> moves[i - 1].processedAt <= moves[i].at)
    && (|moves| > 0 ==> NotAfter(d, moves[0].at))
  }

  /** Every run of offered moves keeps the stamps consistent with the status and, on a monotone clock, in order. */
  lemma {:induction false} RunPreservesInvariants(d: Document, moves: seq<Move>)
    requires StampsConsistent(d) && Chronological(d) && Monotone(d, moves)
    requires Run(d, moves).Some?
    ensures StampsConsistent(Run(d, moves).value) && Chronological(Run(d, moves).value)
    decreases |moves|
  {
    if |moves| > 0 {
      var m := moves[0];
      MovePreservesConsistency(d, m.actor, m.target, m.at, m.stampAt, m.processedAt);
      MovePreservesChronology(d, m.actor, m.target, m.at, m.stampAt, m.processedAt);
      var rest := moves[1..];
      if |rest| > 0 {
        assert rest[0] == moves[1];
      }
      assert Monotone(Click(d, m), rest) by {
        forall i | 0 < i < |rest|
          ensures rest[i - 1].processedAt <= rest[i].at
        {
          assert rest[i - 1] == moves[i] && rest[i] == moves[i + 1];
        }
      }
      RunPreservesInvariants(Click(d, m), rest);
    }
  }

  /** No run of one or more moves starts from a checked-out or refunded booking. */
  lemma RunFromTerminal(d: Document, moves: seq<Move>)
    requires d.bookingStatus in {CheckedOut, Refunded} && |moves| > 0
    ensures Run(d, moves).None?
  {
    TerminalStatuses(moves[0].actor, moves[0].target);
  }

  /**
   * A booking that reaches `refunded` by offered moves on a monotone clock was cancelled first,
   * no later than the refund, and its refund was processed no earlier than it was stamped.
   */
  lemma RefundedWasCancelled(d: Document, moves: seq<Move>)
    requires StampsConsistent(d) && Chronological(d) && Monotone(d, moves)
    requires Run(d, moves).Some? && Run(d, moves).value.bookingStatus == Refunded
    ensures var r := Run(d, moves).value;
      && r.cancelledAt.Some? && r.refundedAt.Some? && r.refundProcessedAt.Some?
      && r.cancelledAt.value <= r.refundedAt.value <= r.refundProcessedAt.value
  {
    RunPreservesInvariants(d, moves);
  }
}
