/**
 * The operator's booking console: every booking grouped by the e-mail of the user who made
 * it, newest first within each user; the set of users whose bookings are expanded; and the
 * status writes its buttons make.
 */
module OperatorConsole {
  import opened Wrappers
  import opened Js
  import opened Bookings
  import opened Grouping

  /** The contact line of a user: `{ email, name, phone }` taken from one of their bookings. */
  datatype UserDetails = UserDetails(email: string, name: string, phone: string)

  datatype UserGroup = UserGroup(userDetails: UserDetails, bookings: seq<Booking>)

  function DetailsOf(b: Booking): UserDetails
  {
    UserDetails(b.doc.details.userId, b.doc.details.userName, b.doc.details.userMobile)
  }

  /** The groups are listed in order of their users' first appearance in the snapshot. */
  ghost predicate KeysListed(snapshot: seq<Booking>, groups: map<string, UserGroup>, order: seq<string>)
  {
    order == KeysInOrder(snapshot, UserOf) && forall u :: u in groups <==> u in order
  }

  /** Each group holds exactly its user's bookings, in snapshot order. */
  ghost predicate GroupsHoldOwners(snapshot: seq<Booking>, groups: map<string, UserGroup>)
  {
    forall u :: u in groups ==> groups[u].bookings == Matching(snapshot, UserOf, u)
  }

  /** Each group is non-empty and shows the contact details of its first booking. */
  ghost predicate DetailsFromFirst(groups: map<string, UserGroup>)
  {
    forall u :: u in groups ==>
      |groups[u].bookings| > 0 && groups[u].userDetails == DetailsOf(groups[u].bookings[0])
  }

  /** The dictionary `fetchAllBookings` builds from a snapshot, before sorting. */
  ghost predicate GroupedBy(snapshot: seq<Booking>, groups: map<string, UserGroup>, order: seq<string>)
  {
    KeysListed(snapshot, groups, order) && GroupsHoldOwners(snapshot, groups) && DetailsFromFirst(groups)
  }

  /** One step of the fold: pushing booking b onto the group of its user, created if needed. */
  function AddToGroup(groups: map<string, UserGroup>, b: Booking): map<string, UserGroup>
  {
    var u := UserOf(b);
    var g := if u in groups then groups[u] else UserGroup(DetailsOf(b), []);
    groups[u := g.(bookings := g.bookings + [b])]
  }

  function AddToOrder(groups: map<string, UserGroup>, order: seq<string>, b: Booking): seq<string>
  {
    if UserOf(b) in groups then order else order + [UserOf(b)]
  }

  lemma StepKeys(prefix: seq<Booking>, b: Booking, groups: map<string, UserGroup>, order: seq<string>)
    requires KeysListed(prefix, groups, order)
    ensures KeysListed(prefix + [b], AddToGroup(groups, b), AddToOrder(groups, order, b))
  {
    KeysInOrderSnoc(prefix, b, UserOf);
    assert AddToGroup(groups, b).Keys == groups.Keys + {UserOf(b)};
  }

  lemma StepOwners(prefix: seq<Booking>, b: Booking, groups: map<string, UserGroup>, order: seq<string>)
    requires KeysListed(prefix, groups, order) && GroupsHoldOwners(prefix, groups)
    ensures GroupsHoldOwners(prefix + [b], AddToGroup(groups, b))
  {
    var u := UserOf(b);
    var g' := AddToGroup(groups, b);
    forall v | v in g'
      ensures g'[v].bookings == Matching(prefix + [b], UserOf, v)
    {
      MatchingSnoc(prefix, b, UserOf, v);
      if v == u && u !in groups {
        NoMatchOutsideKeys(prefix, UserOf, u);
        assert g'[v].bookings == [b];
      } else if v == u {
        assert g'[v].bookings == groups[u].bookings + [b];
      } else {
        assert g'[v] == groups[v];
      }
    }
  }

  lemma StepDetails(groups: map<string, UserGroup>, b: Booking)
    requires DetailsFromFirst(groups)
    ensures DetailsFromFirst(AddToGroup(groups, b))
  {
    var u := UserOf(b);
    var g' := AddToGroup(groups, b);
    forall v | v in g'
      ensures |g'[v].bookings| > 0 && g'[v].userDetails == DetailsOf(g'[v].bookings[0])
    {
      if v != u {
        assert g'[v] == groups[v];
      } else if u in groups {
        assert g'[v] == groups[u].(bookings := groups[u].bookings + [b]);
        assert g'[v].bookings[0] == groups[u].bookings[0];
      } else {
        assert g'[v] == UserGroup(DetailsOf(b), [b]);
      }
    }
  }

  /**
   * The `forEach` of `fetchAllBookings`: each booking is pushed onto the group of its `userId`;
   * a group is created, with the details of the booking at hand, when its user is first seen.
   * Groups come out in order of first appearance, bookings within a group in snapshot order.
   */
  method GroupByUser(snapshot: seq<Booking>) returns (groups: map<string, UserGroup>, order: seq<string>)
    ensures GroupedBy(snapshot, groups, order)
  {
    groups := map[];
    order := [];
    for i := 0 to |snapshot|
      invariant GroupedBy(snapshot[..i], groups, order)
    {
      var b := snapshot[i];
      assert snapshot[..i + 1] == snapshot[..i] + [b];
      StepKeys(snapshot[..i], b, groups, order);
      StepOwners(snapshot[..i], b, groups, order);
      StepDetails(groups, b);
      if UserOf(b) !in groups {
        order := order + [UserOf(b)];
      }
      groups := AddToGroup(groups, b);
    }
    assert snapshot[..|snapshot|] == snapshot;
  }

  /** Every booking of the snapshot is in the group of its own user and in no other group. */
  lemma EachBookingInOneGroup(snapshot: seq<Booking>, groups: map<string, UserGroup>, order: seq<string>, b: Booking)
    requires GroupedBy(snapshot, groups, order) && b in snapshot
    ensures UserOf(b) in groups && b in groups[UserOf(b)].bookings
    ensures forall u :: u in groups && u != UserOf(b) ==> b !in groups[u].bookings
  {
    var i :| 0 <= i < |snapshot| && snapshot[i] == b;
    KeysInOrderMembers(snapshot, UserOf);
    assert UserOf(snapshot[i]) in order;
    forall u | u in groups
      ensures b in groups[u].bookings <==> u == UserOf(b)
    {
      MatchingMembers(snapshot, UserOf, u);
    }
  }

  /** Each group's bookings sorted newest first by `timestamp.seconds`; the details are kept. */
  function SortGroups(groups: map<string, UserGroup>): (r: map<string, UserGroup>)
    ensures r.Keys == groups.Keys
    ensures forall u :: u in r ==>
      && r[u].userDetails == groups[u].userDetails
      && r[u].bookings == SortNewestFirst(groups[u].bookings)
      && NewestFirst(r[u].bookings)
      && multiset(r[u].bookings) == multiset(groups[u].bookings)
  {
    map u | u in groups :: groups[u].(bookings := SortNewestFirst(groups[u].bookings))
  }

  /** `toggleUserExpanded`: membership of e flips and every other membership is kept. */
  function Toggled(s: set<string>, e: string): (r: set<string>)
    ensures e in r <==> e !in s
    ensures forall x :: x != e ==> (x in r <==> x in s)
  {
    if e in s then s - {e} else s + {e}
  }

  /** Toggling the same user twice restores the set. */
  lemma ToggleTwice(s: set<string>, e: string)
    ensures Toggled(Toggled(s, e), e) == s
  {
  }

  const UpdateFailed := "Failed to update booking status"

  /** The success notice: the written status with its first underscore shown as a space. */
  function UpdatedNotice(s: Status): string
  {
    "Booking status updated to " + ReplaceFirst(StatusName(s), "_", " ")
  }

  class Console {
    /** The groups keyed by user e-mail, and the order in which `Object.entries` lists them. */
    var bookingsByUser: map<string, UserGroup>
    var userOrder: seq<string>
    var expandedUsers: set<string>
    var processingRefund: Option<string>

    constructor()
      ensures bookingsByUser == map[] && userOrder == []
      ensures expandedUsers == {} && processingRefund == None
    {
      bookingsByUser := map[];
      userOrder := [];
      expandedUsers := {};
      processingRefund := None;
    }

    /** The booking with this id is among the loaded groups. */
    predicate Loaded(id: string)
      reads this
    {
      exists u :: u in bookingsByUser && exists b :: b in bookingsByUser[u].bookings && b.id == id
    }

    /**
     * `fetchAllBookings`: on a successful read the groups are rebuilt from the snapshot and
     * sorted newest first; on a failed read (None) nothing changes.
     */
    method FetchAllBookings(read: Option<seq<Booking>>)
      modifies this
      ensures read.None? ==> bookingsByUser == old(bookingsByUser) && userOrder == old(userOrder)
      ensures read.Some? ==> userOrder == KeysInOrder(read.value, UserOf)
      ensures read.Some? ==> forall u :: u in bookingsByUser <==> u in userOrder
      ensures read.Some? ==> forall u :: u in bookingsByUser ==>
        && bookingsByUser[u].bookings == SortNewestFirst(Matching(read.value, UserOf, u))
        && NewestFirst(bookingsByUser[u].bookings)
        && multiset(bookingsByUser[u].bookings) == multiset(Matching(read.value, UserOf, u))
        && |Matching(read.value, UserOf, u)| > 0
        && bookingsByUser[u].userDetails == DetailsOf(Matching(read.value, UserOf, u)[0])
      ensures expandedUsers == old(expandedUsers) && processingRefund == old(processingRefund)
    {
      if read.Some? {
        var groups, order := GroupByUser(read.value);
        bookingsByUser := SortGroups(groups);
        userOrder := order;
      }
    }

    /** `toggleUserExpanded`. */
    method ToggleUserExpanded(email: string)
      modifies this
      ensures expandedUsers == Toggled(old(expandedUsers), email)
      ensures bookingsByUser == old(bookingsByUser) && userOrder == old(userOrder)
      ensures processingRefund == old(processingRefund)
    {
      expandedUsers := Toggled(expandedUsers, email);
    }

    /**
     * `handleStatusUpdate` against the collection `store`: a booking that is not among the
     * loaded groups raises 'Booking not found' and nothing is written; otherwise the status
     * patch is written with `updateDoc` (which fails when the document is gone) and, after a
     * successful write, the groups are fetched again from the written collection; that fetch
     * is not awaited and may fail (`refetched` false), leaving the groups as they were. The
     * clock readings are `now` for `updatedAt`, `stampAt` for the target's stamp (taken after
     * the processing wait for a refund) and `processedAt` for `refundProcessedAt`. The refund
     * spinner is cleared either way.
     */
    method HandleStatusUpdate(store: seq<Booking>, id: string, newStatus: Status,
                              now: int, stampAt: int, processedAt: int, refetched: bool)
      returns (written: seq<Booking>, notice: string)
      modifies this
      ensures !old(Loaded(id)) ==> written == store && notice == UpdateFailed
      ensures old(Loaded(id)) && !HasId(store, id) ==> written == store && notice == UpdateFailed
      ensures old(Loaded(id)) && HasId(store, id) ==>
        && UpdateDoc(store, id, StatusPatch(newStatus, now, stampAt, processedAt)) == Success(written)
        && notice == UpdatedNotice(newStatus)
      ensures old(Loaded(id)) && HasId(store, id) && refetched ==>
        && userOrder == KeysInOrder(written, UserOf)
        && (forall u :: u in bookingsByUser <==> u in userOrder)
        && (forall u :: u in bookingsByUser ==>
              && bookingsByUser[u].bookings == SortNewestFirst(Matching(written, UserOf, u))
              && NewestFirst(bookingsByUser[u].bookings)
              && multiset(bookingsByUser[u].bookings) == multiset(Matching(written, UserOf, u))
              && |Matching(written, UserOf, u)| > 0
              && bookingsByUser[u].userDetails == DetailsOf(Matching(written, UserOf, u)[0]))
      ensures !(old(Loaded(id)) && HasId(store, id) && refetched) ==>
        bookingsByUser == old(bookingsByUser) && userOrder == old(userOrder)
      ensures expandedUsers == old(expandedUsers) && processingRefund == None
    {
      if !Loaded(id) {
        processingRefund := None;
        return store, UpdateFailed;
      }
      if newStatus == Refunded {
        processingRefund := Some(id);
      }
      var r := UpdateDoc(store, id, StatusPatch(newStatus, now, stampAt, processedAt));
      if r.Failure? {
        processingRefund := None;
        return store, UpdateFailed;
      }
      written := r.value;
      notice := UpdatedNotice(newStatus);
      processingRefund := None;
      FetchAllBookings(if refetched then Some(written) else None);
    }
  }
}
