/**
 * The admin dashboard: a fixed-credential login, and the two folds that group every saved
 * trip by its `userEmail` and every booking by its `userId`, each group carrying a running
 * count. The dashboard lists one card per user who has trips.
 */
module AdminPanel {
  import opened Wrappers
  import opened Bookings
  import opened Grouping

  /** A saved trip, as far as the dashboard reads it: its document id and its owner. */
  datatype Trip = Trip(id: string, userEmail: string)

  function OwnerOf(t: Trip): string
  {
    t.userEmail
  }

  /** One user's entry: the documents in snapshot order and the counter kept beside them. */
  datatype Group<T> = Group(items: seq<T>, total: int)

  /** The sum of the counters of the groups listed in ks. */
  function SumTotals<T>(groups: map<string, Group<T>>, ks: seq<string>): int
    requires forall i :: 0 <= i < |ks| ==> ks[i] in groups
  {
    if |ks| == 0 then 0 else SumTotals(groups, ks[..|ks| - 1]) + groups[ks[|ks| - 1]].total
  }

  /** Groups that agree on the keys listed have the same sum. */
  lemma {:induction false} SumTotalsAgree<T>(g1: map<string, Group<T>>, g2: map<string, Group<T>>, ks: seq<string>)
    requires forall i :: 0 <= i < |ks| ==> ks[i] in g1 && ks[i] in g2 && g1[ks[i]].total == g2[ks[i]].total
    ensures SumTotals(g1, ks) == SumTotals(g2, ks)
  {
    if |ks| > 0 {
      SumTotalsAgree(g1, g2, ks[..|ks| - 1]);
    }
  }

  /** Raising one listed counter by one raises the sum by one. */
  lemma {:induction false} SumTotalsBump<T>(groups: map<string, Group<T>>, ks: seq<string>, u: string, g: Group<T>)
    requires Distinct(ks) && u in ks && u in groups && g.total == groups[u].total + 1
    requires forall i :: 0 <= i < |ks| ==> ks[i] in groups
    ensures SumTotals(groups[u := g], ks) == SumTotals(groups, ks) + 1
  {
    var init := ks[..|ks| - 1];
    if ks[|ks| - 1] == u {
      assert u !in init;
      SumTotalsAgree(groups[u := g], groups, init);
    } else {
      assert u in init by {
        var j :| 0 <= j < |ks| && ks[j] == u;
        assert init[j] == u;
      }
      SumTotalsBump(groups, init, u, g);
    }
  }

  /** The map the fold builds from a snapshot: per key, its documents and their number. */
  function GroupsOf<T>(snapshot: seq<T>, key: T -> string): map<string, Group<T>>
  {
    map u | u in KeysInOrder(snapshot, key) :: Group(Matching(snapshot, key, u), |Matching(snapshot, key, u)|)
  }

  /** The groups list exactly the keys of the prefix, in order of first appearance. */
  ghost predicate Listed<T>(prefix: seq<T>, key: T -> string, groups: map<string, Group<T>>, order: seq<string>)
  {
    order == KeysInOrder(prefix, key) && forall u :: u in groups <==> u in order
  }

  /** Each group holds exactly its key's documents of the prefix, and its counter is their number. */
  ghost predicate Holds<T>(prefix: seq<T>, key: T -> string, groups: map<string, Group<T>>)
  {
    forall u :: u in groups ==> groups[u].items == Matching(prefix, key, u) && groups[u].total == |groups[u].items|
  }

  /** One step of the fold: a group is created for a new key, then the document is pushed and counted. */
  function AddItem<T>(groups: map<string, Group<T>>, u: string, x: T): map<string, Group<T>>
  {
    var g := if u in groups then groups[u] else Group([], 0);
    groups[u := Group(g.items + [x], g.total + 1)]
  }

  function AddKey<T>(groups: map<string, Group<T>>, order: seq<string>, u: string): seq<string>
  {
    if u in groups then order else order + [u]
  }

  lemma StepListed<T>(prefix: seq<T>, key: T -> string, x: T, groups: map<string, Group<T>>, order: seq<string>)
    requires Listed(prefix, key, groups, order)
    ensures Listed(prefix + [x], key, AddItem(groups, key(x), x), AddKey(groups, order, key(x)))
  {
    KeysInOrderSnoc(prefix, x, key);
    assert AddItem(groups, key(x), x).Keys == groups.Keys + {key(x)};
  }

  lemma StepHolds<T>(prefix: seq<T>, key: T -> string, x: T, groups: map<string, Group<T>>, order: seq<string>)
    requires Listed(prefix, key, groups, order) && Holds(prefix, key, groups)
    ensures Holds(prefix + [x], key, AddItem(groups, key(x), x))
  {
    var u := key(x);
    var g' := AddItem(groups, u, x);
    forall v | v in g'
      ensures g'[v].items == Matching(prefix + [x], key, v) && g'[v].total == |g'[v].items|
    {
      MatchingSnoc(prefix, x, key, v);
      if v == u && u !in groups {
        NoMatchOutsideKeys(prefix, key, u);
        assert g'[v] == Group([x], 1);
      } else if v == u {
        assert g'[v] == Group(groups[u].items + [x], groups[u].total + 1);
      } else {
        assert g'[v] == groups[v];
      }
    }
  }

  lemma StepCounted<T>(groups: map<string, Group<T>>, order: seq<string>, u: string, x: T)
    requires Distinct(order) && forall v :: v in groups <==> v in order
    ensures forall i :: 0 <= i < |AddKey(groups, order, u)| ==> AddKey(groups, order, u)[i] in AddItem(groups, u, x)
    ensures SumTotals(AddItem(groups, u, x), AddKey(groups, order, u)) == SumTotals(groups, order) + 1
  {
    var g' := AddItem(groups, u, x);
    if u in groups {
      SumTotalsBump(groups, order, u, g'[u]);
    } else {
      var order' := order + [u];
      assert order'[..|order|] == order;
      SumTotalsAgree(g', groups, order);
    }
  }

  /** Once the fold has seen the whole snapshot, its map is the one `GroupsOf` describes. */
  lemma FoldIsGroupsOf<T>(snapshot: seq<T>, key: T -> string, groups: map<string, Group<T>>, order: seq<string>)
    requires Listed(snapshot, key, groups, order) && Holds(snapshot, key, groups)
    ensures groups == GroupsOf(snapshot, key)
  {
  }

  /**
   * The `forEach` of `fetchUsers` and `fetchBookings`: each document is pushed onto the group of
   * its key, created empty when the key is first seen, and that group's counter is raised.
   * Every document lands in the group of its own key, groups keep snapshot order, each counter
   * is its group's size, and the counters add up to the number of documents read.
   */
  method GroupWithCounts<T>(snapshot: seq<T>, key: T -> string) returns (groups: map<string, Group<T>>, order: seq<string>)
    ensures order == KeysInOrder(snapshot, key)
    ensures forall u :: u in groups <==> u in order
    ensures forall u :: u in groups ==>
      groups[u].items == Matching(snapshot, key, u) && groups[u].total == |groups[u].items|
    ensures SumTotals(groups, order) == |snapshot|
    ensures groups == GroupsOf(snapshot, key)
  {
    groups := map[];
    order := [];
    for i := 0 to |snapshot|
      invariant Listed(snapshot[..i], key, groups, order) && Holds(snapshot[..i], key, groups)
      invariant SumTotals(groups, order) == i
    {
      var x := snapshot[i];
      assert snapshot[..i + 1] == snapshot[..i] + [x];
      StepListed(snapshot[..i], key, x, groups, order);
      StepHolds(snapshot[..i], key, x, groups, order);
      StepCounted(groups, order, key(x), x);
      var u := key(x);
      var g := if u in groups then groups[u] else Group([], 0);
      if u !in groups {
        order := order + [u];
      }
      groups := groups[u := Group(g.items + [x], g.total + 1)];
    }
    assert snapshot[..|snapshot|] == snapshot;
    FoldIsGroupsOf(snapshot, key, groups, order);
  }

  /** A document is in the group of its own key and in no other. */
  lemma InOwnGroupOnly<T>(snapshot: seq<T>, key: T -> string, groups: map<string, Group<T>>, x: T, u: string)
    requires forall v :: v in groups ==> groups[v].items == Matching(snapshot, key, v)
    requires x in snapshot && u in groups
    ensures x in groups[u].items <==> key(x) == u
  {
    MatchingMembers(snapshot, key, u);
  }

  const Credentials := ("admin", "admin123")

  /** One user card: the e-mail, the trips group, and the bookings group when the user has one. */
  datatype Card = Card(email: string, trips: Group<Trip>, bookings: Option<Group<Booking>>)

  /** The cards `Object.entries(users)` renders: one per key of the trips map, in its key order. */
  function Cards(users: map<string, Group<Trip>>, userOrder: seq<string>, bookings: map<string, Group<Booking>>)
    : (r: seq<Card>)
    requires forall i :: 0 <= i < |userOrder| ==> userOrder[i] in users
    ensures |r| == |userOrder|
    ensures forall i :: 0 <= i < |r| ==>
      && r[i].email == userOrder[i] && r[i].trips == users[userOrder[i]]
      && (r[i].bookings.Some? <==> userOrder[i] in bookings)
  {
    seq(|userOrder|, i requires 0 <= i < |userOrder| =>
      var e := userOrder[i];
      Card(e, users[e], if e in bookings then Some(bookings[e]) else None))
  }

  class Panel {
    var isAuthenticated: bool
    var users: map<string, Group<Trip>>
    var userOrder: seq<string>
    var bookings: map<string, Group<Booking>>

    constructor()
      ensures !isAuthenticated && users == map[] && userOrder == [] && bookings == map[]
    {
      isAuthenticated := false;
      users := map[];
      userOrder := [];
      bookings := map[];
    }

    /** The trips map and the order of its keys describe the same users. */
    ghost predicate Valid()
      reads this
    {
      forall u :: u in users <==> u in userOrder
    }

    /**
     * `fetchData`: both collections are read; a read that succeeds replaces its map, one that
     * fails (None) leaves its map as it was and raises the error notice.
     */
    method FetchData(trips: Option<seq<Trip>>, bookingDocs: Option<seq<Booking>>) returns (failed: bool)
      requires Valid()
      modifies this
      ensures Valid()
      ensures failed <==> trips.None? || bookingDocs.None?
      ensures trips.Some? ==> users == GroupsOf(trips.value, OwnerOf) && userOrder == KeysInOrder(trips.value, OwnerOf)
      ensures trips.Some? ==> SumTotals(users, userOrder) == |trips.value|
      ensures trips.None? ==> users == old(users) && userOrder == old(userOrder)
      ensures bookingDocs.Some? ==> bookings == GroupsOf(bookingDocs.value, UserOf)
      ensures bookingDocs.None? ==> bookings == old(bookings)
      ensures isAuthenticated == old(isAuthenticated)
    {
      if trips.Some? {
        users, userOrder := GroupWithCounts(trips.value, OwnerOf);
      }
      if bookingDocs.Some? {
        var order;
        bookings, order := GroupWithCounts(bookingDocs.value, UserOf);
      }
      failed := trips.None? || bookingDocs.None?;
    }

    /**
     * `handleLogin`: the fixed credentials authenticate and load the data as `fetchData` does,
     * raising its error notice (`failed`) when a read fails; anything else leaves the dashboard
     * locked and unchanged.
     */
    method HandleLogin(username: string, password: string, trips: Option<seq<Trip>>, bookingDocs: Option<seq<Booking>>)
      returns (invalid: bool, failed: bool)
      requires Valid()
      modifies this
      ensures Valid()
      ensures invalid <==> (username, password) != Credentials
      ensures isAuthenticated <==> old(isAuthenticated) || !invalid
      ensures failed <==> !invalid && (trips.None? || bookingDocs.None?)
      ensures invalid ==> users == old(users) && userOrder == old(userOrder) && bookings == old(bookings)
      ensures !invalid && trips.Some? ==> users == GroupsOf(trips.value, OwnerOf) && userOrder == KeysInOrder(trips.value, OwnerOf)
      ensures !invalid && trips.Some? ==> SumTotals(users, userOrder) == |trips.value|
      ensures !invalid && trips.None? ==> users == old(users) && userOrder == old(userOrder)
      ensures !invalid && bookingDocs.Some? ==> bookings == GroupsOf(bookingDocs.value, UserOf)
      ensures !invalid && bookingDocs.None? ==> bookings == old(bookings)
    {
      if username == "admin" && password == "admin123" {
        isAuthenticated := true;
        failed := FetchData(trips, bookingDocs);
        invalid := false;
      } else {
        invalid := true;
        failed := false;
      }
    }
  }

  /**
   * The dashboard lists exactly the users who own a trip: a user who has bookings but no
   * trip gets no card, and the "Total Users" figure is the number of trip owners.
   */
  lemma CardsAreTripOwners(trips: seq<Trip>, bookingDocs: seq<Booking>, email: string)
    ensures var cards := Cards(GroupsOf(trips, OwnerOf), KeysInOrder(trips, OwnerOf), GroupsOf(bookingDocs, UserOf));
      (exists i :: 0 <= i < |cards| && cards[i].email == email) <==> exists t :: t in trips && t.userEmail == email
  {
    var order := KeysInOrder(trips, OwnerOf);
    var cards := Cards(GroupsOf(trips, OwnerOf), order, GroupsOf(bookingDocs, UserOf));
    assert (exists i :: 0 <= i < |cards| && cards[i].email == email) <==> email in order by {
      assert forall i :: 0 <= i < |cards| ==> cards[i].email == order[i];
    }
    assert email in order <==> exists t :: t in trips && t.userEmail == email by {
      KeysInOrderMembers(trips, OwnerOf);
      if email in order {
        var j :| 0 <= j < |trips| && OwnerOf(trips[j]) == email;
        assert trips[j] in trips;
      }
      if exists t :: t in trips && t.userEmail == email {
        var t :| t in trips && t.userEmail == email;
        var j :| 0 <= j < |trips| && trips[j] == t;
        assert OwnerOf(trips[j]) == email;
      }
    }
  }
}
