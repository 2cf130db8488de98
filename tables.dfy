/** The three tables of the booking store (users, garages, bookings), the two
    single-row lookups the handlers issue, and the garage listing join. */
module Tables {

  datatype Option<T> = None | Some(value: T)

  /** A row of `users`. `garageId` is NULL (None) unless the insert named it. */
  datatype User = User(id: nat, name: string, email: string, passwordHash: string,
                       role: string, garageId: Option<nat>)

  /** A row of `garages`. */
  datatype Garage = Garage(id: nat, name: string, address: string)

  /** A row of `bookings`. The fields copied from a request body are NULL
      (None) when the body leaves them out. */
  datatype Booking = Booking(id: nat, userId: nat, garageId: Option<nat>, date: Option<string>,
                             time: Option<string>, service: Option<string>, notes: Option<string>)

  /** A row of the garage listing: every booking column and the owner's name and email. */
  datatype BookingRow = BookingRow(booking: Booking, name: string, email: string)

  // ----- auto-assigned ids -----

  predicate DistinctUserIds(users: seq<User>) {
    forall i, j | 0 <= i < j < |users| :: users[i].id != users[j].id
  }

  /** Ids are pairwise distinct and all below the next value of the table's sequence. */
  predicate UserIdsFresh(users: seq<User>, next: nat) {
    DistinctUserIds(users) && forall i | 0 <= i < |users| :: users[i].id < next
  }

  predicate GarageIdsFresh(garages: seq<Garage>, next: nat) {
    (forall i, j | 0 <= i < j < |garages| :: garages[i].id != garages[j].id)
    && forall i | 0 <= i < |garages| :: garages[i].id < next
  }

  predicate BookingIdsFresh(bookings: seq<Booking>, next: nat) {
    (forall i, j | 0 <= i < j < |bookings| :: bookings[i].id != bookings[j].id)
    && forall i | 0 <= i < |bookings| :: bookings[i].id < next
  }

  // ----- single-row lookups -----

  /** The position of the first user satisfying `matches`, or None when none does:
      the row a handler reads as `rows[0]`. */
  function FirstUser(users: seq<User>, matches: User -> bool): (r: Option<nat>)
    ensures r.Some? ==> r.value < |users| && matches(users[r.value])
    ensures r.Some? ==> forall j | 0 <= j < r.value :: !matches(users[j])
    ensures r.None? <==> forall j | 0 <= j < |users| :: !matches(users[j])
  {
    if users == [] then None
    else if matches(users[0]) then Some(0)
    else match FirstUser(users[1..], matches)
      case None => None
      case Some(k) => Some(k + 1)
  }

  /** `SELECT * FROM users WHERE email=$1`, then `rows[0]`. */
  function FindByEmail(users: seq<User>, email: string): (r: Option<nat>)
    ensures r.Some? ==> r.value < |users| && users[r.value].email == email
    ensures r.Some? ==> forall j | 0 <= j < r.value :: users[j].email != email
    ensures r.None? <==> forall j | 0 <= j < |users| :: users[j].email != email
  {
    FirstUser(users, (u: User) => u.email == email)
  }

  /** `SELECT garage_id FROM users WHERE id=$1`, then `rows[0]`. */
  function UserById(users: seq<User>, id: nat): (r: Option<nat>)
    ensures r.Some? ==> r.value < |users| && users[r.value].id == id
    ensures r.Some? ==> forall j | 0 <= j < r.value :: users[j].id != id
    ensures r.None? <==> forall j | 0 <= j < |users| :: users[j].id != id
  {
    FirstUser(users, (u: User) => u.id == id)
  }

  // ----- the garage listing -----

  /** `b.garage_id = $1` in SQL: never true when the parameter is NULL. */
  predicate InScope(b: Booking, garageId: Option<nat>): (r: bool)
    ensures garageId.None? ==> !r
    ensures r ==> b.garageId.Some? && b.garageId == garageId
  {
    garageId.Some? && b.garageId == garageId
  }

  /** The projection `b.*, u.name, u.email`: the whole booking, then two user columns. */
  function RowOf(b: Booking, u: User): BookingRow {
    BookingRow(b, u.name, u.email)
  }

  /** The join `bookings b JOIN users u ON u.id = b.user_id` for one booking. */
  function OwnerRows(b: Booking, users: seq<User>): (rows: seq<BookingRow>)
    ensures forall k | 0 <= k < |rows| :: rows[k].booking == b
  {
    if users == [] then []
    else (if users[0].id == b.userId then [RowOf(b, users[0])] else []) + OwnerRows(b, users[1..])
  }

  /** `SELECT b.*, u.name, u.email FROM bookings b JOIN users u ON u.id=b.user_id
      WHERE b.garage_id=$1`. The query has no ORDER BY; this definition lists rows in
      table order, and the handler's contract promises only its multiset. */
  function Listing(bookings: seq<Booking>, users: seq<User>, garageId: Option<nat>): (rows: seq<BookingRow>)
    ensures garageId.None? ==> rows == []
    ensures forall k | 0 <= k < |rows| :: rows[k].booking in bookings && rows[k].booking.garageId == garageId
  {
    if bookings == [] then []
    else
      (if InScope(bookings[0], garageId) then OwnerRows(bookings[0], users) else [])
      + Listing(bookings[1..], users, garageId)
  }

  lemma {:induction false} OwnerRowsMembership(b: Booking, users: seq<User>, r: BookingRow)
    ensures r in OwnerRows(b, users) <==> exists u | u in users :: u.id == b.userId && r == RowOf(b, u)
  {
    if users != [] {
      OwnerRowsMembership(b, users[1..], r);
      assert users == [users[0]] + users[1..];
    }
  }

  /** A row is listed exactly when it pairs an in-scope booking with a user whose
      id is that booking's owner id. */
  lemma {:induction false} ListingMembership(bookings: seq<Booking>, users: seq<User>, garageId: Option<nat>, r: BookingRow)
    ensures r in Listing(bookings, users, garageId) <==>
            exists b, u | b in bookings && u in users :: InScope(b, garageId) && u.id == b.userId && r == RowOf(b, u)
  {
    if bookings != [] {
      ListingMembership(bookings[1..], users, garageId, r);
      OwnerRowsMembership(bookings[0], users, r);
      assert bookings == [bookings[0]] + bookings[1..];
    }
  }

  /** Bookings, in scope, whose owner id matches an existing user. */
  function Matching(bookings: seq<Booking>, users: seq<User>, garageId: Option<nat>): seq<Booking> {
    if bookings == [] then []
    else
      (if InScope(bookings[0], garageId) && UserById(users, bookings[0].userId).Some? then [bookings[0]] else [])
      + Matching(bookings[1..], users, garageId)
  }

  function BookingsOf(rows: seq<BookingRow>): seq<Booking> {
    if rows == [] then [] else [rows[0].booking] + BookingsOf(rows[1..])
  }

  lemma {:induction false} BookingsOfAppend(x: seq<BookingRow>, y: seq<BookingRow>)
    ensures BookingsOf(x + y) == BookingsOf(x) + BookingsOf(y)
  {
    if x == [] {
      assert x + y == y;
    } else {
      assert (x + y)[1..] == x[1..] + y;
      BookingsOfAppend(x[1..], y);
    }
  }

  /** With distinct user ids a booking joins with at most one user. */
  lemma {:induction false} OwnerRowsAtMostOne(b: Booking, users: seq<User>)
    requires DistinctUserIds(users)
    ensures BookingsOf(OwnerRows(b, users)) == if UserById(users, b.userId).Some? then [b] else []
  {
    if users != [] {
      var tail := users[1..];
      assert DistinctUserIds(tail) by {
        forall i, j | 0 <= i < j < |tail| ensures tail[i].id != tail[j].id {
          assert tail[i] == users[i + 1] && tail[j] == users[j + 1];
        }
      }
      OwnerRowsAtMostOne(b, tail);
      if users[0].id == b.userId {
        assert UserById(tail, b.userId).None? by {
          forall j | 0 <= j < |tail| ensures tail[j].id != b.userId {
            assert tail[j] == users[j + 1];
          }
        }
        BookingsOfAppend([RowOf(b, users[0])], OwnerRows(b, tail));
      } else {
        assert UserById(users, b.userId) == match UserById(tail, b.userId)
          case None => None case Some(k) => Some(k + 1);
      }
    }
  }

  /** With distinct user ids, the listing holds one row for each in-scope booking
      whose owner exists, and no other row. */
  lemma {:induction false} ListingOnePerBooking(bookings: seq<Booking>, users: seq<User>, garageId: Option<nat>)
    requires DistinctUserIds(users)
    ensures BookingsOf(Listing(bookings, users, garageId)) == Matching(bookings, users, garageId)
  {
    if bookings != [] {
      var b := bookings[0];
      var head := if InScope(b, garageId) then OwnerRows(b, users) else [];
      BookingsOfAppend(head, Listing(bookings[1..], users, garageId));
      ListingOnePerBooking(bookings[1..], users, garageId);
      if InScope(b, garageId) {
        OwnerRowsAtMostOne(b, users);
      }
    }
  }
}
