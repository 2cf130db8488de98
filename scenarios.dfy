/** Request sequences on a server over a small starting store (empty, unless a
    scenario says otherwise), each proved from the handlers' contracts alone. */
module Scenarios {
  import opened Tables
  import opened Backend

  /** A customer registers, logs in and books garage 1 with a body that names
      another owner; the booking is recorded under the session's user. */
  method CustomerBookingOwnedBySession(hash: string -> string, verify: (string, string) -> bool)
    returns (login: Response, booked: Response, bookings: seq<Booking>)
    requires forall p :: verify(p, hash(p))
    ensures login == LoggedIn(CustomerRole)
    ensures booked == Success
    ensures bookings == [Booking(1, 1, Some(1), Some("2025-01-01"), Some("10:00"), Some("oil change"), None)]
  {
    var s := new Server([], [], [], 1, 1, 1, hash, verify);
    var r := s.Register("C", "c@x.com", "pw", CustomerRole, None);
    login := s.Login("c@x.com", "pw");
    booked := s.Book(BookingRequest(Some(7), Some(1), Some("2025-01-01"), Some("10:00"), Some("oil change"), None));
    bookings := s.bookings;
  }

  /** With that booking for garage 1 in the store, a user who registers as
      'garage' sees no booking, since registration never links a user to a garage. */
  method BookingNotListedForUnboundGarage(hash: string -> string, verify: (string, string) -> bool)
    returns (login: Response, listing: Response)
    requires forall p :: verify(p, hash(p))
    ensures login == LoggedIn(GarageRole)
    ensures listing == Rows([])
  {
    var customer := User(1, "C", "c@x.com", hash("pw"), CustomerRole, None);
    var booking := Booking(1, 1, Some(1), Some("2025-01-01"), Some("10:00"), Some("oil change"), None);
    var s := new Server([customer], [], [booking], 2, 1, 2, hash, verify);
    var r := s.Register("G", "g@x.com", "pw2", GarageRole, None);
    login := s.Login("g@x.com", "pw2");
    listing := s.GarageBookings();
  }

  /** Without a session, and with an 'admin' session, reset-db is refused and the
      user table keeps its row. */
  method ResetDbRefusedBelowSuperadmin(hash: string -> string, verify: (string, string) -> bool)
    returns (anonymous: Response, asAdmin: Response, users: seq<User>)
    requires forall p :: verify(p, hash(p))
    ensures anonymous == Error(Unauthorized)
    ensures asAdmin == Error(Unauthorized)
    ensures |users| == 1 && users[0].role == "admin"
  {
    var s := new Server([], [], [], 1, 1, 1, hash, verify);
    anonymous := s.ResetDb();
    var r := s.Register("A", "a@x.com", "pw", "admin", None);
    r := s.Login("a@x.com", "pw");
    asAdmin := s.ResetDb();
    users := s.users;
  }

  /** Anyone may register as 'superadmin'. reset-users then deletes that very
      user, yet the session keeps its role: a later login finds no user, while
      reset-db is still admitted. */
  method SuperadminOutlivesOwnRow(hash: string -> string, verify: (string, string) -> bool)
    returns (login: Response, resetUsers: Response, relogin: Response, resetDb: Response)
    requires forall p :: verify(p, hash(p))
    ensures login == LoggedIn(SuperadminRole)
    ensures resetUsers == Success
    ensures relogin == Error(UserNotFound)
    ensures resetDb == Success
  {
    var s := new Server([], [], [], 1, 1, 1, hash, verify);
    var r := s.Register("S", "s@x.com", "pw", SuperadminRole, None);
    login := s.Login("s@x.com", "pw");
    resetUsers := s.ResetUsers();
    relogin := s.Login("s@x.com", "pw");
    resetDb := s.ResetDb();
  }

  /** After reset-db the garage sequence has moved on, so in a store without a
      foreign key on `users.garage_id` a second add-test-data links its 'admin'
      user to garage 1, which no longer exists. */
  method TestDataAfterResetPointsAtMissingGarage(hash: string -> string, verify: (string, string) -> bool)
    returns (garages: seq<Garage>, users: seq<User>)
    requires forall p :: verify(p, hash(p))
    ensures |garages| == 1 && garages[0].id == 2
    ensures |users| == 1 && users[0].garageId == Some(1) && users[0].role == TestAdminRole
  {
    var s := new Server([], [], [], 1, 1, 1, hash, verify);
    var r := s.Register("S", "s@x.com", "pw", SuperadminRole, None);
    r := s.Login("s@x.com", "pw");
    r := s.AddTestData();
    r := s.ResetDb();
    r := s.AddTestData();
    garages, users := s.garages, s.users;
  }
}
