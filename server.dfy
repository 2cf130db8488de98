/** The request handlers of the booking backend: one server object holding the
    three tables, the ids the store will hand out next, and the caller's session. */
module Backend {
  import opened Tables

  // Role names compared by the guards, and the error messages the handlers send.
  const SuperadminRole := "superadmin"
  const GarageRole := "garage"
  const CustomerRole := "customer"
  const Unauthorized := "Unauthorized"
  const UserNotFound := "User not found"
  const IncorrectPassword := "Incorrect password"

  // The fixture rows inserted by add-test-data.
  const TestGarageName := "Test Garage"
  const TestGarageAddress := "123 Test St"
  const TestAdminName := "Admin"
  const TestAdminEmail := "admin@test.com"
  const TestAdminHash := "$2b$10$zjYzRbO9JcVZsD4g/vR7BOSJx2pTqAKXk6rZDW9xh0u7IdzwnO2Qi"
  const TestAdminRole := "admin"
  const TestAdminGarage: nat := 1

  /** The session record: both fields are absent until a login succeeds. */
  datatype Session = Session(userId: Option<nat>, role: Option<string>)

  /** What a handler sends back; `Thrown` is a handler that fails without a JSON
      reply (what the process does then is not modelled). */
  datatype Response =
    | Success
    | LoggedIn(role: string)
    | Rows(rows: seq<BookingRow>)
    | Error(message: string)
    | Thrown

  /** The JSON body of a booking request. A `user_id` in it is never read. */
  datatype BookingRequest = BookingRequest(userId: Option<nat>, garageId: Option<nat>, date: Option<string>,
                                           time: Option<string>, service: Option<string>, notes: Option<string>)

  /** The guard `req.session.role === role`: exact string equality, absent never passes. */
  predicate HasRole(s: Session, role: string): (admitted: bool)
    ensures s.role.None? ==> !admitted
    ensures admitted ==> s.role.value == role
  {
    s.role == Some(role)
  }

  /** Login binds both fields at once, from one user row; while that row exists,
      the session's role is the row's role. */
  predicate SessionBound(s: Session, users: seq<User>, nextUserId: nat) {
    (s.userId.Some? <==> s.role.Some?)
    && (s.userId.Some? ==>
          s.userId.value < nextUserId
          && forall j | 0 <= j < |users| && users[j].id == s.userId.value :: s.role == Some(users[j].role))
  }

  /** No user with role 'garage' is affiliated with a garage. */
  predicate GarageUsersUnbound(users: seq<User>) {
    forall j | 0 <= j < |users| && users[j].role == GarageRole :: users[j].garageId.None?
  }

  class Server {
    var users: seq<User>
    var garages: seq<Garage>
    var bookings: seq<Booking>
    // The next values of the three tables' id sequences; DELETE does not reset them.
    var nextUserId: nat
    var nextGarageId: nat
    var nextBookingId: nat
    var session: Session
    // The password hashing capability: `verify` accepts a password against its own hash.
    const hash: string -> string
    const verify: (string, string) -> bool

    ghost predicate Valid()
      reads this
    {
      (forall p :: verify(p, hash(p)))
      && UserIdsFresh(users, nextUserId)
      && GarageIdsFresh(garages, nextGarageId)
      && BookingIdsFresh(bookings, nextBookingId)
      && SessionBound(session, users, nextUserId)
    }

    /** A server over the tables as the store holds them, with no session yet. */
    constructor (users0: seq<User>, garages0: seq<Garage>, bookings0: seq<Booking>,
                 nextUser: nat, nextGarage: nat, nextBooking: nat,
                 hash: string -> string, verify: (string, string) -> bool)
      requires forall p :: verify(p, hash(p))
      requires UserIdsFresh(users0, nextUser)
      requires GarageIdsFresh(garages0, nextGarage)
      requires BookingIdsFresh(bookings0, nextBooking)
      ensures Valid()
      ensures users == users0 && garages == garages0 && bookings == bookings0
      ensures nextUserId == nextUser && nextGarageId == nextGarage && nextBookingId == nextBooking
      ensures session == Session(None, None)
      ensures this.hash == hash && this.verify == verify
    {
      users, garages, bookings := users0, garages0, bookings0;
      nextUserId, nextGarageId, nextBookingId := nextUser, nextGarage, nextBooking;
      session := Session(None, None);
      this.hash, this.verify := hash, verify;
    }

    /** POST /api/register. `insertFailure` is the store's verdict on the INSERT:
        the message of the error it raised, or None when the row was stored. */
    method Register(name: string, email: string, password: string, role: string, insertFailure: Option<string>)
      returns (resp: Response)
      requires Valid()
      modifies this`users, this`nextUserId
      ensures Valid()
      ensures insertFailure.Some? ==> resp == Error(insertFailure.value) && unchanged(this)
      ensures insertFailure.None? ==>
                resp == Success
                && users == old(users) + [User(old(nextUserId), name, email, hash(password), role, None)]
                && nextUserId == old(nextUserId) + 1
      ensures insertFailure.None? ==> verify(password, users[|users| - 1].passwordHash)
      ensures session == old(session)
      ensures old(GarageUsersUnbound(users)) ==> GarageUsersUnbound(users)
    {
      var digest := hash(password);
      if insertFailure.Some? {
        resp := Error(insertFailure.value);
        return;
      }
      users := users + [User(nextUserId, name, email, digest, role, None)];
      nextUserId := nextUserId + 1;
      resp := Success;
    }

    /** POST /api/login. */
    method Login(email: string, password: string) returns (resp: Response)
      requires Valid()
      modifies this`session
      ensures Valid()
      ensures FindByEmail(users, email).None? ==> resp == Error(UserNotFound) && session == old(session)
      ensures FindByEmail(users, email).Some? ==>
                var u := users[FindByEmail(users, email).value];
                if verify(password, u.passwordHash)
                then resp == LoggedIn(u.role) && session == Session(Some(u.id), Some(u.role))
                else resp == Error(IncorrectPassword) && session == old(session)
    {
      var found := FindByEmail(users, email);
      if found.None? {
        return Error(UserNotFound);
      }
      var user := users[found.value];
      var matches := verify(password, user.passwordHash);
      if !matches {
        return Error(IncorrectPassword);
      }
      session := Session(Some(user.id), Some(user.role));
      resp := LoggedIn(user.role);
    }

    /** POST /api/admin/reset-db. */
    method ResetDb() returns (resp: Response)
      requires Valid()
      modifies this`users, this`garages, this`bookings
      ensures Valid()
      ensures !HasRole(old(session), SuperadminRole) ==> resp == Error(Unauthorized) && unchanged(this)
      ensures HasRole(old(session), SuperadminRole) ==>
                resp == Success && bookings == [] && users == [] && garages == []
      ensures session == old(session)
      ensures nextUserId == old(nextUserId) && nextGarageId == old(nextGarageId) && nextBookingId == old(nextBookingId)
    {
      if !HasRole(session, SuperadminRole) {
        return Error(Unauthorized);
      }
      bookings, users, garages := [], [], [];
      resp := Success;
    }

    /** POST /api/admin/reset-users: deletes every user, superadmins included. */
    method ResetUsers() returns (resp: Response)
      requires Valid()
      modifies this`users
      ensures Valid()
      ensures !HasRole(old(session), SuperadminRole) ==> resp == Error(Unauthorized) && unchanged(this)
      ensures HasRole(old(session), SuperadminRole) ==> resp == Success && users == []
      ensures garages == old(garages) && bookings == old(bookings) && session == old(session)
    {
      if !HasRole(session, SuperadminRole) {
        return Error(Unauthorized);
      }
      users := [];
      resp := Success;
    }

    /** POST /api/admin/add-test-data: one garage, then one 'admin' user whose
        garage_id is the literal 1, not the id the new garage received. */
    method AddTestData() returns (resp: Response)
      requires Valid()
      modifies this`garages, this`users, this`nextGarageId, this`nextUserId
      ensures Valid()
      ensures !HasRole(old(session), SuperadminRole) ==> resp == Error(Unauthorized) && unchanged(this)
      ensures HasRole(old(session), SuperadminRole) ==>
                resp == Success
                && garages == old(garages) + [Garage(old(nextGarageId), TestGarageName, TestGarageAddress)]
                && users == old(users) + [User(old(nextUserId), TestAdminName, TestAdminEmail, TestAdminHash,
                                               TestAdminRole, Some(TestAdminGarage))]
                && nextGarageId == old(nextGarageId) + 1 && nextUserId == old(nextUserId) + 1
      ensures HasRole(old(session), SuperadminRole) ==>
                (users[|users| - 1].garageId == Some(garages[|garages| - 1].id) <==> old(nextGarageId) == 1)
      ensures bookings == old(bookings) && session == old(session)
      ensures old(GarageUsersUnbound(users)) ==> GarageUsersUnbound(users)
    {
      if !HasRole(session, SuperadminRole) {
        return Error(Unauthorized);
      }
      garages := garages + [Garage(nextGarageId, TestGarageName, TestGarageAddress)];
      nextGarageId := nextGarageId + 1;
      users := users + [User(nextUserId, TestAdminName, TestAdminEmail, TestAdminHash, TestAdminRole, Some(TestAdminGarage))];
      nextUserId := nextUserId + 1;
      resp := Success;
    }

    /** GET /api/garage/bookings: the bookings of the caller's stored garage, each
        joined with its owner's name and email. Throws when the caller's user row
        is gone (`rows[0]` is undefined). */
    method GarageBookings() returns (resp: Response)
      requires Valid()
      ensures !HasRole(session, GarageRole) ==> resp == Error(Unauthorized)
      ensures HasRole(session, GarageRole) && UserById(users, session.userId.value).None? ==> resp == Thrown
      ensures HasRole(session, GarageRole) && UserById(users, session.userId.value).Some? ==>
                var caller := users[UserById(users, session.userId.value).value];
                caller.role == GarageRole
                && resp.Rows? && multiset(resp.rows) == multiset(Listing(bookings, users, caller.garageId))
      ensures resp.Rows? ==>
                exists j | 0 <= j < |users| :: users[j].id == session.userId.value
                  && forall k | 0 <= k < |resp.rows| :: InScope(resp.rows[k].booking, users[j].garageId)
      ensures resp.Rows? && GarageUsersUnbound(users) ==> resp.rows == []
    {
      if !HasRole(session, GarageRole) {
        return Error(Unauthorized);
      }
      var found := UserById(users, session.userId.value);
      if found.None? {
        return Thrown;
      }
      // The rows come back in table order here; the contract promises only the multiset.
      var garageId := users[found.value].garageId;
      resp := Rows(Listing(bookings, users, garageId));
    }

    /** POST /api/customer/book: the owner is the session's user, never the body's. */
    method Book(body: BookingRequest) returns (resp: Response)
      requires Valid()
      modifies this`bookings, this`nextBookingId
      ensures Valid()
      ensures !HasRole(old(session), CustomerRole) ==> resp == Error(Unauthorized) && unchanged(this)
      ensures HasRole(old(session), CustomerRole) ==>
                resp == Success
                && bookings == old(bookings) + [Booking(old(nextBookingId), session.userId.value, body.garageId,
                                                        body.date, body.time, body.service, body.notes)]
                && nextBookingId == old(nextBookingId) + 1
      ensures users == old(users) && garages == old(garages) && session == old(session)
    {
      if !HasRole(session, CustomerRole) {
        return Error(Unauthorized);
      }
      bookings := bookings + [Booking(nextBookingId, session.userId.value, body.garageId,
                                      body.date, body.time, body.service, body.notes)];
      nextBookingId := nextBookingId + 1;
      resp := Success;
    }
  }
}
