# Garage booking backend: request handlers, tables and session

This project models the Express backend of a garage booking service. Customers
book service slots at garages. Garage accounts list the bookings made for their
garage. A superadmin can wipe or seed the store. The backend holds one session
record (`userId`, `role`) per connection and three store tables: `users`,
`garages` and `bookings`. Each handler answers with JSON, except where a
store call or a dereference throws; the model has one such throwing case.

The model is a class, `Backend.Server`, with the tables as `seq` fields, the
three id sequences as counters, and the session as a field. Each route is a
method that returns a `Response`: `Success`, `LoggedIn(role)`, `Rows(rows)`,
`Error(message)`, or `Thrown` when the handler fails without a JSON reply;
what the process does then is not modelled. The method's `modifies` clause names exactly the fields that route
may write.

`Server.Valid()` is the object invariant that every method keeps:

- the ids in each table are distinct and below the table's next sequence value;
- `userId` and `role` in the session are either both set or both absent;
- while the session's user row still exists, its role is the session's role;
- `verify(p, hash(p))` holds for every password `p`.

The read-only parts are functions in module `Tables`: the look-up of a user by
email, the look-up of a user by id, and the garage listing join. Lemmas there
pin the listing down. A row is listed exactly when it pairs an in-scope booking
with that booking's owner. With distinct user ids there is exactly one row per
such booking.

Module `Scenarios` runs short request sequences on a server over a small
starting store, empty unless the scenario says otherwise. Each scenario's outcome is proved from the handlers' contracts alone.

Behaviour of the code that the model keeps, where a reader might expect
otherwise:

- every guard is one exact string comparison against the session role, and an
  absent role always fails it;
- a denied request always gets `"Unauthorized"`, with or without a session;
- reset-users deletes every user, superadmins included, and the session
  survives it;
- register stores whatever role the body names, `'superadmin'` included;
- add-test-data links its `'admin'` user to garage id 1, whatever id the new
  garage received;
- no handler ever links a `'garage'` user to a garage. So if the starting
  store has no such link, the garage listing can only return an empty list
  (`GarageUsersUnbound` in the contracts of `Register`, `AddTestData` and
  `GarageBookings`).

A reader might expect a `Forbidden` error, missing-field validation, a
superadmin exemption in reset-users and an ordered listing. The code has none
of these, and neither does the model: the garage listing's contract fixes its
rows up to order only (as a multiset), because the query has no ORDER BY.

Password hashing is two constant function fields of the server, `hash` and
`verify`. The only thing assumed about them is that a password verifies
against its own hash. The store's answer to the register INSERT is a
parameter, `insertFailure`.

## Model

| member | source | states |
|---|---|---|
| `Tables.FirstUser` | backend/server.js:49-50 | the position of the first user satisfying a condition, or None exactly when no user satisfies it: the row read as `rows[0]` |
| `Tables.FindByEmail` | backend/server.js:49-51 | the position of the first user with the given email, or None exactly when no user has that email |
| `Tables.UserById` | backend/server.js:82-83 | the position of the first user with the given id, or None exactly when no user has that id |
| `Tables.OwnerRows` | backend/server.js:85 | every row joined for a booking carries that booking |
| `Tables.OwnerRowsMembership` | backend/server.js:85 | a joined row for a booking is exactly that booking paired with any user whose id equals its `user_id` |
| `Tables.Listing` | backend/server.js:84-88 | with a NULL garage id the listing is empty; every listed booking belongs to the `bookings` table and has the requested garage id |
| `Tables.ListingMembership` | backend/server.js:84-88 | a row is listed if and only if it pairs a booking whose `garage_id` equals the requested, non-NULL garage id with a user whose id is that booking's `user_id`, carrying that user's name and email (the projection `b.*, u.name, u.email`, written `RowOf`) |
| `Tables.OwnerRowsAtMostOne` | backend/server.js:85 | with distinct user ids, a booking joins with one user if its owner exists and with none otherwise |
| `Tables.ListingOnePerBooking` | backend/server.js:84-88 | with distinct user ids, the listed bookings are exactly the in-scope bookings whose owner exists, each once |
| `Tables.BookingsOfAppend` | backend/server.js:84-88 | helper for `ListingOnePerBooking`, modelling no source line of its own: the bookings of two concatenated row lists are the concatenation of their bookings |
| `Tables.InScope` | backend/server.js:85 | the filter `b.garage_id=$1`: never true for a NULL parameter, and when true the booking's garage id is that parameter |
| `Backend.HasRole` | backend/server.js:61 | the guard used at lines 61, 67, 73, 81 and 93: a session without a role never passes, and a passing session's role is exactly the required string |
| `Backend.Server.constructor` | backend/server.js:16-24 | a server over the given tables and sequence values, with no session |
| `Backend.Server.Register` | backend/server.js:35-45 | on a failed insert: the store's error message, and nothing changes. Otherwise: `{success}`, one user appended with the next id, the given name, email and role, `hash(password)`, and no garage; the password verifies against the stored hash. The session is untouched, and no 'garage' user gets a garage |
| `Backend.Server.Login` | backend/server.js:47-57 | no user with that email: "User not found". The first such user's hash rejects the password: "Incorrect password". In both failures the session is as before, an earlier login included. Otherwise the session holds that user's id and role and the reply is `{role}`. Tables never change |
| `Backend.Server.ResetDb` | backend/server.js:60-64 | any session role other than exactly 'superadmin', absent included: "Unauthorized" and nothing changes. Otherwise bookings, users and garages are all empty; the session and id sequences are kept |
| `Backend.Server.ResetUsers` | backend/server.js:66-70 | any role other than exactly 'superadmin': "Unauthorized" and nothing changes. Otherwise users is empty, superadmins included; garages, bookings and the session are untouched |
| `Backend.Server.AddTestData` | backend/server.js:72-77 | any role other than exactly 'superadmin': "Unauthorized" and nothing changes. Otherwise: one garage ("Test Garage", "123 Test St") with the next garage id, then one user ("Admin", "admin@test.com", the fixed hash, 'admin', garage 1) with the next user id. The user's garage is the new garage exactly when that garage got id 1. Bookings and the session are untouched |
| `Backend.Server.GarageBookings` | backend/server.js:80-89 | any role other than exactly 'garage': "Unauthorized". The caller's user row is gone: the handler throws. Otherwise the rows of the listing for that row's `garage_id`, as a multiset, with no order promised; every row is in the caller's garage, and no row at all while no 'garage' user has a garage. Nothing changes |
| `Backend.Server.Book` | backend/server.js:92-100 | any role other than exactly 'customer': "Unauthorized" and nothing changes. Otherwise exactly one booking is appended with the next id. Its owner is the session's user, whatever `user_id` the body holds; garage, date, time, service and notes are copied from the body. Users, garages and the session are unchanged |
| `Scenarios.CustomerBookingOwnedBySession` | backend/server.js:35-100 | register and login as customer; the booking is stored with the session's user as owner although the body names another |
| `Scenarios.BookingNotListedForUnboundGarage` | backend/server.js:35-89 | with a booking for garage 1 in the store, a freshly registered 'garage' user logs in and gets an empty listing |
| `Scenarios.ResetDbRefusedBelowSuperadmin` | backend/server.js:60-64 | reset-db is "Unauthorized" both with no session and with an 'admin' session, and the user table keeps its row |
| `Scenarios.SuperadminOutlivesOwnRow` | backend/server.js:66-70 | a self-registered superadmin can run reset-users and so delete their own row; a new login then fails with "User not found", while the old session still passes reset-db |
| `Scenarios.TestDataAfterResetPointsAtMissingGarage` | backend/server.js:72-77 | after reset-db, a second add-test-data creates garage 2 while its admin user still points at garage 1 |

## Left out

- Express setup, body parsing, session middleware options, static files, the root route and server start (backend/server.js:1-32, 103): framework plumbing.
- Environment variables and the port (backend/server.js:9-13): configuration I/O.
- bcrypt internals: `hash` is a deterministic function here, so the per-call salt is not modelled; nothing is assumed about `verify` beyond accepting a password against its own hash. The fixed test hash is stored as a string, and whether any password verifies against it is left open.
- The Postgres pool and SQL text: the tables are sequences and each statement is a sequence operation. Rows are kept in insertion order. Login's `rows[0]` is taken as the first matching row in that order; the SQL has no ORDER BY, so Postgres promises no particular row.
- Schema constraints that the code does not show, such as unique emails and foreign keys. The only store failure modelled is the one register catches (backend/server.js:44), as the `insertFailure` parameter. Sequence values that a failed insert may consume are not modelled.
- Store errors in handlers without try/catch (backend/server.js:49, 62, 68, 74-75, 82, 85, 95), and a rejected `bcrypt.compare` in login (backend/server.js:52): such a handler fails without a JSON reply, and what the process does then is not modelled. Only the `rows[0]` dereference at backend/server.js:83 is modelled, as `Thrown`. Reset-db's three DELETEs are one multi-statement query (backend/server.js:62), so they apply together or not at all. Add-test-data's two INSERTs are separate queries (backend/server.js:74, 75), so when the second fails the new garage stays. The model has every statement succeed, so neither failure is modelled.
- `Backend.Server.Register` / `Login`: absent `name`, `email` and `role` fields are not modelled; the parameters are always strings. In the code (backend/server.js:36-41) an absent field inserts NULL into its column unless the schema rejects it. A user whose role is NULL would, on login (backend/server.js:54-55), leave a session with `userId` set and `role` NULL. `SessionBound`'s "both set or both absent" clause holds only because such rows are not modelled. A login body without `email` queries `email=NULL` and gets "User not found" (backend/server.js:49-51); the model always queries a string.
- Register's `bcrypt.hash` is called before the try block (backend/server.js:37), so a body without a password throws. Login's `bcrypt.compare` (backend/server.js:52) rejects in the same way when the body has no password. The model's register and login fields are always strings, so neither missing-password case is modelled. Booking body fields may be absent (None), which the model copies as NULL, as the code does; body values of other JSON types are not modelled.
- Async execution and concurrent requests: the model is sequential, with one connection and one session.
- The frontend files (frontend/login.js, frontend/admin.js, frontend/customer.js, frontend/garage.js): DOM access, fetch calls and alerts. The role-based redirect (frontend/login.js:15-17) is UI navigation.
- `/api/admin/create-user` and `/api/admin/garages`, which the frontend calls: backend/server.js defines no such routes, so there is no code to model.
- `/api/me`, logout, the admin-wide booking listing and garage creation: backend/server.js defines none of these.
