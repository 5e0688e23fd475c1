# Room booking app: a verified model of its handlers and booking pages

The room booking app is a small Express/PostgreSQL server with a React
client. Users register, log in, and book rooms in half-hour steps between
08:00 and 18:00 Singapore time. Admins manage rooms, the equipment catalogue
and user roles. This project models the following in Dafny:

- the server's handlers that change the database:
  - bookings with their clash check;
  - rooms and their equipment;
  - the equipment catalogue;
  - registration, login and the role change;
- the token middleware;
- the client's request helper with its token refresh;
- the logic of four pages:
  - the room page: the slot grid and the booking form;
  - "my bookings": the upcoming/past split and the edit dialog;
  - the rooms list: the capacity filter and the equipment names;
  - role management.

The proofs cover:

- the booking invariant: no two bookings of one room overlap;
- what each handler writes and which replies it sends, in order;
- the agreement between the client's "booked" marks and the server's clash check;
- the request shapes;
- the refresh decision;
- the clock arithmetic of the pages.

Conventions of the model:

- Each table is a class with a `seq` of rows (rooms' equipment is a `map`
  keyed by the (room, equipment) pair) and a counter that stands for the
  generated ids. Each handler runs as one atomic step.
- A backend handler returns `seq<Reply>`: the replies its code issues, in
  order. When a missing `return` makes the handler send a second reply, the
  list stops at that second send, which Express refuses.
- A client page is a class whose fields are the page's state. Each request
  it sends is appended to a `sent` field. The outcome of the request
  (`FetchResult`) is a parameter.
- JavaScript values are the `Json` datatype. Truthiness, `||`, `??`,
  `String(...)` and `toUpperCase` are written out in `JsCore`.

## Model

| member | source | states |
|---|---|---|
| Bookings.HasClash | backendExpress/controllers/bookings.js:21-27 | the clash query finds a row exactly when some row of the same room (other than the excluded id) overlaps `[start, end)` with strict comparisons |
| Bookings.OverlapsIffSharedInstant | backendExpress/controllers/bookings.js:21-27 | for non-empty intervals the query's test `start < end_time AND end > start_time` holds iff the two half-open intervals share an instant |
| Bookings.TouchingNeverOverlaps | backendExpress/controllers/bookings.js:21-27 | a booking ending at the instant another starts does not clash with it, in either order |
| Bookings.OverlapsSymmetric | backendExpress/controllers/bookings.js:21-27 | the overlap test gives the same answer with the two intervals swapped |
| Bookings.InsertKeepsNoOverlap | backendExpress/controllers/bookings.js:21-43 | inserting a row the clash check passed keeps "no two bookings of a room overlap" |
| Bookings.ReplaceKeepsNoOverlap | backendExpress/controllers/bookings.js:107-138 | rewriting a row that has no clash with the other rows (its own id excluded) keeps the invariant |
| Bookings.ClashAfterInsert | backendExpress/controllers/bookings.js:21-34 | once a booking is stored, any later request for that room overlapping it is refused by the clash check |
| Bookings.NoOverlapCons | backendExpress/controllers/bookings.js:21-27 | the invariant of a list is the invariant of its tail plus "the head overlaps no row of its room" |
| Bookings.WithoutKeepsNoOverlap | backendExpress/controllers/bookings.js:68-81 | deleting rows never breaks the invariant |
| Bookings.OrCurrent | backendExpress/controllers/bookings.js:102-104 | `field \|\| current` picks a supplied truthy value, and the current column for an absent or falsy one |
| Bookings.CoalesceCast | backendExpress/controllers/bookings.js:119-138 | `COALESCE($n, column)` keeps the column for an absent field, writes a supplied value, and the uuid/timestamptz cast rejects a falsy one |
| Bookings.Merge | backendExpress/controllers/bookings.js:119-138 | the UPDATE fails exactly when some field is falsy, and a successful merge keeps the id |
| Bookings.MergeFieldwise | backendExpress/controllers/bookings.js:119-138 | each column of a successful update is the supplied value if given, otherwise the current one |
| Bookings.MergeAgreesWithClashTarget | backendExpress/controllers/bookings.js:102-138 | whenever the UPDATE succeeds, the room and interval it writes are exactly those the clash check examined |
| Bookings.MergeEmptyPatch | backendExpress/controllers/bookings.js:119-138 | an empty body writes the row back unchanged |
| Bookings.InsertSorted | backendExpress/controllers/bookings.js:227 | inserting into a start-ordered list gives a start-ordered list holding one more copy of the row |
| Bookings.SortedCons | backendExpress/controllers/bookings.js:227 | a row that may precede every row of a sorted list can be put in front of it |
| Bookings.SortByStart | backendExpress/controllers/bookings.js:198 | ORDER BY start_time gives a list that is sorted (ascending or descending) and a permutation of the rows |
| Bookings.BookingTable.constructor | backendExpress/controllers/bookings.js:13-51 | an empty bookings table; the class invariant (unique ids, no two bookings of one room overlapping) holds from the start |
| Bookings.BookingTable.AddBooking | backendExpress/controllers/bookings.js:13-51 | a clash gives 409 "Slot already taken" and no change; otherwise one new row with the given fields and "booking added"; the class invariant, which includes "no two bookings of a room overlap", is preserved |
| Bookings.BookingTable.UpdateBooking | backendExpress/controllers/bookings.js:83-148 | the outcomes in order: unknown id gives 404; a clash (own row excluded) gives 409 "Clash detected"; a falsy field gives the 500 cast error; otherwise only that row is replaced by the merge and "updated" is sent. The class invariant, including no overlap, is preserved |
| Bookings.BookingTable.DeleteBooking | backendExpress/controllers/bookings.js:68-81 | the rows left are those with another id; an unknown id gives "booking not found" followed by "booking deleted"; the class invariant, including no overlap, is preserved |
| Bookings.BookingTable.RoomBookings | backendExpress/controllers/bookings.js:210-237 | the room's bookings, sorted by start ascending, a permutation of the room's rows |
| Bookings.BookingTable.UserBookings | backendExpress/controllers/bookings.js:163-208 | the user's bookings, sorted by start descending, a permutation of the user's rows |
| Rooms.MergeRoomKeeps | backendExpress/controllers/rooms.js:109-131 | the update keeps the id and every column the body does not supply; an empty body changes nothing |
| Rooms.MergeRoomComposes | backendExpress/controllers/rooms.js:109-131 | repeating an update is idempotent, and two updates in a row equal one combined update where the later field wins |
| Rooms.QuantityOrDefault | backendExpress/controllers/rooms.js:141 | an absent quantity defaults to 1, a given one is kept |
| Rooms.Upsert | backendExpress/controllers/rooms.js:144-152 | afterwards the (room, equipment) pair holds the new quantity and every other pair is unchanged |
| Rooms.UpsertIdempotent | backendExpress/controllers/rooms.js:144-152 | repeating the upsert changes nothing |
| Rooms.Join | backendExpress/controllers/rooms.js:73-75 | joining no parts gives "", one part gives that part, and the result starts with the first part |
| Rooms.BuildUpdate | backendExpress/controllers/rooms.js:57-96 | a body without keys gives 400 "No update fields provided"; otherwise the parameters are the body's values in key order followed by the path id |
| Rooms.KeyPlaceholderBinds | backendExpress/controllers/rooms.js:73-85 | the i-th assignment names the i-th key, and its placeholder's number points at that key's value |
| Rooms.PlaceholdersDistinct | backendExpress/controllers/rooms.js:73-75 | two keys never share a placeholder |
| Rooms.WherePlaceholderBinds | backendExpress/controllers/rooms.js:78-85 | the WHERE placeholder is number keys+1, the last parameter, which holds the id |
| Rooms.RoomTables.constructor | backendExpress/controllers/rooms.js:13-25 | empty rooms and room_equipments tables |
| Rooms.RoomTables.AddRoom | backendExpress/controllers/rooms.js:13-25 | a smallint capacity gives one new row and "room added"; any other capacity gives the out-of-range error and no change |
| Rooms.RoomTables.DeleteRoom | backendExpress/controllers/rooms.js:42-55 | the rooms left are those with another id; an unknown id gives "room not found" followed by "room deleted" |
| Rooms.RoomTables.UpdateRoom | backendExpress/controllers/rooms.js:98-137 | an unknown id gives 404 and then the TypeError reply, with no write; an out-of-range capacity gives the cast error; otherwise only that row becomes the merge |
| Rooms.RoomTables.AddEquipmentToRoom | backendExpress/controllers/rooms.js:139-159 | room_equipments becomes the upsert of the pair, with quantity 1 by default; rooms are unchanged |
| Rooms.RoomTables.RemoveEquipmentFromRoom | backendExpress/controllers/rooms.js:161-185 | only that pair is removed; an absent pair gives 404 followed by the success reply |
| Equipments.MergeEquipmentFieldwise | backendExpress/controllers/equipments.js:69-85 | each column is the supplied value or the current one; an empty body changes nothing; a repeated update is idempotent |
| Equipments.EquipmentTable.constructor | backendExpress/controllers/equipments.js:13-25 | an empty equipment table |
| Equipments.EquipmentTable.AddEquipment | backendExpress/controllers/equipments.js:13-25 | exactly one new row with the given fields, and "equipment added" |
| Equipments.EquipmentTable.DeleteEquipment | backendExpress/controllers/equipments.js:42-55 | the rows left are those with another id; an unknown id gives "equipments not found" followed by "equipment deleted" |
| Equipments.EquipmentTable.UpdateEquipment | backendExpress/controllers/equipments.js:57-94 | an unknown id gives 404 and then the TypeError reply, with no write; otherwise only that row becomes the merge |
| Users.ValidRoleIsCaseSensitive | backendExpress/controllers/users.js:124-130 | a valid role is already upper case, and "admin" is refused although the admin gate upper-cases it to "ADMIN" |
| Users.UserTable.constructor | backendExpress/controllers/users.js:40-61 | an empty users table |
| Users.UserTable.Register | backendExpress/controllers/users.js:40-61 | under the assumed unique email constraint: a taken email gives "duplicate email" then "invalid registration" with no insert; otherwise one new row with the assumed default role USER; ids and emails stay unique |
| Users.UserTable.Login | backendExpress/controllers/users.js:63-99 | an unknown email gives 401 "not authorised"; when that email's first user's password does not match, 401 "login failed"; when it matches, the login succeeds with claims exactly that user's id and role |
| Users.UserTable.Me | backendExpress/controllers/users.js:17-38 | no token id gives 401; an unknown id gives 404; a known id always succeeds with exactly the profile of the first user with that id, without the hash |
| Users.UserTable.SetUserRole | backendExpress/controllers/users.js:117-153 | the user's role is written even when it is invalid; the replies for each mix of invalid role and unknown id, up to the second send |
| Auth.TokenOfBearerHeader | backendExpress/middleware/auth.js:8 | "Bearer " followed by a token yields that token |
| Auth.TokenNotAnchored | backendExpress/middleware/auth.js:8 | the replace is not anchored: "xBearer y" yields "xy" |
| Auth.TokenWithoutBearer | backendExpress/middleware/auth.js:8 | a header without "Bearer " is taken whole as the token |
| Auth.Authenticate | backendExpress/middleware/auth.js:3-22 | no header gives 400; an empty token 403; a token that fails verification 401; otherwise `next` is called with the verified payload |
| Auth.AuthenticateAdmin | backendExpress/middleware/auth.js:24-49 | passes exactly when `auth` would pass and the role upper-cases to ADMIN; a non-admin role gets 403 "unauthoried"; a missing or non-string role gets 401 |
| Auth.LowerCaseAdminPasses | backendExpress/middleware/auth.js:34 | a verified token with role "admin" passes the admin gate |
| SharedFetch.Shape | frontendApp/src/shared/sharedFetch.jsx:73-89 | the method is upper-cased (GET by default); a Bearer header exactly when the token is truthy; a JSON body (`{}` for null or undefined) exactly when the method is not GET or HEAD |
| SharedFetch.LowerCaseGetHasNoBody | frontendApp/src/shared/sharedFetch.jsx:81-89 | "get" sends no body, and a missing method is GET |
| SharedFetch.ServerRecoversToken | frontendApp/src/shared/sharedFetch.jsx:77-79 | the server middleware extracts exactly the token the client put in the header |
| SharedFetch.RefreshHint | frontendApp/src/shared/sharedFetch.jsx:49-54 | the message inspected is `msg`, then `message`, then `error` of an object body, or a string body itself |
| SharedFetch.ShouldAttemptRefresh | frontendApp/src/shared/sharedFetch.jsx:45-63 | refresh only on a 401 with a refresh token, and then exactly when the lower-cased hint mentions expired, invalid, token or authorization |
| SharedFetch.AbsentWhenFirstCharAbsent | frontendApp/src/shared/sharedFetch.jsx:57-61 | a word whose first letter is missing from every possible starting position does not occur |
| SharedFetch.UnauthorisedHint | frontendApp/src/shared/sharedFetch.jsx:49-56 | for the server's `{status: "error", msg: "unauthorised"}` body the hint is "unauthorised" |
| SharedFetch.UnauthorisedMentionsNoTokenProblem | frontendApp/src/shared/sharedFetch.jsx:57-61 | "unauthorised" contains none of the four trigger words |
| SharedFetch.ServerUnauthorisedDoesNotTriggerRefresh | frontendApp/src/shared/sharedFetch.jsx:45-63 | the server's 401 "unauthorised" reply never makes the client refresh its token |
| SharedFetch.RefreshAccessToken | frontendApp/src/shared/sharedFetch.jsx:6-43 | no refresh token gives "Missing refresh token"; success needs an ok reply carrying `access` or `accessToken`; an ok reply carrying a truthy `access || accessToken` succeeds with exactly that value, and one without gives "Refresh succeeded but no access"; a non-ok reply fails carrying its body, with the message `msg`, else `message`, else a non-empty string body, else "Refresh failed (status)"; every failure message is truthy |
| SharedFetch.ErrorResult | frontendApp/src/shared/sharedFetch.jsx:133-165 | the priority of a failed response's message: validator array, then `msg`, `message`, `error`, the `errors` array, a non-empty string body, then "Request failed (status)"; the message is always truthy |
| SharedFetch.ValidatorMessageFirst | frontendApp/src/shared/sharedFetch.jsx:141-146 | an express-validator `msg` array's first message wins |
| SharedFetch.FetchData | frontendApp/src/shared/sharedFetch.jsx:65-172 | one or two requests; the first is the shaped request; at most one refresh, made exactly when the first reply calls for it and this is not a retry; once a refresh is made, a retry happens exactly when it succeeded, carrying the new token; `onAuthError` is called exactly when the refresh was made and failed, with the refresh's message (falling back to "Failed to refresh token"); the result is that of the last reply, and a failure's message is always truthy |
| TimeOfDay.JsRem | frontendApp/src/components/RoomDetailsPage.jsx:8 | JavaScript `%`: within (-b, b), equal to the Euclidean remainder for non-negative operands, non-positive for negative ones |
| TimeOfDay.Pad2 | frontendApp/src/components/RoomDetailsPage.jsx:6 | the padded text has at least two characters |
| TimeOfDay.Pad2RoundTrip | frontendApp/src/components/RoomDetailsPage.jsx:6 | below 100 the padded text is two digits that read back as the number |
| TimeOfDay.MinutesToLabel | frontendApp/src/components/RoomDetailsPage.jsx:7-8 | a label has at least five characters |
| TimeOfDay.LabelRoundTrip | frontendApp/src/components/BookingsPage.jsx:46-47 | within a day the label is "HH:MM" with hour < 24 and minute < 60, and reads back as the time |
| TimeOfDay.LabelInjective | frontendApp/src/components/RoomDetailsPage.jsx:7-8 | two different times of the day never share a label |
| TimeOfDay.SgToUtcMsLinear | frontendApp/src/components/RoomDetailsPage.jsx:18-23 | a Singapore wall-clock time is the day's UTC midnight plus the minutes, minus eight hours |
| TimeOfDay.SgToUtcMsSpan | frontendApp/src/components/BookingsPage.jsx:37-44 | the conversion preserves order, and d minutes apart on the clock are d·60000 ms apart |
| TimeOfDay.HalfHourOptions | frontendApp/src/components/BookingsPage.jsx:49-55 | the loop builds the half-hourly options from 08:00 up to the last time |
| TimeOfDay.OptionsShape | frontendApp/src/components/RoomDetailsPage.jsx:193-196 | the options are every half hour from the first time, in order, with the expected count |
| TimeOfDay.OptionsCutoff | frontendApp/src/components/BookingsPage.jsx:325-326 | filtering the options at a cutoff gives the options up to the cutoff |
| TimeOfDay.StartOptions | frontendApp/src/components/RoomDetailsPage.jsx:193-196 | the room page offers 20 start times, from 08:00 to 17:30 |
| TimeOfDay.EditOptions | frontendApp/src/components/BookingsPage.jsx:320-332 | the edit dialog lists 21 times from 08:00 to 18:00, and its start select offers exactly the room page's 20 start times |
| RoomDetailsPage.BuildSlots | frontendApp/src/components/RoomDetailsPage.jsx:10-16 | the loop builds the half-hour slots from 08:00 |
| RoomDetailsPage.SlotsShape | frontendApp/src/components/RoomDetailsPage.jsx:10-16 | slot i runs from start + 30·i for 30 minutes, and the count runs to 18:00 |
| RoomDetailsPage.SlotsTileTheDay | frontendApp/src/components/RoomDetailsPage.jsx:10-16 | 20 back-to-back half-hour slots from 08:00 to 18:00; every minute of the day lies in exactly one slot |
| RoomDetailsPage.AnyOverlaps | frontendApp/src/components/RoomDetailsPage.jsx:119-123 | `some` holds iff some listed booking overlaps the slot |
| RoomDetailsPage.SlotBookedIffServerClash | frontendApp/src/components/RoomDetailsPage.jsx:115-124 | with the room's bookings as the server lists them, a slot is marked booked exactly when the server's clash check would refuse booking it |
| RoomDetailsPage.UnparsedNeverBooks | frontendApp/src/components/RoomDetailsPage.jsx:119-122 | a booking whose times do not parse marks no slot |
| RoomDetailsPage.BookingForm.constructor | frontendApp/src/components/RoomDetailsPage.jsx:54-56 | the form starts at 08:00 with 30 minutes, and nothing sent |
| RoomDetailsPage.BookingForm.ChooseStart | frontendApp/src/components/RoomDetailsPage.jsx:288-296 | only the start changes |
| RoomDetailsPage.BookingForm.ChooseDuration | frontendApp/src/components/RoomDetailsPage.jsx:300-309 | only the duration changes, to one of 30/60/90/120 |
| RoomDetailsPage.BookingForm.SubmitBooking | frontendApp/src/components/RoomDetailsPage.jsx:126-171 | the four checks run in order, and a failing check sets its message with nothing sent; otherwise one request is sent for the chosen interval, inside 08:00–18:00 of the selected day and exactly duration·60000 ms long; the status shows the outcome. Every request sent spans 30 min to 2 h |
| BookingsPage.UpcomingAndPastSplit | frontendApp/src/components/BookingsPage.jsx:202-212 | upcoming and past together are exactly the bookings (a multiset partition); an unparsable start counts as upcoming only |
| BookingsPage.SplitKeepsOrder | frontendApp/src/components/BookingsPage.jsx:202-212 | both lists keep the server's order |
| BookingsPage.ClampDuration | frontendApp/src/components/BookingsPage.jsx:133 | the duration lies in 30..120 and equals the span when the span is already in range |
| BookingsPage.EditDialog.constructor | frontendApp/src/components/BookingsPage.jsx:65-70 | the dialog starts closed, at 08:00 for 30 minutes, with nothing sent |
| BookingsPage.EditDialog.OpenEdit | frontendApp/src/components/BookingsPage.jsx:125-137 | opens on the booking with its day and start, the clamped duration, and a cleared status |
| BookingsPage.EditDialog.ChooseStart | frontendApp/src/components/BookingsPage.jsx:320-332 | only the start changes |
| BookingsPage.EditDialog.ChooseDuration | frontendApp/src/components/BookingsPage.jsx:336-347 | only the duration changes |
| BookingsPage.EditDialog.Close | frontendApp/src/components/BookingsPage.jsx:143-147 | the dialog closes and the status clears |
| BookingsPage.EditDialog.SaveEdit | frontendApp/src/components/BookingsPage.jsx:149-182 | no open dialog: nothing changes; an end after 18:00, then a duration over 2 h, are refused as errors; otherwise one PATCH with the two instants is sent, a failure is shown as an error and a success closes the dialog. Every update sent spans 30 min to 2 h |
| RoomsPage.BandsPartitionCapacities | frontendApp/src/components/RoomsPage.jsx:111-117 | every numeric capacity is in exactly one band; a NaN capacity is in none |
| RoomsPage.OtherFilterKeepsAll | frontendApp/src/components/RoomsPage.jsx:111-117 | any other filter value keeps all rooms, in order |
| RoomsPage.BandsSplitRooms | frontendApp/src/components/RoomsPage.jsx:111-117 | with numeric capacities the three bands together are exactly the room list |
| RoomsPage.BuildNameTable | frontendApp/src/components/RoomsPage.jsx:60-66 | the loop builds the code-to-name table |
| RoomsPage.NameTableEntries | frontendApp/src/components/RoomsPage.jsx:60-66 | a key is present iff some item has that code; its name is truthy and comes from the last such item |
| RoomsPage.ShownNameFallback | frontendApp/src/components/RoomsPage.jsx:195-199 | the line's own display name wins; otherwise the catalogue's name for its code; a line with a code or a name is never shown blank |
| SetRolePage.AdminCheckAgreesWithGate | frontendApp/src/components/SetRolePage.jsx:15 | for a string role the pages' admin check agrees with the server's admin gate |
| SetRolePage.RoleToLabel | frontendApp/src/components/SetRolePage.jsx:6-11 | a role that upper-cases to ADMIN is labelled "Admin" and one that upper-cases to USER "User", in any letter case; any other truthy role is shown as `String(role)`; a falsy role is labelled "" |
| SetRolePage.LabelKeepsRole | frontendApp/src/components/SetRolePage.jsx:6-11 | the label changes at most the letter case of the role |
| SetRolePage.LowerCaseAdminLabel | frontendApp/src/components/SetRolePage.jsx:6-11 | "admin" is labelled "Admin" |
| SetRolePage.ChoicesAreUpperCase | frontendApp/src/components/SetRolePage.jsx:189-196 | both role choices are upper case |
| SetRolePage.RoleEditor.constructor | frontendApp/src/components/SetRolePage.jsx:22-24 | closed, USER chosen, nothing sent |
| SetRolePage.RoleEditor.OpenEdit | frontendApp/src/components/SetRolePage.jsx:80-85 | one's own entry does not open; any other opens with its role upper-cased (USER when absent) |
| SetRolePage.RoleEditor.ChooseRole | frontendApp/src/components/SetRolePage.jsx:189-196 | only the chosen role changes |
| SetRolePage.RoleEditor.Close | frontendApp/src/components/SetRolePage.jsx:91-94 | the dialog closes and the message clears |
| SetRolePage.RoleEditor.SaveRole | frontendApp/src/components/SetRolePage.jsx:96-118 | own role: refused with no request; otherwise one request with the chosen role; a failure is shown, a success closes the dialog. Every role sent is upper case |

## Left out

- Concurrency: two requests racing between the clash check and the insert, and row locks and transactions, are not modelled. Each handler is one atomic step, and a rollback is "no change".
- Users.UserTable.Register: the database schema is not part of this model. Two facts are assumed about it. First, `users.email` has a unique constraint: the class invariant keeps emails unique, and a duplicate registration ends in the catch block's "invalid registration" with no insert. Without that constraint the duplicate row would be inserted and the second reply would be "User registered". Second, the `role` column defaults to "USER" (`DefaultRole`), since the INSERT at users.js gives no role.
- Schema constraints other than those two and the smallint capacity (foreign keys, cascades, NOT NULL) are not modelled. A booking with a start after its end is stored as given.
- Ids are natural numbers from a counter rather than generated uuids. The uuid cast error for a malformed path id is not modelled.
- The read-only handlers are not modelled: getAll*, getById, getBookingsByRoomId, getAllUsers. Of the booking lists only the ORDER BY and the row selection are modelled, not the joined room and equipment columns.
- The refresh handler of users.js is not modelled. bcrypt hashing and comparison, and jwt signing and verifying, are parameters.
- Users.UserTable.SetUserRole: the 500 reply for a database error is not modelled.
- Rooms.QuantityOrDefault: an explicit null quantity is treated like an absent one. In the source the default applies only to an absent quantity.
- Rooms.BuildUpdate models the query that updateRoomById2 builds; that handler is not routed, and its database outcome is not modelled.
- No router applies the token middleware. RoomDetailsPage fetches a room with GET /rooms/:id, while the rooms router serves that path only for POST. Neither wiring fact is modelled.
- The Intl formatting of times in Singapore time, `Date.parse`, `toISOString`, `Date.now` and the date picker are parameters (`dayUtcMs`, `nowMs`, parsed instants).
- Case mapping covers ASCII letters only.
- JSON values carry integers only. Parsing a body, the content-type branch, text bodies and the network catch path (`error.message || "data error"`) are left out.
- The `refreshInFlight` sharing between concurrent calls, and `setAccessToken`, are not modelled.
- React rendering, effects, the reloads after a success, the room deletion confirm and the booking deletion on BookingsPage are not modelled.
- RoomsPage.ToNumber: `Number()` of arrays, objects, signed, decimal or blank-padded strings is treated as NaN.
- RoomsPage.NameTableEntries: object-key quirks ("__proto__") and `Object.keys` ordering are not modelled.
- The client compares user ids as JSON values, so objects compare by content rather than by reference.
- The handlers' replies after the first failed send (the catch block's further attempt) are not listed.
