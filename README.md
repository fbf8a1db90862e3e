# Restaurant reservations — a Dafny model

This project models the core of a restaurant-reservation system. The system has an
Express back end over a MySQL database and a React Native client. The model covers:

- **The reservation store** (`Reservations`): create, list, update and delete over an
  in-memory reservations table. Each operation works for the caller whose identity the
  routers' token middleware bound from the bearer token. That middleware,
  `backend/middleware/authenticateJWT`, is not part of this model; it is taken to decide as
  the server's own gate `Server.Authenticate` does.
- **The user accounts** (`Users`): profile read and update, password change,
  registration and login over an in-memory users table. bcrypt and `jwt.sign` are
  abstract (`Crypto`).
- **The request gate and the credentials route** (`Server`): the `authenticateJWT` of
  `server.js`, which guards GET /api/user/credentials/:userId, as a decision function
  plus a small request/response object whose `user` and `next()` count it updates.
- **The restaurant catalog** (`Catalog`): the listing that derives each photo path, and
  the name search.
- **The client screens**:
  - `ReserveScreen`: the reservation form's checks, its payload and edit pre-fill.
  - `Home`: the restaurant filter, the carousel index, the pagination dots and the local
    reservation lists.
  - `ProfileScreen`: profile editing and the change-password form.
  - `RegisterScreen`: the registration form.

Shared pieces:

- `Common` holds `Option`, the route reply `Reply` (a status with a value or a message)
  and `Delivery`, the outcome of a client request.
- `Strings` holds the string operations the code relies on: `parseInt`, `toString`,
  `split('T')[0]`, `slice`, `replace`, `includes`, ASCII `toLowerCase` and the
  lexicographic order of date strings.
- `Seqs` holds the order-preserving filter that stands for `Array.prototype.filter` and
  for SQL `WHERE` selections.

The modelling conventions:

- Tables that routes change in place are the classes `ReservationTable` and `UserTable`,
  with `seq` fields. A route that changes a table is a method whose `ensures` give the
  reply and the whole new table for every outcome. Read-only routes are functions.
- An absent or null field of a JSON body is its falsy value: `""` for strings, `0` for
  numbers. Where a library call throws on `undefined` before the route's own checks
  (bcrypt, the database driver's bind values), the route answers 500 instead; those
  cases are listed under "## Left out". An absent query parameter is the text
  "undefined", as a template literal writes it.
- `parseInt` accepts an optional `-` followed by digits. Any other string parses to no
  number.
- A bcrypt hash is an ideal digest that remembers its password, so `compare` succeeds
  exactly for that password. The random salt is a parameter.
- `jwt.verify` is a parameter `verify(token, key)` that returns the decoded claims or
  nothing. Login signs with, and the gate verifies under, the same key
  `Crypto.SigningSecret(env)`, where `env` is the value of `JWT_SECRET`.
- "Today" is a parameter, and dates are compared as strings, as `YYYY-MM-DD` keys order.
- The restaurant join of the listing is a map from restaurant id to name.
- A client handler that awaits a request is split in two:
  - the synchronous checks and the request they send;
  - the state change once the answer (`Delivery`) arrives.

  Where no intermediate state is observable, the handler is one method that receives
  the answer. `Delivered(ok, message)` carries the reply's `ok` flag and the message
  field the handler reads. `Garbled` is a body that is not JSON. `Unreachable` is a
  failed `fetch`.

Three behaviours of the code that a reader might not expect, which the model keeps:

- **Login failures.** Login tells an unknown email from a wrong password by its message:
  "User not found" for the first and "Invalid credentials" for the second, both with
  status 400. `Users.Login` states both messages.
- **Change-password order.** The route checks the length of the new password before it
  looks the user up and compares the current password. `UserTable.ChangePassword` keeps
  that order: 400s first, then 404, then 401.
- **Update.** PUT /reservations/:id performs no duplicate-slot check and no date or time
  format check. `Reservations.UpdateMayDuplicate` shows an owner's update putting two
  rows in one slot.

## Model

| member | source | states |
|---|---|---|
| Reservations.DateKey | backend/routes/reservations.js:21 | the date key is the prefix of `reservation_date` before its first 'T' (the whole string when it has none) and holds no 'T' |
| Reservations.HasAllFields | backend/routes/reservations.js:12 | a body passes exactly when neither number is 0 and no string is empty, the falsy values of `!field` |
| Reservations.NewRecord | backend/routes/reservations.js:29-34 | the inserted row has the new id and the caller as owner, and stores the date key: a prefix of the sent date with no 'T', which splitting leaves as it is |
| Reservations.OwnerFromToken | backend/routes/reservations.js:29-34 | the owner of a created row is the token's user id, whatever the body holds |
| Reservations.SlotTaken | backend/routes/reservations.js:19-20 | an empty table has no taken slot; a slot is taken exactly when some position of the table holds a row with that user, restaurant, date and time |
| Reservations.SlotQuery | backend/routes/reservations.js:18-22 | the duplicate query finds rows exactly when a row of this user, restaurant, date key and time exists |
| Reservations.AppendFreeSlot | backend/routes/reservations.js:24-34 | appending a row whose slot is free keeps every slot held by at most one row |
| Reservations.ReservationTable.Create | backend/routes/reservations.js:7-42 | any falsy field (a party of 0 included) gives 400 with the table unchanged; a taken slot gives 409 with nothing inserted; otherwise 201 with the new id and exactly the row `NewRecord(id, caller, body)` appended; a table without duplicate slots never gains one |
| Reservations.FindById | backend/routes/reservations.js:96 | the lookup returns a row with that id exactly when the table has one |
| Reservations.UpdateWhere | backend/routes/reservations.js:107-112 | the row with the id takes the body's date key, time, count, name and restaurant and keeps its id and owner; every other row is untouched |
| Reservations.ReservationTable.Update | backend/routes/reservations.js:84-119 | a missing field gives 400, an absent id 404, another owner's row 403, each with the table unchanged and in that order; the owner's update replaces only that row's fields (`UpdateWhere`) and keeps ids distinct |
| Reservations.UpdateMayDuplicate | backend/routes/reservations.js:107-112 | an owner's update that moves one row onto the slot of another of their rows leaves two rows in one slot |
| Reservations.DeleteWhere | backend/routes/reservations.js:140 | the rows left are exactly the rows without that id |
| Reservations.DeleteRemovesOne | backend/routes/reservations.js:140 | deleting a present id from a table with distinct ids removes exactly one row, and the rows left are exactly the others |
| Reservations.ReservationTable.Delete | backend/routes/reservations.js:121-147 | an absent id gives 404 and another owner's row 403, both with the table unchanged; the owner's delete removes exactly the rows with that id and keeps the order of the rest |
| Reservations.FilterKeepsUniqueIds | backend/routes/reservations.js:140 | removing rows from a table with distinct ids keeps them distinct |
| Reservations.Joined | backend/routes/reservations.js:58-62 | the joined listing holds exactly the caller's rows whose restaurant has a name, each with that name |
| Reservations.InOrderTransitive | backend/routes/reservations.js:63 | the date order of listed rows is transitive in both directions |
| Reservations.Insert | backend/routes/reservations.js:63 | inserting into a date-sorted list keeps it sorted and adds exactly the one element |
| Reservations.SortByDate | backend/routes/reservations.js:63 | `ORDER BY reservation_date` yields a sorted permutation of its input, ascending or descending |
| Reservations.SplitByDate | backend/routes/reservations.js:55-75 | current holds exactly the rows dated today or later, ascending; past holds the others, descending; together they are a permutation of the input |
| Reservations.Upcoming | backend/routes/reservations.js:62 | a row dated today is upcoming; a row that is not upcoming is dated strictly before today, as `reservation_date < ?` selects it at line 72 |
| Reservations.ListForUser | backend/routes/reservations.js:44-82 | 403 unless the path id parses to the caller's id; otherwise 200 with the caller's joined rows split at today |
| Reservations.ListingPartition | backend/routes/reservations.js:58-75 | a listed row is current exactly when its date is today or later, past exactly when it is earlier, and never both |
| Reservations.ListingOwnRowsOnly | backend/routes/reservations.js:62 | every listed row, current or past, is one of the caller's own rows |
| Users.FindUser | backend/routes/userRoutes.js:18 | the lookup by id returns a row with that id, or nothing only when no row has it |
| Users.FindByEmail | backend/routes/userRoutes.js:139 | the lookup by email returns a row with that email, or nothing only when no row has it |
| Users.FindByUniqueEmail | backend/routes/userRoutes.js:139 | with distinct emails the lookup returns the one row that has the email |
| Users.GetProfile | backend/routes/userRoutes.js:10-33 | 403 unless the path id parses to the caller's id; 404 when no row has it; otherwise 200 with that row's name, email and id, and 200 whenever such a row exists |
| Users.RenameWhere | backend/routes/userRoutes.js:49 | only the caller's row changes, and only its name and email |
| Users.EmailUsedByOther | backend/routes/userRoutes.js:44 | the email is free for the caller exactly when every row holding it is the caller's own; a used email is found by the lookup by email |
| Users.UserTable.UpdateProfile | backend/routes/userRoutes.js:35-56 | an empty username or email gives 400 with no write; an email held by another user gives 400 with no write, while keeping one's own email is allowed; otherwise 200 and only the caller's name and email change; ids and emails stay distinct |
| Users.SetPasswordWhere | backend/routes/userRoutes.js:86-87 | only the caller's row changes, and only its password hash |
| Users.UserTable.ChangePassword | backend/routes/userRoutes.js:59-94 | missing fields give 400, then a new password under 6 characters gives 400, both before any lookup, then 404 for no row, then 401 for a wrong current password, each with the table unchanged; on success the stored hash becomes the hash of the new password |
| Users.PasswordChangeTakesEffect | backend/routes/userRoutes.js:80-87 | after a password change, login with the caller's email succeeds exactly for the new password |
| Users.UserTable.Register | backend/routes/userRoutes.js:107-132 | an email already present gives 400 with nothing inserted; otherwise 201 and exactly one user appended, holding the hash of the password; emails stay distinct |
| Users.Login | backend/routes/userRoutes.js:134-171 | an unknown email gives 400 "User not found"; a wrong password for a known email gives 400 "Invalid credentials"; success gives a token over the row's id and email, signed with the `JWT_SECRET` key or its fallback, plus its name and id |
| Users.LoginSucceedsIff | backend/routes/userRoutes.js:146-151 | with distinct emails, login succeeds exactly when the password matches the stored hash |
| Users.RegisterThenLogin | backend/routes/userRoutes.js:123-166 | a newly registered account logs in with its password and gets a token of its own id and email |
| Crypto.Hash | backend/routes/userRoutes.js:86 | a hash has cost factor 10 and its salt, and `compare` accepts the password it was made from |
| Crypto.Compare | backend/routes/userRoutes.js:80 | `compare` accepts a password only against a hash made from that password |
| Crypto.Sign | backend/routes/userRoutes.js:153-157 | the token carries the claims, is bound to the key and expires after one hour |
| Crypto.CompareHash | backend/routes/userRoutes.js:80 | `compare` accepts a password against the hash of the same password, and only that password |
| Crypto.SigningSecret | backend/server.js:26 | the signing key is `JWT_SECRET` when set and non-empty, otherwise the fallback key; it is never empty |
| Server.ExtractToken | backend/server.js:21 | a request without the header has no token; otherwise the token is the header with at most the prefix removed, never longer than the header |
| Server.ExtractBearer | backend/server.js:21 | the header `Bearer ${token}` yields the token back |
| Server.ExtractShape | backend/server.js:21 | a header without "Bearer " is the token unchanged; one with it loses exactly seven characters |
| Server.Authenticate | backend/server.js:20-33 | no header, or an empty token after stripping, gives 403; otherwise admission happens exactly when the token verifies, with the verified claims, and every rejection is 403 |
| Server.BearerAdmitted | backend/server.js:20-33 | a client's `Bearer ${token}` header with a non-empty token is admitted exactly when the token verifies |
| Server.Exchange.Gate | backend/server.js:20-33 | a rejection sends 403 and leaves `req.user` and the `next()` count unchanged; an admission sets `req.user` to the decoded claims and calls `next()` exactly once |
| Server.LoginKeyIsGateKey | backend/server.js:26 | a token issued by login is signed with the key the gate verifies under, and carries the email that logged in |
| Server.LoginTokenAdmitted | backend/server.js:20-33 | when `jwt.verify` gives back the claims of any token under the key that signed it, the `Bearer` header built from a login token is admitted as the user id and email that logged in |
| Server.CredentialsFor | backend/server.js:35-57 | 403 unless the path id parses to the caller's id; 500 when the query fails; 404 when no row has the id; otherwise 200 with that row's name, email and hash |
| Catalog.WithImages | backend/routes/restaurants.js:8-11 | the output has the rows' length and order, keeps every field of each row, and gives each the image "/images/" followed by its photographs value |
| Catalog.ImageNamesPhoto | backend/routes/restaurants.js:10 | each image path is "/images/" followed by the photographs value, which can be read back from it |
| Catalog.ListRestaurants | backend/routes/restaurants.js:4-18 | a failed query gives 500 and no list; otherwise 200 with one entry per row, in order |
| Catalog.Search | backend/routes/userRoutes.js:96-105 | a failed query gives 500; otherwise 200 with exactly the rows whose name contains the term, where an absent `name` parameter searches for "undefined" |
| Catalog.SearchEmptyTerm | backend/routes/userRoutes.js:99 | an empty term, `?name=`, returns every row in table order |
| Strings.ParseInt | backend/routes/reservations.js:50 | only a non-empty string of digits after an optional first character parses; a negative result needs a leading '-'; a string of digits gives its value |
| Strings.ParseIntRoundTrip | backend/routes/reservations.js:50 | `parseInt` of a rendered integer gives that integer back |
| Strings.IntToString | app/ReserveScreen.js:47-49 | `toString` of an integer is non-empty, all digits for a non-negative one and a `-` before digits for a negative one; `ParseIntRoundTrip` reads it back |
| Strings.NatToStringValue | app/ReserveScreen.js:47 | rendering a natural number gives digits whose value is the number |
| Strings.LexLe | backend/routes/reservations.js:62 | the date comparison: a string on or before another starts with a character no greater; a smaller first character, or being a prefix, puts it first |
| Strings.LexTotal | backend/routes/reservations.js:62 | any two date strings are ordered one way or the other, so each row falls on one side of today |
| Strings.LexTransitive | backend/routes/reservations.js:63 | the string order of dates is transitive |
| Strings.LexReflexive | backend/routes/reservations.js:62 | a date is on or after itself, so a reservation dated today is current |
| Strings.LexAntisymmetric | backend/routes/reservations.js:62-72 | two dates each on or before the other are equal, so no row is both after and before today |
| Strings.LowerChar | app/Home.js:105 | a lower-cased character is never an upper-case letter; it is a letter exactly when the input was one; anything but an upper-case letter is unchanged |
| Strings.Lower | app/Home.js:105 | ASCII `toLowerCase` maps each character and keeps the length |
| Strings.LowerIdempotent | app/Home.js:105 | lower-casing twice is lower-casing once |
| Strings.IndexFrom | backend/server.js:21 | the search returns the first occurrence at or after its start, and nothing only when there is none |
| Strings.IndexOf | app/Home.js:105 | the search returns the first occurrence, and nothing only when the pattern does not occur |
| Strings.Contains | app/Home.js:105 | `includes` holds exactly when the pattern occurs at some position |
| Strings.ContainsEmpty | app/Home.js:105 | every string contains the empty string |
| Strings.RemoveFirst | backend/server.js:21 | `replace(p, "")` leaves the string as it is or removes exactly the pattern's length; `RemoveFirstShape` says where |
| Strings.RemoveFirstPrefix | backend/server.js:21 | removing the first occurrence of a prefix gives back what follows it |
| Strings.RemoveFirstShape | backend/server.js:21 | a string is unchanged when the pattern is absent, and otherwise loses exactly the pattern's length |
| Strings.BeforeFirst | backend/routes/reservations.js:21 | the part before the first separator is a prefix without the separator, followed by it whenever it is shorter than the string |
| Strings.BeforeFirstJoin | app/ReserveScreen.js:45 | splitting `a + c + b` at `c`, where `a` lacks `c`, gives `a` |
| Strings.BeforeFirstAbsent | app/ReserveScreen.js:45 | a string without the separator is returned whole |
| Strings.Take | app/ReserveScreen.js:46 | `slice(0, n)` gives the first n characters, or the whole string when it is shorter |
| Seqs.Filter | app/Home.js:104-106 | the filter keeps exactly the elements that satisfy the predicate, each taken from the input |
| Seqs.FilterCons | app/Home.js:200 | filtering a sequence keeps or drops its first element and filters the rest |
| Seqs.FilterConcat | app/Home.js:104-106 | filtering works piecewise over a concatenation, so kept elements keep their order |
| Seqs.FilterKeepsAll | app/Home.js:104-106 | a filter that rejects nothing returns its input |
| Seqs.FilterAgree | app/Home.js:104-106 | two predicates that agree on the input select the same elements |
| Seqs.FilterCutsOut | app/Home.js:199-201 | a filter that rejects only the element at position k gives the sequence with that element cut out |
| Seqs.FilterKeepsSlice | app/Home.js:199-201 | a stretch whose every element passes the filter is kept whole |
| Seqs.FilterSplit | backend/routes/reservations.js:62-72 | a predicate and its negation split a sequence into two parts that together are a permutation of it |
| ReserveScreen.MatchesPointwise | app/ReserveScreen.js:69-70 | an anchored pattern without repetition matches exactly the strings of its length that match position by position |
| ReserveScreen.DateShapeIff | app/ReserveScreen.js:69-75 | a date is accepted exactly when it has 10 characters with digits at 0-3, 5-6 and 8-9 and '-' at 4 and 7 |
| ReserveScreen.TimeShapeIff | app/ReserveScreen.js:70-80 | a time is accepted exactly when it has 5 characters with digits at 0, 1, 3 and 4 and ':' at 2 |
| ReserveScreen.RangesNotChecked | app/ReserveScreen.js:69-80 | "2024-13-40" and "25:99" pass both shape checks |
| ReserveScreen.FormError | app/ReserveScreen.js:64-80 | a failing form gets one of the three messages: fill in all fields, bad date or bad time |
| ReserveScreen.FormErrorOrder | app/ReserveScreen.js:64-80 | any empty field gives "Please fill in all fields"; otherwise a bad date gives the date message, then a bad time the time message; the form passes exactly when all fields are filled and both shapes hold |
| ReserveScreen.Payload | app/ReserveScreen.js:85-92 | `reservation_date` is date + "T" + time + ":00.000Z" and `reservation_time` is time + ":00" |
| ReserveScreen.CombinedDateTime | app/ReserveScreen.js:85 | the sent timestamp begins with the date and is nine characters longer than date and time together; a date without 'T' is what the server's `split('T')[0]` gives back |
| ReserveScreen.AcceptedFormHasAllFields | app/ReserveScreen.js:64-92 | an accepted form whose count and restaurant parse to non-zero numbers passes the server's required-field check |
| ReserveScreen.UnparsedCountRefused | app/ReserveScreen.js:90 | a party size that does not parse, or parses to 0, gets past the form but fails the server's required-field check |
| ReserveScreen.PayloadRoundTrip | app/ReserveScreen.js:85-89 | for an accepted date and time, the server's date key of the payload is the date, and the first five characters of the sent time are the time |
| ReserveScreen.EditRoundTrip | app/ReserveScreen.js:41-58 | a reservation created from an accepted form, listed and opened for editing, fills the form with its original date, time and name, and with a count and restaurant that parse to what the form sent |
| ReserveScreen.NumberField | app/ReserveScreen.js:87-90 | a field that parses sends its number; one that does not sends NaN, which reaches the server as null and reads as 0 |
| ReserveScreen.NumberFieldRoundTrip | app/ReserveScreen.js:47-49 | a number rendered into the form with `toString` is sent back as the same number |
| ReserveScreen.PrefillDate | app/ReserveScreen.js:45 | the edit date is a prefix of the stored date and holds no 'T' |
| ReserveScreen.PrefillTime | app/ReserveScreen.js:46 | the edit time is the first five characters of the stored time, or all of it when shorter |
| ReserveScreen.SubmissionFor | app/ReserveScreen.js:101-104 | the request is a PUT to the reservation's id exactly when editing with a truthy id, otherwise a POST, carrying the payload |
| ReserveScreen.ReserveForm.constructor | app/ReserveScreen.js:8-17 | the screen starts with every field and the message empty, not processing, not editing and no id to edit |
| ReserveScreen.ReserveForm.Load | app/ReserveScreen.js:28-61 | with a reservation the form enters edit mode with its id and its date before 'T', time cut to five characters, count, name and restaurant; without one the fields are empty except the route's restaurant id |
| ReserveScreen.ReserveForm.Submit | app/ReserveScreen.js:63-113 | a failing check shows its message and sends nothing; a passing form while processing sends nothing; a missing or empty stored token shows "No JWT token found" and ends processing with nothing sent; otherwise processing starts and the PUT or POST with the payload is sent; no form field changes |
| ReserveScreen.FailureMessage | app/ReserveScreen.js:137 | a refusal's message starts with "❌ Reservation Failed: " and continues with the server's message, or with "An error occurred." when it sent none |
| ReserveScreen.ReserveForm.Finish | app/ReserveScreen.js:106-151 | once the request was sent: success shows "updated" or "created" by edit mode and clears the form and edit mode; a refusal shows the server's message or the default; a garbled reply or a failed fetch shows its message; processing always ends |
| Home.FilteredRestaurants | app/Home.js:104-106 | the filter keeps exactly the restaurants whose lower-cased name contains the lower-cased query |
| Home.FilteredInOrder | app/Home.js:104-106 | the restaurants kept stay in the server's order |
| Home.EmptyQueryKeepsAll | app/Home.js:104-106 | an empty query keeps every restaurant |
| Home.QueryCaseIgnored | app/Home.js:105 | the case of the query does not change what is kept |
| Home.RunBelow | app/Home.js:301-305 | keeping the slots below the count from a run of slot indices leaves a shorter run |
| Home.Dots | app/Home.js:301-315 | there are min(3, count) slots from max(0, currentIndex - 1), cut at the count; each dot's index is that start plus its position, and lies below the count |
| Home.DotsWindow | app/Home.js:301-315 | at most min(3, count) dots; a dot is active exactly when it is the current index, and an in-range index always has its dot |
| Home.LastPageShowsTwo | app/Home.js:301-315 | on the last of three or more restaurants only two dots are rendered |
| Home.WithDate | app/Home.js:55-56 | each fetched reservation keeps all its fields and gains `date` equal to `reservation_date` |
| Home.WithoutId | app/Home.js:199-201 | removing an id never lengthens the list |
| Home.WithoutIdMembers | app/Home.js:199-201 | the upcoming list keeps exactly the items with another id |
| Home.WithoutIdCutsOut | app/Home.js:199-201 | when only the item at position k has the id, removal cuts out exactly that item, and the others keep their order |
| Home.HomeScreen.constructor | app/Home.js:14-22 | the screen starts with no restaurants or reservations, an empty query, index 0, no error and loading on |
| Home.HomeScreen.GoToPrevious | app/Home.js:150-158 | the index goes down by one only when it is above 0, and an in-range index stays in range; nothing else changes |
| Home.HomeScreen.GoToNext | app/Home.js:159-167 | the index goes up by one only when it is below the number of shown restaurants minus one, and an in-range index stays in range; nothing else changes |
| Home.HomeScreen.SetSearchQuery | app/Home.js:271 | typing changes only the query and leaves the carousel index where it was |
| Home.HomeScreen.ShowRestaurants | app/Home.js:67-88 | a received list replaces the restaurants and clears the error; a refusal or a failed fetch sets its message; loading ends |
| Home.HomeScreen.ShowReservations | app/Home.js:37-65 | without a stored id and token nothing changes; a received listing replaces both lists with the records plus `date`; a refusal or failed fetch sets its message and keeps the lists |
| Home.HomeScreen.DeleteConfirmed | app/Home.js:181-216 | after a successful delete the upcoming list drops the items with that id and the item is put at the head of the past list; without a token or on failure both lists stay as they are |
| ProfileScreen.OrElse | app/ProfileScreen.js:51 | `message || fallback` is one of the two, is the message whenever that is non-empty, and is empty only when both are; the same fallback serves lines 105, 110, 167 and 171 |
| ProfileScreen.PasswordFormError | app/ProfileScreen.js:135-149 | any empty field gives 'All password fields are required.', then a mismatch gives 'New passwords do not match.', then a short password the length message; the form passes exactly when every check holds |
| ProfileScreen.AcceptedPasswordPassesServerChecks | app/ProfileScreen.js:135-149 | a password the form accepts also passes the route's required-field and length checks |
| ProfileScreen.ProfileState.constructor | app/ProfileScreen.js:8-23 | the screen starts with every text field empty, loading on, and editing, the password form and its loading off |
| ProfileScreen.ProfileState.LoadProfile | app/ProfileScreen.js:25-59 | without token or stored id the authentication message; a received profile fills the saved and edit fields and clears the error; a refusal or failed fetch sets its message; loading ends; every other field, the password form included, is unchanged |
| ProfileScreen.ProfileState.EditProfile | app/ProfileScreen.js:69-71 | editing turns on and every other field is unchanged |
| ProfileScreen.ProfileState.CancelEditProfile | app/ProfileScreen.js:73-79 | editing turns off, the edit fields go back to the saved username and email, and both messages are cleared; the saved values, loading and the password form are unchanged |
| ProfileScreen.ProfileState.SaveProfile | app/ProfileScreen.js:80-118 | without a token nothing is sent and the authentication message shows; otherwise the edited username and email are sent; success makes them the saved values and turns editing off; a refusal or failed fetch sets its message and keeps the saved values; loading ends; the password form and the user id are unchanged |
| ProfileScreen.ProfileState.OpenChangePassword | app/ProfileScreen.js:119-126 | the password form opens with all three fields and both messages empty; its loading flag and every profile field are unchanged |
| ProfileScreen.ProfileState.CancelChangePassword | app/ProfileScreen.js:127-129 | the password form closes; its fields, messages and loading flag and every profile field are unchanged |
| ProfileScreen.ProfileState.ChangePassword | app/ProfileScreen.js:130-179 | a failing check shows its message and sends nothing; then a missing token does the same; success shows the server's message or the default and closes the form; a refusal or failed fetch shows its message; loading always ends; every profile field is unchanged |
| RegisterScreen.RegisterFormError | app/RegisterScreen.js:16-32 | any empty field gives "All fields are required!", then a mismatch "Passwords do not match!", then a short password the length message; the form passes exactly when every check holds |
| RegisterScreen.RegisteredPasswordLongEnough | app/RegisterScreen.js:28-32 | an accepted password is non-empty and at least as long as the route's minimum for a new password |
| RegisterScreen.RegisterForm.constructor | app/RegisterScreen.js:6-12 | the form starts with every field and both messages empty and loading off |
| RegisterScreen.RegisterForm.Submit | app/RegisterScreen.js:14-45 | a failing check sets its error, clears the success message and sends nothing; a passing form clears both messages, sets loading and sends name, email and password |
| RegisterScreen.RegisterForm.Finish | app/RegisterScreen.js:46-68 | success shows the account-created message; a refusal shows the reply's error or the default; a garbled reply or failed fetch shows the connection message; loading ends |

## Left out

- I/O is outside the model: `fetch`, `AsyncStorage`, `Alert`, `setTimeout` and navigation. Answers and stored values are parameters. The timers that clear messages after 3 seconds, and the navigation after a successful reservation or registration, are not modelled.
- The SQL engine and connection pool are left out. Tables are in memory, and the typed columns are strings and integers. Failed queries (500) are modelled only for the catalog, the search and the credentials route. The 500 replies of the reservation and user routes are left out because they carry no state change.
- The reservation date column is a MySQL `DATE`, which the driver returns to the client as a timestamp string. The model stores and lists the date key itself, without time zones.
- MySQL's case-insensitive string comparison is left out. Matches on email and name are case-sensitive.
- `LIKE` wildcards inside the search term are left out. The search is plain substring containment.
- Concurrency is left out: the check-then-insert race of create, and races between screens.
- The server's clock is left out. "Today" is a parameter.
- Unicode case mapping is left out. `toLowerCase` is ASCII.
- `parseInt` quirks such as leading-digit prefixes ("12abc") are left out. Such inputs parse to no number.
- bcrypt and JWT internals are left out: the hash, salt cost, signatures and expiry are abstract. `jwt.verify` is a parameter.
- `backend/middleware/authenticateJWT`, the middleware the reservation and user routers import, is not part of this model. Those routes take the caller's id as the server's own gate `Server.Authenticate` would bind it.
- Users.UserTable.ChangePassword: the length check counts characters, while JavaScript's `.length` counts UTF-16 code units, so a new password with characters outside the Basic Multilingual Plane measures shorter here than in the route.
- ProfileScreen.PasswordFormError: the length check counts characters, not the UTF-16 code units JavaScript's `.length` counts, so passwords with characters outside the Basic Multilingual Plane measure shorter here.
- RegisterScreen.RegisterFormError: the length check counts characters, not the UTF-16 code units JavaScript's `.length` counts, so passwords with characters outside the Basic Multilingual Plane measure shorter here.
- Users.UserTable.Register: a body without a password, name or email is read as `""` and answers 201 (or 400 for a used email). The route answers 500 instead: `bcrypt.hash` rejects a missing password before the email check, and the mysql2 driver refuses an `undefined` bind value for a missing email at the lookup of line 117 or a missing name at the insert of line 123.
- Users.Login: a body without a password is read as `""` and answers 400 "Invalid credentials" for a known email. The route answers 500, because `bcrypt.compare(undefined, hash)` rejects and the catch at lines 167-170 replies. A body without an email is read as `""` and answers 400 "User not found", where the driver's refusal of the `undefined` bind value at line 139 gives 500.
- `Server.CredentialsFor` reads the users table's `name` column. The route selects a `username` column, which the other queries do not use, so its result is modelled on the schema those queries use.
- `ReserveScreen.ReserveForm.Load` is not modelled when reading the stored user id fails. A failed read leaves the user id unchanged.
- `Home.HomeScreen.DeleteConfirmed` leaves out the refetch after a failure. That refetch is modelled separately as `ShowReservations`.
- The carousel's `onMomentumScrollEnd` index is floating-point division of a scroll offset by a width, and is left out.
- Rendering, styles and navigation are left out. This covers the JSX of every screen, `App.js`, About and Contact.
- The login screen, the legacy plaintext `userController` and the `userService` pool wrappers are not part of this model.
