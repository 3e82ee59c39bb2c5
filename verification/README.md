# BusConnect in Dafny

BusConnect is a small web application for a bus: passengers check in at a
stop, drivers see who has checked in, vendors sell snacks, and everybody can
chat. This project models its record and list logic and proves what each
step does to that state:

- the view component in its two copies (`frontend/src/App.js`, and the
  earlier `src/App.js`) as the classes `FrontendApp.App` and `RootApp.App`,
  whose fields are the component's state hooks. Each handler is a method
  that replaces fields with values computed by pure functions:
  - the shopping cart (`Cart`);
  - the user list, chat map, check-in list and screen filters (`ClientLists`);
  - the records a handler stores (`ClientSteps`);
  - the form guards (`Forms`);
  - the string-tag screen dispatch (`Views`);
- the Express routes over the database tables (`backend/routes/*.js`): each
  table is a class holding its rows and its SERIAL id counter
  (`UsersRoute`, `CheckinsRoute`, `MessagesRoute`, `ProductsRoute`);
- the stateless mock API of `backend/server.js` as pure record builders
  (`MockServer`).

Supporting modules: `Seqs` (generic filter, map, replace-by-key and sort),
`Text` (JavaScript `trim`, `split` and `||` on strings), `Bcrypt` (a stand-in
for bcryptjs), `Http` (a response or an error status), `Wrappers` (Option)
and `ClientModel` (the client's records).

Everything outside the program is a parameter:

- the clock (`now`, an ISO or local time text);
- the bcrypt salt;
- the answer of a `prompt`;
- what a call into the API layer came to. `Reply<T>` is `Offline` when the
  backend is unreachable and no call is made, `Saved(value)` for the
  server's answer, or `Failed` when the call threw.

The routes are written against a SQLite-style schema: the column names
`password` and `vendor`, the `result.id` of an insert, and the
`UNIQUE constraint failed` message. The model follows the routes, not the
PostgreSQL DDL in `backend/database.js`, which names those columns
`password_hash` and `vendor_id`. The two UNIQUE columns of users (username
and email) are kept.

## Model

| member | source | states |
|---|---|---|
| Cart.AddToCart | frontend/src/App.js:228-240 | an item with the product's id gets exactly one more unit and nothing else changes (same length); otherwise the product is appended with quantity 1; a well-formed cart stays well-formed |
| Cart.RemoveFromCart | frontend/src/App.js:243-245 | no item with that id remains; the result is an order-preserving subsequence; every other item keeps its multiplicity; well-formedness is kept |
| Cart.UpdateQuantity | frontend/src/App.js:247-257 | a quantity below 1 is exactly removeFromCart; otherwise only the items with that id get the new quantity, at the same positions; well-formedness is kept |
| Cart.HandlersKeepCartWellFormed | frontend/src/App.js:228-257 | from the empty cart, any sequence of add, remove and update-quantity steps leaves unique ids and every quantity at least 1 |
| Cart.ApplyAllKeepsWellFormed | src/App.js:232-261 | the same for any well-formed starting cart, under the root copy's identical handlers |
| Cart.AddCountsOneUnit | frontend/src/App.js:228-240 | in a well-formed cart, adding a product raises its total quantity by exactly one and leaves every other product's total unchanged (duplicates are merged) |
| Cart.SubsequenceWellFormed | frontend/src/App.js:243-245 | any order-preserving subsequence of a well-formed cart is well-formed |
| ClientLists.MarkOffline | src/App.js:115-118 | same length and ids; the entries with the user's id get online false, every other entry is unchanged |
| ClientLists.UpsertOnline | src/App.js:144-153 | a listed id: same length, only entries with that id are set online; an unlisted id: the user is appended, online |
| ClientLists.UpsertLeavesOneOnlineEntry | src/App.js:144-153 | with unique ids before, ids stay unique, the user's id is listed, and its entry is online |
| ClientLists.AppendMessage | src/App.js:290-293 | the key set gains the chat key; that chat's history is the old one (or empty) plus the message at the end; every other chat is unchanged |
| ClientLists.AppendOnly | src/App.js:290-293 | every earlier history is a prefix of the new one, which grows by one for the chat key and by none elsewhere |
| ClientLists.ReplaceCheckin | src/App.js:350 | the new check-in is last and is the only entry of its passenger; the other entries form an order-preserving subsequence of the old list, and other passengers' entries keep their multiplicity |
| ClientLists.ChatTargets | src/App.js:677-679 | exactly the users of the target role other than oneself, as an order-preserving subsequence, each with its multiplicity |
| ClientLists.InCategory | src/App.js:733-735 | 'All' gives the whole list; any other category gives exactly its products, as an order-preserving subsequence |
| ClientSteps.FindUser | src/App.js:630 | None exactly when no user has the id; otherwise the first user with that id |
| ClientSteps.StoredProduct | frontend/src/App.js:181-196 | None exactly when the call threw; otherwise the draft's name, price and image, the vendor, category 'General', the description naming the vendor, and the server's id and time or the clock id |
| ClientSteps.StoredCheckin | frontend/src/App.js:326-339 | None exactly when the call threw; otherwise the user's id and name and the location, with the server's id and timestamp or the clock id and local time |
| ClientSteps.SentMessage | frontend/src/App.js:279-285 | the text, sender 'user', the sender's name, and the clock as id and timestamp |
| ClientSteps.CheckInOutcome | frontend/src/App.js:319-343 | handleCheckIn's decision: a call that threw gives no new list; its full meaning is stated by ClientSteps.CheckInOutcomeMeaning |
| ClientSteps.CheckInOutcomeMeaning | frontend/src/App.js:319-343 | no change exactly when the location is blank or the call threw; otherwise the list with the user's old check-ins replaced by the stored one |
| Forms.SignupCheck | frontend/src/App.js:419-432 | accepts exactly when every field is non-empty, the passwords match and the password has at least 6 characters; a mismatch or short-password alert implies that fault |
| Forms.LoginCheck | frontend/src/App.js:411-414 | accepts exactly when email and password are non-empty |
| Forms.RootAuthCheck | src/App.js:367-370 | accepts exactly when name, password and role are non-empty |
| Forms.DraftCheck | frontend/src/App.js:176-179 | accepts exactly when name, price and image are all filled in |
| Forms.ConstructorPassesAsWritten | frontend/src/App.js:911-914 | the answer "constructor" passes the checkout guard as written, yet names no payment method |
| Forms.PaymentAcceptedAsWritten | frontend/src/App.js:911-914 | the truthy lookup as written accepts every answer the intended check accepts, every inherited property name, and nothing else; Forms.ConstructorPassesAsWritten exhibits the difference |
| Forms.PaymentAccepted | frontend/src/App.js:911-914 | the intended checkout guard that both Checkout methods use: accepts exactly the answers '1', '2' and '3' |
| Forms.PaymentMethod | frontend/src/App.js:911-914 | a payment method is found exactly for the answers '1', '2' and '3' |
| Views.FrontendScreen | frontend/src/App.js:1090-1118 | 'welcome' shows the welcome screen; on any other view the frontend copy shows what the root copy shows unless it falls back to Welcome; the tag cases are stated by Views.NamedTags, Views.SelectionTagRoundTrip, Views.ChatTagRoundTrip, Views.DashboardTag, Views.NoUserShowsAuth and Views.UnnamedViewShowsDashboard |
| Views.RootScreen | src/App.js:992-1018 | the root copy never shows a welcome screen, and shows the login form to nobody logged in; the tag cases are stated by the same lemmas, Views.NamedTags among them |
| Views.Dashboard | frontend/src/App.js:1104-1115 | 'driver', 'passenger' and 'vendor' each show their own dashboard; any other role shows the fallback screen |
| Views.SelectionTagRoundTrip | frontend/src/App.js:1100-1101 | in both copies, 'user-selection-R' shows the selection screen for the first '-' piece of R, which is R itself in both copies when R has no '-' |
| Views.ChatTagRoundTrip | frontend/src/App.js:1102-1103 | in both copies, 'chat-T' shows the chat screen for the first '-' piece of T, which is T itself in both copies when T has no '-' |
| Views.SelectionPieces | frontend/src/App.js:1101 | 'user-selection-' followed by R splits on '-' into 'user', 'selection', then the pieces of R |
| Views.ChatPieces | frontend/src/App.js:1103 | 'chat-' followed by T splits on '-' into 'chat', then the pieces of T |
| Views.DashboardTag | src/App.js:1004-1017 | the 'dashboard' tag shows the role's dashboard; an unknown role shows Welcome in the frontend copy and the login form in the root copy |
| Views.NamedTags | frontend/src/App.js:1090-1099 | with a user logged in, 'auth', 'products', 'cart' and 'checked-in-passengers' show the login form, the product list, the cart and the checked-in passengers, in both copies |
| Views.NoUserShowsAuth | frontend/src/App.js:1090-1093 | with nobody logged in, every view except 'welcome' shows the login form; in the root copy every view does |
| Views.UnnamedViewShowsDashboard | src/App.js:992-1018 | a view outside the named ones shows the role's dashboard; an unknown role falls back to Welcome in the frontend copy and to the login form in the root copy |
| Text.TrimEmptyIffBlank | frontend/src/App.js:321 | the trimmed text is empty exactly when every character is ECMAScript whitespace |
| Text.TrimsToEmpty | src/App.js:268 | the guard on the trimmed text holds exactly for blank text |
| Text.Split | frontend/src/App.js:1101 | at least one piece; no piece contains the separator; joining the pieces with it gives the input back |
| Text.SplitFirst | backend/server.js:51 | the first piece is a prefix without the separator, followed by the separator when it is shorter than the input |
| Text.SplitNoSeparator | backend/server.js:51 | a text without the separator splits into itself alone |
| Text.OrDefault | backend/routes/products.js:23 | the fallback exactly when the text is empty (or is the fallback); the text otherwise |
| Bcrypt.Hash | backend/routes/users.js:23 | the stored hash carries the salt it was made with |
| Bcrypt.CompareOwnHash | backend/routes/users.js:55 | a password matches its own hash, whatever the salt |
| Bcrypt.CompareOtherPassword | backend/routes/users.js:55-58 | a password whose first 72 characters differ does not match |
| UsersRoute.FindByEmail | backend/routes/users.js:50 | None exactly when no row has that email; otherwise a row of the table with that email |
| UsersRoute.FindById | backend/routes/users.js:30-33 | None exactly when no row has that id; otherwise a row of the table with that id |
| UsersRoute.SetOnline | backend/routes/users.js:61 | same length; the row with that id is set online, every other row is unchanged |
| UsersRoute.CreatedUserCanLogIn | backend/routes/users.js:18-58 | after a create that passed the UNIQUE check, a lookup by the same email finds the new row and the password given at creation matches its hash |
| UsersRoute.UsersTable.constructor | backend/database.js:39-48 | an empty table whose ids start at 1 |
| UsersRoute.UsersTable.List | backend/routes/users.js:10 | one entry per row, in table order, each the row without its password |
| UsersRoute.UsersTable.Insert | backend/routes/users.js:25-28 | refused exactly on a username or email clash, leaving the table unchanged; otherwise one row with the next id is appended; ids, usernames and emails stay distinct |
| UsersRoute.UsersTable.Create | backend/routes/users.js:18-43 | a clash answers 400 'Email already exists' and adds no row; otherwise the appended row holds the hash, never the plaintext, is online, and is answered without its password |
| UsersRoute.UsersTable.Login | backend/routes/users.js:46-69 | an unknown email and a wrong password both answer the same 401 'Invalid credentials' and change nothing; a match sets only that user's row online and answers the row read before the update, without its password |
| CheckinsRoute.AfterCheckin | backend/routes/checkins.js:22-27 | the new row is last and the only row of its passenger; other rows form an order-preserving subsequence and other passengers' rows keep their multiplicity |
| CheckinsRoute.CheckinKeepsOnePerPassenger | backend/routes/checkins.js:22-27 | at most one row per passenger before a create implies at most one after |
| CheckinsRoute.SecondCheckinWins | backend/routes/checkins.js:22-29 | two creates for one passenger equal the second alone, whose row holds the second location |
| CheckinsRoute.FindById | backend/routes/checkins.js:29 | None exactly when no row has the id; a freshly appended unique id is found as the last row |
| CheckinsRoute.CheckinsTable.constructor | backend/database.js:68-74 | an empty table whose ids start at 1 |
| CheckinsRoute.CheckinsTable.List | backend/routes/checkins.js:9 | a permutation of the rows, newest timestamp first |
| CheckinsRoute.CheckinsTable.DeleteByPassenger | backend/routes/checkins.js:22 | the rows become those of other passengers, in order |
| CheckinsRoute.CheckinsTable.Insert | backend/routes/checkins.js:24-27 | one row with the next id and the clock is appended |
| CheckinsRoute.CheckinsTable.Create | backend/routes/checkins.js:17-34 | the table becomes the replace-by-passenger of the old rows with the new row, which carries the given name and location and is the row answered; one row per passenger is kept |
| MessagesRoute.History | backend/routes/messages.js:10-13 | exactly the rows of that chat key, with their multiplicities, in ascending timestamp order |
| MessagesRoute.OtherHistoriesUnchanged | backend/routes/messages.js:25-28 | appending a message of another chat leaves a chat's history equal |
| MessagesRoute.OwnHistoryGrows | backend/routes/messages.js:25-28 | appending a message adds exactly that message to its own chat's history |
| MessagesRoute.MessagesTable.constructor | backend/database.js:79-86 | an empty table whose ids start at 1 |
| MessagesRoute.MessagesTable.ForChat | backend/routes/messages.js:7-18 | the answer holds exactly the rows of that chat key, with their multiplicity, in ascending timestamp order |
| MessagesRoute.MessagesTable.Create | backend/routes/messages.js:21-35 | exactly one row with the given chat key, text, sender and sender name is appended and answered |
| ProductsRoute.NewRow | backend/routes/products.js:19-24 | category 'General' when the given one is empty, else the given one; description as given, empty staying empty; the other fields as given |
| ProductsRoute.ProductsTable.constructor | backend/database.js:53-63 | an empty table whose ids start at 1 |
| ProductsRoute.ProductsTable.List | backend/routes/products.js:9 | a permutation of the rows, newest creation time first |
| ProductsRoute.ProductsTable.Create | backend/routes/products.js:17-31 | the answered row has a fresh id, the given fields and the defaults; the table grows by exactly that row |
| MockServer.Field | backend/server.js:34-35 | a body field is present exactly when its key is |
| MockServer.Or | backend/server.js:36 | a truthy value is kept, a falsy or missing one gives the fallback |
| MockServer.HealthCheck | backend/server.js:13-19 | status 'OK' with the current time |
| MockServer.ApiTest | backend/server.js:21-26 | status 'success' |
| MockServer.List | backend/server.js:62-69 | every list route answers the empty list, whatever was posted before |
| MockServer.CreateUser | backend/server.js:29-44 | role is the body's role when truthy, else 'vendor'; online is true; username and email are echoed |
| MockServer.UsernameOf | backend/server.js:51 | the username is the prefix of the email before its first '@', the whole email when there is none |
| MockServer.Login | backend/server.js:46-60 | succeeds exactly when the email is a string; then username from the email, role 'vendor', online true; otherwise the 500 the thrown TypeError gives |
| MockServer.UsernameWithoutAt | backend/server.js:51 | an email without '@' is its own username |
| MockServer.CreateProduct | backend/server.js:71-89 | category 'General' and description '' when falsy, the other fields echoed |
| MockServer.CreateCheckin | backend/server.js:95-108 | the passenger id, name and location are echoed with the clock as id and timestamp |
| MockServer.CreateMessage | backend/server.js:115-129 | the chat key, text, sender and sender name are echoed with the clock as id and timestamp |
| FrontendApp.App.constructor | frontend/src/App.js:18-28 | the welcome screen, nobody logged in, every list empty |
| FrontendApp.App.Navigate | frontend/src/App.js:742 | a back or menu button sets the view tag |
| FrontendApp.App.TypeLocation | frontend/src/App.js:625 | the location input sets the check-in location |
| FrontendApp.App.EditDraft | frontend/src/App.js:655-664 | the product form inputs set the draft |
| FrontendApp.App.Logout | frontend/src/App.js:113-129 | the user's entries go offline, the user is cleared, the welcome screen shows |
| FrontendApp.App.CompleteAuth | frontend/src/App.js:131-155 | a thrown auth call changes nothing; otherwise the user is set, and when the user list arrives it replaces allUsers and the role's dashboard shows; a failed list call leaves the user set on the old screen |
| FrontendApp.App.SubmitLogin | frontend/src/App.js:405-415 | an empty email or password changes nothing; an accepted form then behaves as CompleteAuth: a thrown login call changes nothing, a failed user list leaves the user set on the old view and list, and otherwise the list is replaced and the role's dashboard (Welcome for an unknown role) shows |
| FrontendApp.App.SubmitSignup | frontend/src/App.js:416-437 | a rejected sign-up (empty field, mismatch, short password) changes nothing; an accepted form then behaves as CompleteAuth: a thrown create call changes nothing, a failed user list leaves the user set on the old view and list, and otherwise the list is replaced and the role's dashboard (Welcome for an unknown role) shows |
| FrontendApp.App.AddProduct | frontend/src/App.js:175-212 | an incomplete draft or a thrown call changes nothing; otherwise both product lists grow by exactly the stored product at the end, with category 'General' and the user as vendor, and the form is cleared |
| FrontendApp.App.AddToCart | frontend/src/App.js:228-240 | the cart becomes Cart.AddToCart of the old cart and stays well-formed |
| FrontendApp.App.RemoveFromCart | frontend/src/App.js:243-245 | the cart becomes Cart.RemoveFromCart of the old cart and stays well-formed |
| FrontendApp.App.UpdateQuantity | frontend/src/App.js:247-257 | the cart becomes Cart.UpdateQuantity of the old cart and stays well-formed |
| FrontendApp.App.Checkout | frontend/src/App.js:901-919 | with the intended payment check (Forms.PaymentAccepted): an empty cart, a cancelled prompt or an answer other than '1', '2', '3' changes nothing; a valid answer empties the cart and sets the view to 'dashboard' |
| FrontendApp.App.SendMessage | frontend/src/App.js:263-289 | blank text or a thrown save changes nothing; otherwise the message is appended to its chat and the other chats stay |
| FrontendApp.App.CheckIn | frontend/src/App.js:319-352 | the list and the location input change exactly as CheckInOutcome says, the input being cleared on success |
| FrontendApp.App.SelectChatUser | frontend/src/App.js:783-786 | the chosen user is selected and the chat screen for the target role shows |
| FrontendApp.App.ChatWithPassenger | frontend/src/App.js:731-737 | the passenger's user, if listed, is selected and the passenger chat opens; otherwise nothing changes |
| RootApp.App.constructor | src/App.js:17-27 | the login form, nobody logged in, every list empty |
| RootApp.App.Navigate | src/App.js:640 | a back or menu button sets the view tag |
| RootApp.App.TypeLocation | src/App.js:523 | the location input sets the check-in location |
| RootApp.App.EditDraft | src/App.js:553-562 | the product form inputs set the draft |
| RootApp.App.Logout | src/App.js:108-124 | the user's entries go offline, ids stay unique, the user is cleared, the login form shows |
| RootApp.App.SubmitAuth | src/App.js:126-158 | an empty field or a thrown create call changes nothing; otherwise the user, with the server's id or the clock id, is logged in, upserted online into allUsers with ids kept unique, and the role's dashboard shows |
| RootApp.App.AddProduct | src/App.js:178-216 | an incomplete draft or a thrown call changes nothing; otherwise both product lists grow by exactly the stored product, and the form is cleared |
| RootApp.App.AddToCart | src/App.js:232-245 | the cart becomes Cart.AddToCart of the old cart and stays well-formed |
| RootApp.App.RemoveFromCart | src/App.js:247-249 | the cart becomes Cart.RemoveFromCart of the old cart and stays well-formed |
| RootApp.App.UpdateQuantity | src/App.js:251-261 | the cart becomes Cart.UpdateQuantity of the old cart and stays well-formed |
| RootApp.App.Checkout | src/App.js:799-817 | with the intended payment check (Forms.PaymentAccepted): an empty cart, a cancelled prompt or an answer other than '1', '2', '3' changes nothing; a valid answer empties the cart and sets the view to 'dashboard' |
| RootApp.App.SendMessage | src/App.js:267-293 | blank text or a thrown save changes nothing; otherwise the message is appended to its chat and the other chats stay |
| RootApp.App.CheckIn | src/App.js:323-356 | the list and the location input change exactly as CheckInOutcome says |
| RootApp.App.SelectChatUser | src/App.js:681-684 | the chosen user is selected and the chat screen for the target role shows |
| RootApp.App.ChatWithPassenger | src/App.js:629-635 | the passenger's user, if listed, is selected and the passenger chat opens; otherwise nothing changes |

## Left out

- I/O of the view component: localStorage reads and writes, `alert`, the FileReader image upload (its result arrives through EditDraft), and the JSX markup of every screen.
- The one-second auto-reply timer in sendMessage (frontend/src/App.js:291-316, src/App.js:295-320). It is asynchronous and timer-driven; only the synchronous append is modelled.
- getCartTotal and the item totals. They use floating point (parsing the price and rounding to two decimals). Prices stay text throughout.
- handleBuyProduct. It only shows alerts and changes no state. It has the same prototype-key lookup as checkout (see Findings).
- loadInitialData, loadFromLocalStorage and the `dbConnected` probe. The probe's outcome reaches the model only through the `Reply` parameters.
- The ChatScreen back button and the construction of the chat key. The chat key is a parameter of SendMessage.
- The API layers src/api.js and frontend/src/api.js (fetch, and retrying a second path). A call is summed up by `Reply`.
- server/server.js and the pg pool, DDL and transactions of backend/database.js are not part of this model.
- A 2xx answer carrying an `error` field. In the root copy that branch keeps the clock id. SubmitAuth treats it like Offline, which gives the same state. AddProduct and CheckIn do not model it: there the stored record has no id at all.
- Route request bodies with missing fields. The route handlers take strings; SQL NULLs and NOT NULL failures are not modelled.
- Generic 500 answers of the routes when the store itself fails.
- The order among rows with equal timestamps in the sorted lists. SQL leaves it unspecified, and the model proves only the ordering and the permutation.
- The race between the DELETE and the INSERT of a check-in. The two steps run in sequence here.
- Bcrypt.Hash: the stand-in is salted and looks only at the first 72 characters, as bcrypt does. It is not one-way, and it counts characters where bcrypt counts UTF-8 bytes. It is also injective on those 72 characters, which is why Bcrypt.CompareOtherPassword holds outright; real bcrypt only makes a second matching password infeasible to find.
- Forms.SignupCheck: the password length is counted in characters, while JavaScript counts UTF-16 code units.
- MockServer.CreateUser: the model always has a body object. That matches an Express 4 app, where `express.json()` leaves `req.body` as `{}` for a request without a JSON body; the empty `Body` covers that case, with every field absent. Under Express 5 `req.body` stays undefined, and every POST handler of the mock server would then throw and answer 500; that case is not modelled. The GET handlers never read the body.
- Request bodies of the mock server (the `Json` datatype): a field is null, a boolean, an integer or a string. Objects, arrays and fractional numbers are not modelled, so an object `role`, which is truthy and would be echoed by the user route of backend/server.js, is not covered.
- FrontendApp.App.Checkout: uses the intended payment check. As written, an inherited property name such as "constructor" also passes the truthy lookup, so the source empties a non-empty cart and goes to 'dashboard' for it; see the Findings row.
- RootApp.App.Checkout: uses the intended payment check. As written, an inherited property name such as "constructor" also passes the same truthy lookup in src/App.js, so the source empties a non-empty cart and goes to 'dashboard' for it; see the Findings row.
- The Express app set-up, CORS and `listen`.

## Findings

| source | as written | input that shows it | evidently intended | confidence | as-written member | corrected member |
|---|---|---|---|---|---|---|
| frontend/src/App.js:911-914 | the checkout looks the prompt's answer up in an object literal and accepts any truthy result, so property names inherited from Object.prototype pass as well | answering "constructor" (or "toString", "__proto__", ...) empties the cart and reports a successful order with no payment method | only '1', '2' and '3' select a payment method | not executed | Forms.ConstructorPassesAsWritten | Forms.PaymentMethod |
