# Users Lambda: a verified model

This project models the request core of a small AWS Lambda. It serves
create, read, update, delete and list operations on a `users` table
behind API Gateway. The model covers four pieces:

- **`UserHandler`** routes a request by method and path. It validates
  bodies and list parameters, calls the DAO, and wraps every answer in the
  same JSON envelope: `{success: true, data}` or `{success: false, error}`.
- **`UserDao`** performs the five table operations and maps rows to users.
- **`User`** is the eight-field mutable bean.
- **`Db.getConnection`** decides which URL, user and password a
  connection is opened with.

The files, in dependency order:

| file | module | contents |
|---|---|---|
| `java_lang.dfy` | `JavaLang` | nullable values and exceptions as `Option`/`Result`; 32-bit wrap-around; `String.trim`; `Integer.parseInt` and `Integer.toString` in radix 10 |
| `user.dfy` | `Users` | the `User` class with setters and getters; the `UserValue` it holds; JSON field names; `toString` |
| `db.dfy` | `Db` | environment resolution, the connection outcome and `testConnection` |
| `user_dao.dfy` | `Dao` | the table as ascending rows plus the next auto-increment id; specification functions for insert, update, delete and pages; the `UserDao` class proved against them |
| `handler_logic.dfy` | `HandlerLogic` | envelopes, the routing decision, required-field validation, `limit`/`offset` parsing, `hasMore` |
| `handler_spec.dfy` | `HandlerSpec` | each handler as a function of the table before the request and of the connection outcome; the properties the handler promises |
| `handler.dfy` | `Handler` | the `UserHandler` class; each method is proved equal to its specification |

Things outside the process are parameters of the model:

- **The database** is the `UserDao`'s own `rows` and `nextId`. Rows are
  kept in ascending id order, so `ORDER BY id LIMIT ? OFFSET ?` is a slice.
- **The environment and the JDBC driver** are constant fields of the DAO.
  The driver is a function from settings to either success or an
  exception message. Every statement of one DAO therefore sees the same
  connection outcome.
- **The hard-coded default URL and user** are an opaque `Defaults` value.
- **The Jackson mapper** is a `JsonCodec`. Reading a body yields a user
  or an exception message, and writing an envelope either succeeds or
  throws.

## Model

| member | source | states |
|---|---|---|
| JavaLang.WrapInt32 | src/main/java/com/example/lambda/UserHandler.java:278 | `int` addition: the result lies in the 32-bit range, agrees with the exact sum modulo 2^32, and equals it when the sum fits |
| JavaLang.Trim | src/main/java/com/example/lambda/UserHandler.java:135 | `trim()` returns a slice of its input with only characters <= U+0020 cut off before and after it, and none left at either end of the result. It is empty exactly when every character is <= U+0020 |
| JavaLang.ParseInt | src/main/java/com/example/lambda/UserHandler.java:103 | `Integer.parseInt` succeeds exactly on an optional sign followed by at least one digit whose value fits in 32 bits. It then returns that value. Otherwise it throws `For input string: "<s>"`, or the null-string message for `null` |
| JavaLang.ParseIntText | src/main/java/com/example/lambda/UserHandler.java:103 | parsing the decimal text of any 32-bit int gives that int back |
| JavaLang.ParseIntLeadingZero | src/main/java/com/example/lambda/UserHandler.java:103 | a leading `0` changes neither whether an unsigned literal parses nor its value |
| JavaLang.DigitsValueLeadingZero | src/main/java/com/example/lambda/UserHandler.java:103 | leading zeros do not change the value of a digit string |
| JavaLang.IntText | src/main/java/com/example/lambda/UserHandler.java:168 | the decimal text of an `int` (as `"..." + userId` prints it) is non-empty, and begins with `-` exactly for a negative value |
| JavaLang.IntTextInjective | src/main/java/com/example/lambda/UserHandler.java:168 | different ints print as different texts |
| Users.WireNamesDistinct | src/main/java/com/example/lambda/model/User.java:10-32 | the eight `@JsonProperty` names (`wallet_address`, `wallet_type`, `bind_time` for the camel-case fields) are pairwise distinct |
| Users.Describe | src/main/java/com/example/lambda/model/User.java:120-131 | `toString` text begins `User{id=` and ends with `}` |
| Users.DescribeOmitsPassword | src/main/java/com/example/lambda/model/User.java:120-131 | `toString` is the same whatever the password is: the password field is not rendered |
| Users.DescribeShowsField | src/main/java/com/example/lambda/model/User.java:120-131 | each of the seven other fields is shown: two users whose printed values differ in one of them, and agree on the rest, print differently |
| Users.RenderSlot | src/main/java/com/example/lambda/model/User.java:122-130 | text concatenated from fixed labels and field values differs when one field value does |
| Users.IntegerTextInjective | src/main/java/com/example/lambda/model/User.java:123 | an `Integer` field prints differently for any two different values, `null` included |
| Users.DescribeShowsId | src/main/java/com/example/lambda/model/User.java:123 | changing the id of a user, to any other value or to null, always changes its `toString` |
| Users.User.constructor | src/main/java/com/example/lambda/model/User.java:37 | the default constructor leaves all eight fields null, `id` included |
| Users.User.WithFields | src/main/java/com/example/lambda/model/User.java:40-51 | the all-arguments constructor stores each argument in its own field |
| Users.User.SetId | src/main/java/com/example/lambda/model/User.java:54-60 | changes `id` and no other field; `getId` then returns the value set |
| Users.User.SetUsername | src/main/java/com/example/lambda/model/User.java:62-68 | changes `username` and no other field; its getter returns the value set |
| Users.User.SetEmail | src/main/java/com/example/lambda/model/User.java:70-76 | changes `email` and no other field; its getter returns the value set |
| Users.User.SetPassword | src/main/java/com/example/lambda/model/User.java:78-84 | changes `password` and no other field; its getter returns the value set |
| Users.User.SetScore | src/main/java/com/example/lambda/model/User.java:86-92 | changes `score` and no other field; its getter returns the value set |
| Users.User.SetWalletAddress | src/main/java/com/example/lambda/model/User.java:94-100 | changes `walletAddress` and no other field; its getter returns the value set |
| Users.User.SetWalletType | src/main/java/com/example/lambda/model/User.java:102-108 | changes `walletType` and no other field; its getter returns the value set |
| Users.User.SetBindTime | src/main/java/com/example/lambda/model/User.java:110-116 | changes `bindTime` and no other field; its getter returns the value set |
| Db.ResolveSettings | src/main/java/com/example/lambda/util/Db.java:28-46 | fails with `DB_PASSWORD environment variable is required` exactly when the password is unset or empty. Otherwise the password is taken verbatim. URL and user are taken verbatim when set and non-empty, and from the defaults otherwise |
| Db.GetConnection | src/main/java/com/example/lambda/util/Db.java:44-56 | a missing password fails whatever the driver would do, so it is checked before any attempt. Otherwise the driver's failure is rethrown with its own message |
| Db.TestConnection | src/main/java/com/example/lambda/util/Db.java:63-71 | `testConnection` answers true only with a non-empty password set; when it answers false with one set, the driver refused the resolved settings |
| Db.TestConnectionIff | src/main/java/com/example/lambda/util/Db.java:63-71 | `testConnection` is true exactly when a non-empty password is set and the driver accepts the resolved settings. Its exception never escapes |
| Db.BlankPasswordAccepted | src/main/java/com/example/lambda/util/Db.java:44-46 | every non-empty password made only of characters <= U+0020 passes the check (`isEmpty`, not `trim`) and is used as given |
| Dao.Lookup | src/main/java/com/example/lambda/dao/UserDao.java:69-70 | the row found for an id carries that id; none is found exactly when no row has it |
| Dao.LookupAt | src/main/java/com/example/lambda/dao/UserDao.java:69-70 | ids are unique: looking up the id of any row finds that very row |
| Dao.UserOfRow | src/main/java/com/example/lambda/dao/UserDao.java:203-216 | every column goes to the field of the same name; `score` and `bind_time` stay null when the column is null |
| Dao.BindRow | src/main/java/com/example/lambda/dao/UserDao.java:34-40 | the seven mutable fields are stored in their own columns and the user's own id is ignored; reading the row back gives the user under the row's id |
| Dao.Inserted | src/main/java/com/example/lambda/dao/UserDao.java:28-51 | the new row gets the next auto-increment id, which no row had. Every other id looks up as before. The count grows by one and the table stays ascending |
| Dao.Updated | src/main/java/com/example/lambda/dao/UserDao.java:101-119 | the row with the id gets all seven columns from the user, every other id looks up as before, and the count is unchanged. With no such row, every lookup is as before |
| Dao.UpdatedIdempotent | src/main/java/com/example/lambda/dao/UserDao.java:101-119 | running the same UPDATE twice leaves the table as after the first |
| Dao.Deleted | src/main/java/com/example/lambda/dao/UserDao.java:133-143 | only the row with the id disappears and every other id looks up as before. The count drops by one, or stays the same when no row had the id |
| Dao.Page | src/main/java/com/example/lambda/dao/UserDao.java:158-159 | `ORDER BY id LIMIT ? OFFSET ?`: at most `limit` rows, the rows from position `offset` on in id order, and empty when `offset` >= the row count |
| Dao.PagesConcatenate | src/main/java/com/example/lambda/dao/UserDao.java:158-159 | a page of `a` rows followed by the next page of `b` rows is the page of `a + b` rows |
| Dao.PageUsers | src/main/java/com/example/lambda/dao/UserDao.java:167-171 | the list holds one mapped user per row of the page, in order |
| Dao.UserDao.Create | src/main/java/com/example/lambda/dao/UserDao.java:24-57 | on success the table is the insert of the user's fields, and the generated id is set on the argument, which is returned. On a connection failure nothing changes and the message is rethrown |
| Dao.UserDao.MapResultSetToUser | src/main/java/com/example/lambda/dao/UserDao.java:203-221 | returns a new bean holding the mapped row |
| Dao.UserDao.GetById | src/main/java/com/example/lambda/dao/UserDao.java:65-88 | returns a new bean for the row with the id, or null (not an exception) when there is none |
| Dao.UserDao.Update | src/main/java/com/example/lambda/dao/UserDao.java:97-121 | the table becomes the update; the result is "affected rows > 0", true exactly when the id existed |
| Dao.UserDao.Delete | src/main/java/com/example/lambda/dao/UserDao.java:129-145 | the table becomes the delete; the result is true exactly when the id existed |
| Dao.UserDao.List | src/main/java/com/example/lambda/dao/UserDao.java:154-176 | returns one new, distinct bean per row of the page, in id order, collected by the row loop |
| Dao.UserDao.GetCount | src/main/java/com/example/lambda/dao/UserDao.java:183-195 | the number of rows |
| HandlerLogic.CreateErrorResponse | src/main/java/com/example/lambda/UserHandler.java:318-347 | keeps the status code and the JSON content type. The envelope is a failure carrying the message, or the fixed `Internal server error` when it cannot be written |
| HandlerLogic.CreateSuccessResponse | src/main/java/com/example/lambda/UserHandler.java:292-313 | a success envelope with the data under the given status, or a 500 `Internal server error` when it cannot be written |
| HandlerLogic.MatchUserId | src/main/java/com/example/lambda/UserHandler.java:101-102 | `/users/(\d+)` with `matches()`: the whole path is `/users/` followed by one or more ASCII digits, which are returned |
| HandlerLogic.ClassifyRoute | src/main/java/com/example/lambda/UserHandler.java:90-126 | create and list are chosen only for `/users`, under POST and GET; get, update and delete only for a path the id pattern matches, under GET, PUT and DELETE respectively |
| HandlerLogic.RoutingTable | src/main/java/com/example/lambda/UserHandler.java:90-126 | POST `/users` creates and GET `/users` lists. GET/PUT/DELETE on a matched path get, update or delete exactly the id its digits spell when it fits in an int, and throw when it does not. Anything else is not found. Each case is stated both ways |
| HandlerLogic.IdRouteValue | src/main/java/com/example/lambda/UserHandler.java:101-104 | the id an id route acts on is the value of the path's digits, between 0 and `Integer.MAX_VALUE` |
| HandlerLogic.RouteOfDigits | src/main/java/com/example/lambda/UserHandler.java:101-104 | `/users/<digits>` under GET, PUT or DELETE is decided by parsing those digits |
| HandlerLogic.RoutesDecimalId | src/main/java/com/example/lambda/UserHandler.java:101-121 | every id from 0 to `Integer.MAX_VALUE`, written in decimal with or without a leading zero, reaches the get, update or delete of that id |
| HandlerLogic.OversizedIdFails | src/main/java/com/example/lambda/UserHandler.java:101-104 | a matched id above `Integer.MAX_VALUE` makes routing throw `For input string: "<digits>"` |
| HandlerLogic.NearMissesNotFound | src/main/java/com/example/lambda/UserHandler.java:90-126 | POST `/users/5`, PUT `/users`, GET `/users/5/`, lower-case `get`, DELETE `/users/` and GET `/users/-5` are not routes |
| HandlerLogic.LeadingZerosRoute | src/main/java/com/example/lambda/UserHandler.java:101-104 | GET `/users/007` gets id 7 |
| HandlerLogic.MissingField | src/main/java/com/example/lambda/UserHandler.java:142-150 | username, email and password are checked in that order. The first that is null or blank after trimming names the message, and none is reported exactly when all three are present |
| HandlerLogic.ParseLimit | src/main/java/com/example/lambda/UserHandler.java:246-255 | 10 when absent. `Invalid limit parameter` when it does not parse (null included) and `Limit must be between 1 and 100` when it parses outside 1..100, each exactly then. Otherwise the parsed value |
| HandlerLogic.ParseOffset | src/main/java/com/example/lambda/UserHandler.java:257-266 | 0 when absent. `Invalid offset parameter` when it does not parse and `Offset must be non-negative` when negative, each exactly then. Otherwise the parsed value |
| HandlerLogic.ParseListParams | src/main/java/com/example/lambda/UserHandler.java:241-267 | defaults without a query map. The limit is checked before the offset. A result is always within 1..100 and 0..`Integer.MAX_VALUE` |
| HandlerLogic.ListParamExamples | src/main/java/com/example/lambda/UserHandler.java:246-266 | concrete queries: limit 0, non-numeric limit with negative offset, null limit, negative offset, and a valid pair |
| HandlerLogic.HasMore | src/main/java/com/example/lambda/UserHandler.java:278 | `(offset + limit) < totalCount` in `int` arithmetic; when the sum fits in an int it is the exact comparison |
| HandlerLogic.HasMoreOverflows | src/main/java/com/example/lambda/UserHandler.java:278 | with `offset = Integer.MAX_VALUE` the sum wraps negative and `hasMore` is true even for an empty table |
| HandlerLogic.HasMoreExact | src/main/java/com/example/lambda/UserHandler.java:278 | `hasMore` computed without wrap-around; it agrees with the code whenever `offset + limit` fits in an int |
| HandlerLogic.GetUserResponse | src/main/java/com/example/lambda/UserHandler.java:164-176 | a found user is 200 with that user, a null user is 404 `User not found with ID: <id>`, and a thrown exception is 500 `Failed to get user: <message>` |
| HandlerLogic.UpdatedUserResponse | src/main/java/com/example/lambda/UserHandler.java:207-213 | after a successful update, the row read back is answered 200 with that user, a null re-read 200 with null data, and an exception 500 `Failed to update user: <message>` |
| HandlerLogic.ListUsersResponse | src/main/java/com/example/lambda/UserHandler.java:269-286 | a failing count is 500 `Failed to list users: <message>`; otherwise 200 with the users, `limit`, `offset`, the total and `hasMore` as the code computes it |
| HandlerSpec.Found | src/main/java/com/example/lambda/UserHandler.java:166 | with a connection, `getById` finds a user exactly when the table has the id, and that user is the row mapped by `mapResultSetToUser`. Without one, it rethrows the connection's message |
| HandlerSpec.CreateSpec | src/main/java/com/example/lambda/UserHandler.java:132-159 | create leaves a valid table, which changes exactly when a readable body has all required fields and a connection is had; it then gains one row |
| HandlerSpec.GetSpec | src/main/java/com/example/lambda/UserHandler.java:164-177 | get leaves the table alone and answers 404 exactly when connected and no row has the id |
| HandlerSpec.UpdateSpec | src/main/java/com/example/lambda/UserHandler.java:182-215 | update leaves a valid table with the same row count and next id, and every other id looks up as before |
| HandlerSpec.DeleteSpec | src/main/java/com/example/lambda/UserHandler.java:220-233 | delete leaves a valid table in which every other id looks up as before, and answers 404 exactly when connected and no row has the id |
| HandlerSpec.ListSpec | src/main/java/com/example/lambda/UserHandler.java:238-287 | list leaves the table alone |
| HandlerSpec.RouteSpec | src/main/java/com/example/lambda/UserHandler.java:81-127 | routing throws exactly when the route is an id route whose digits do not fit in an int; otherwise its outcome leaves a valid table |
| HandlerSpec.Serve | src/main/java/com/example/lambda/UserHandler.java:36-76 | a request leaves a valid table, and only create, update and delete routes can change it |
| HandlerSpec.EnvelopeUniform | src/main/java/com/example/lambda/UserHandler.java:292-346 | every request is answered with JSON headers and a status among 200, 201, 400, 404 and 500. The envelope is a success exactly for 200 and 201, and the table stays valid |
| HandlerSpec.CreateWellFormed | src/main/java/com/example/lambda/UserHandler.java:132-159 | create answers in the uniform envelope and leaves a valid table |
| HandlerSpec.GetWellFormed | src/main/java/com/example/lambda/UserHandler.java:164-177 | get answers in the uniform envelope |
| HandlerSpec.UpdateWellFormed | src/main/java/com/example/lambda/UserHandler.java:182-215 | update answers in the uniform envelope and leaves a valid table |
| HandlerSpec.DeleteWellFormed | src/main/java/com/example/lambda/UserHandler.java:220-233 | delete answers in the uniform envelope and leaves a valid table |
| HandlerSpec.ListWellFormed | src/main/java/com/example/lambda/UserHandler.java:238-287 | list answers in the uniform envelope |
| HandlerSpec.BadRequestNeverTouchesStore | src/main/java/com/example/lambda/UserHandler.java:135-150 | a 400 leaves the table as it was, and the same request gets the same answer whatever the table holds and whether or not a connection can be had |
| HandlerSpec.CreateBadRequest | src/main/java/com/example/lambda/UserHandler.java:135-150 | a 400 from create is independent of table and connection and changes nothing |
| HandlerSpec.UpdateBadRequest | src/main/java/com/example/lambda/UserHandler.java:185-200 | a 400 from update is independent of table and connection and changes nothing |
| HandlerSpec.CreateValidation | src/main/java/com/example/lambda/UserHandler.java:135-150 | create answers 400 exactly for a null or blank body, or for a readable body missing a required field. The message is `Request body is required` or the first missing field's, and the table is left as it was |
| HandlerSpec.UpdateValidation | src/main/java/com/example/lambda/UserHandler.java:185-200 | update refuses exactly the same requests with the same 400 messages, before the store is consulted |
| HandlerSpec.MalformedBodyIsServerError | src/main/java/com/example/lambda/UserHandler.java:139-157 | an unreadable body is 500 `Failed to create user: <message>` for create and 500 `Failed to update user: <message>` for update of any id, not 400, and the table is left as it was |
| HandlerSpec.CreateThenGet | src/main/java/com/example/lambda/UserHandler.java:152-153 | a valid create inserts under a positive id no row had and answers 201 with the request's fields under that id. A get of that id then answers 200 with the same user |
| HandlerSpec.AbsentIdNotFound | src/main/java/com/example/lambda/UserHandler.java:167-168 | get, delete and a valid update of an id no row has answer 404 `User not found with ID: <id>` and change nothing |
| HandlerSpec.UpdateAnswersStoredRow | src/main/java/com/example/lambda/UserHandler.java:207-209 | a successful update answers 200 with the row as read back: the request's fields under the path id, whatever id the body held |
| HandlerSpec.UpdateIdempotent | src/main/java/com/example/lambda/UserHandler.java:182-215 | repeating an update leaves the table and the answer as after the first |
| HandlerSpec.DeleteThenGet | src/main/java/com/example/lambda/UserHandler.java:220-227 | deleting an existing id answers `User deleted successfully` and removes the row; a later get or delete of it answers 404 |
| HandlerSpec.ListAnswersPage | src/main/java/com/example/lambda/UserHandler.java:269-281 | a valid list answers 200 with at most `limit` users, the rows after `offset` in ascending id order, the total row count, and `hasMore` as computed; empty past the end |
| HandlerSpec.HasMoreMeansRowsRemain | src/main/java/com/example/lambda/UserHandler.java:274-279 | without overflow, `hasMore` is true exactly when rows remain after the page returned |
| HandlerSpec.HasMoreExactMeansRowsRemain | src/main/java/com/example/lambda/UserHandler.java:274-279 | `hasMore` without wrap-around is true exactly when rows remain after the page returned, for every offset |
| HandlerSpec.ConnectionFailureChangesNothing | src/main/java/com/example/lambda/UserHandler.java:155-157 | when no connection can be had, no request changes the table and none succeeds |
| HandlerSpec.StoreFailureIsServerError | src/main/java/com/example/lambda/UserHandler.java:155-285 | when the store cannot be reached, get, delete, a valid list and a valid create or update each answer 500 with their own prefix (`Failed to get user: `, `Failed to delete user: `, `Failed to list users: `, `Failed to create user: `, `Failed to update user: `) followed by the store's message, and the table is unchanged |
| HandlerSpec.ListValidation | src/main/java/com/example/lambda/UserHandler.java:241-267 | list answers 400 exactly when its `limit` or `offset` is rejected, with the parameter check's message and the table unchanged |
| HandlerSpec.UnknownRouteNotFound | src/main/java/com/example/lambda/UserHandler.java:126 | an unrouted request answers 404 `Endpoint not found: <method> <path>` |
| HandlerSpec.OversizedIdIsServerError | src/main/java/com/example/lambda/UserHandler.java:72-74 | an id route whose digits overflow an int answers 500 `Internal server error: For input string: "<digits>"`, not 404 |
| HandlerSpec.NullMethodAndPath | src/main/java/com/example/lambda/UserHandler.java:53-58 | a null method and path are routed as `GET /`, which is not found |
| Handler.UserHandler.HandleRequest | src/main/java/com/example/lambda/UserHandler.java:36-76 | defaults the method and path, routes, and turns an exception escaping routing into 500 `Internal server error: <message>`; equal to `Serve` on table and response |
| Handler.UserHandler.RouteRequest | src/main/java/com/example/lambda/UserHandler.java:81-127 | dispatches as the routing table says, or throws the parse failure without touching the table |
| Handler.UserHandler.HandleCreateUser | src/main/java/com/example/lambda/UserHandler.java:132-159 | the new table and the response are those of `CreateSpec` |
| Handler.UserHandler.HandleGetUser | src/main/java/com/example/lambda/UserHandler.java:164-177 | the response is that of `GetSpec`; the table is not changed |
| Handler.UserHandler.HandleUpdateUser | src/main/java/com/example/lambda/UserHandler.java:182-215 | the new table and the response are those of `UpdateSpec`, the response built from the row read back |
| Handler.UserHandler.HandleDeleteUser | src/main/java/com/example/lambda/UserHandler.java:220-233 | the new table and the response are those of `DeleteSpec` |
| Handler.UserHandler.HandleListUsers | src/main/java/com/example/lambda/UserHandler.java:238-287 | the response is that of `ListSpec`; the table is not changed |

## Left out

- Event extraction: `event.getRequestContext().getHttp().getMethod()` runs before the catch-all `try`, so a missing request context throws out of `handleRequest`. The model takes the method and path as already extracted optional strings.
- JSON internals: the Jackson mapper is an abstract codec. The literal body `null`, which Jackson reads as a null user and the handler then dereferences, counts as a read failure. Serialised text, date formats and field order are not modelled.
- Logging and timing: SLF4J calls and `System.currentTimeMillis` have no effect on the results and are left out.
- JDBC and the database engine: prepared statements, result sets, resource closing, auto-commit and constraints are left out. The DAO works on its in-model table.
- Transient database failures: every statement of one DAO sees the same connection outcome, so a connection that fails between two statements of one request is not modelled. Concurrent requests and races between an update and its re-read are not modelled either.
- Dao.UserDao.Create: the exceptions `Creating user failed, no rows affected.` and `Creating user failed, no ID obtained.` cannot arise against the in-model table and are not modelled.
- Dao.Inserted: auto-increment exhaustion and the truncation of `getInt` on ids beyond 32 bits are not modelled; ids are unbounded.
- Dao.UserDao.GetCount: the "no result row, return 0" branch cannot arise against the in-model table and is not modelled.
- Dao.UserDao.List: requires a non-negative `limit` and `offset`. The handler only ever passes validated values; SQL would reject negative ones.
- JavaLang.ParseInt: accepts ASCII digits only. `Integer.parseInt` also accepts other Unicode decimal digits, which the `\d` route pattern never lets through but a query parameter could.
- JavaLang.ParseInt: the message for a `null` argument is the one of recent JDKs; older JDKs used a different text.
- Users.User.ToString, and the getters: these are plain field reads over `Describe` and the fields, with no contract of their own. Their behaviour is stated through `Describe` and the setters.
- Users.DescribeShowsField: stated for field values whose printed texts differ, because string concatenation prints a null string field and the string `"null"` alike. For the `Integer` id and score every change of value changes the text (`Users.IntegerTextInjective`).
- Date conversion: `LocalDateTime` and `Timestamp` are one opaque value, `DateTime`, held as its ISO text.
- The hard-coded default URL and user are a parameter (`Db.Defaults`), not literals.
- `LocalTest.java` (a demonstration driver against a live database) is not part of this model.

## Findings

| source | as written | input that shows it | evidently intended | confidence | as-written member | corrected member |
|---|---|---|---|---|---|---|
| src/main/java/com/example/lambda/UserHandler.java:278 | `hasMore` is `(offset + limit) < totalCount` in 32-bit `int` arithmetic, and the offset is only checked to be non-negative | `GET /users?offset=2147483647&limit=10` on an empty table: the sum wraps to -2147483639 and `hasMore` is true | `hasMore` true exactly when rows remain after the returned page, the sum taken without wrap-around | not executed | HandlerLogic.HasMoreOverflows | HandlerSpec.HasMoreExactMeansRowsRemain |

The handler model keeps the code as written: `HandlerLogic.ListUsersResponse` computes `hasMore` with `HandlerLogic.HasMore`, so that the handler's proofs describe the program as it stands. `HandlerLogic.HasMoreExact` is the comparison a fix would compute, and `HandlerSpec.HasMoreExactMeansRowsRemain` proves it right for every offset the handler accepts.
