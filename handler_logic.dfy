/*
 * The decisions `UserHandler` takes without touching the store: how a
 * (method, path) pair is routed, which request bodies and query parameters
 * are rejected and with which message, and how a response envelope is built.
 */
module HandlerLogic {
  import opened JavaLang
  import opened Users

  // ---------------------------------------------------------------------------
  // Constants and messages

  const DefaultLimit: int := 10
  const DefaultOffset: int := 0
  const MaxLimit: int := 100

  const BodyRequired: string := "Request body is required"
  const UsernameRequired: string := "Username is required"
  const EmailRequired: string := "Email is required"
  const PasswordRequired: string := "Password is required"
  const InvalidLimit: string := "Invalid limit parameter"
  /** `"Limit must be between 1 and " + MAX_LIMIT` */
  const LimitOutOfRange: string := "Limit must be between 1 and 100"
  const InvalidOffset: string := "Invalid offset parameter"
  const NegativeOffset: string := "Offset must be non-negative"
  const UserDeleted: string := "User deleted successfully"
  const InternalError: string := "Internal server error"

  const CreateFailed: string := "Failed to create user: "
  const GetFailed: string := "Failed to get user: "
  const UpdateFailed: string := "Failed to update user: "
  const DeleteFailed: string := "Failed to delete user: "
  const ListFailed: string := "Failed to list users: "
  const InternalErrorPrefix: string := "Internal server error: "

  function UserNotFound(id: int): string {
    "User not found with ID: " + IntText(id)
  }

  function EndpointNotFound(httpMethod: string, path: string): string {
    "Endpoint not found: " + httpMethod + " " + path
  }

  // ---------------------------------------------------------------------------
  // Requests and responses

  /** The parts of the gateway event the handler reads, each possibly `null`. */
  datatype Request = Request(
    httpMethod: Option<string>,
    rawPath: Option<string>,
    queryStringParameters: Option<map<string, Option<string>>>,
    body: Option<string>)

  datatype Pagination = Pagination(limit: int, offset: int, total: int, hasMore: bool)

  /** What goes under `data` in a success envelope. */
  datatype Payload =
    | UserData(user: UserValue)
    | NullData
    | MessageData(message: string)
    | UserListData(users: seq<UserValue>, pagination: Pagination)

  /** `{"success": true, "data": ...}` or `{"success": false, "error": ...}` */
  datatype Envelope = Succeeded(data: Payload) | Failed(error: string)

  datatype Response = Response(statusCode: int, headers: map<string, string>, body: Envelope)

  /**
   * The JSON mapper, abstracted: reading a request body either yields a user
   * or throws with a message, and writing an envelope either succeeds or throws.
   */
  datatype JsonCodec = JsonCodec(readUser: string -> Result<UserValue>, canWrite: Envelope -> bool)

  const JsonHeaders: map<string, string> := map["Content-Type" := "application/json"]

  /**
   * `createErrorResponse`: the status is kept whatever happens; if the
   * envelope cannot be written, the fixed fallback body is sent instead.
   */
  function CreateErrorResponse(codec: JsonCodec, statusCode: int, message: string): (r: Response)
    ensures r.statusCode == statusCode && r.headers == JsonHeaders && r.body.Failed?
    ensures r.body.error == if codec.canWrite(Failed(message)) then message else InternalError
  {
    if codec.canWrite(Failed(message)) then Response(statusCode, JsonHeaders, Failed(message))
    else Response(statusCode, JsonHeaders, Failed(InternalError))
  }

  /**
   * `createSuccessResponse`: the data under the given status, or a 500
   * "Internal server error" when the envelope cannot be written.
   */
  function CreateSuccessResponse(codec: JsonCodec, statusCode: int, data: Payload): (r: Response)
    ensures r.headers == JsonHeaders
    ensures r.body.Succeeded? <==> codec.canWrite(Succeeded(data))
    ensures r.body.Succeeded? ==> r.statusCode == statusCode && r.body.data == data
    ensures r.body.Failed? ==> r.statusCode == 500 && r.body.error == InternalError
  {
    if codec.canWrite(Succeeded(data)) then Response(statusCode, JsonHeaders, Succeeded(data))
    else CreateErrorResponse(codec, 500, InternalError)
  }

  // ---------------------------------------------------------------------------
  // Routing

  /** The operation a request is dispatched to. */
  datatype Route =
    | CreateRoute
    | ListRoute
    | GetRoute(id: int)
    | UpdateRoute(id: int)
    | DeleteRoute(id: int)
    | NoRoute                     // answered 404 "Endpoint not found: ..."
    | RouteError(message: string) // Integer.parseInt threw out of routeRequest

  const UsersPath: string := "/users"
  const UserIdPrefix: string := "/users/"

  /** `USER_ID_PATTERN.matcher(path).matches()` for `/users/(\d+)`, and then `group(1)`. */
  function MatchUserId(path: string): (r: Option<string>)
    ensures r.Some? <==> |path| > |UserIdPrefix| && path[..|UserIdPrefix|] == UserIdPrefix
                         && AllDigits(path[|UserIdPrefix|..])
    ensures r.Some? ==> r.value != [] && AllDigits(r.value) && path == UserIdPrefix + r.value
  {
    if |path| > |UserIdPrefix| && path[..|UserIdPrefix|] == UserIdPrefix && AllDigits(path[|UserIdPrefix|..])
    then
      assert path == path[..|UserIdPrefix|] + path[|UserIdPrefix|..];
      Some(path[|UserIdPrefix|..])
    else None
  }

  /** The method and path after the null checks: `null` becomes `"GET"` and `"/"`. */
  function MethodOf(req: Request): string {
    req.httpMethod.GetOr("GET")
  }

  function PathOf(req: Request): string {
    req.rawPath.GetOr("/")
  }

  /** GET, PUT or DELETE: the methods with an id route. */
  predicate HasIdRoute(httpMethod: string) {
    httpMethod == "GET" || httpMethod == "PUT" || httpMethod == "DELETE"
  }

  /** The route an id operation gets for a given method. */
  function IdOperation(httpMethod: string, id: int): Route {
    if httpMethod == "GET" then GetRoute(id)
    else if httpMethod == "PUT" then UpdateRoute(id)
    else DeleteRoute(id)
  }

  /** The id route for GET, PUT and DELETE on a matched path, or the parse failure. */
  function IdRoute(httpMethod: string, digits: string): Route
    requires HasIdRoute(httpMethod)
  {
    match ParseInt(Some(digits))
    case Failure(e) => RouteError(e)
    case Success(id) => IdOperation(httpMethod, id)
  }

  /** The `switch` of `routeRequest`. */
  function ClassifyRoute(httpMethod: string, path: string): (r: Route)
    ensures r.CreateRoute? ==> httpMethod == "POST" && path == UsersPath
    ensures r.ListRoute? ==> httpMethod == "GET" && path == UsersPath
    ensures r.GetRoute? ==> httpMethod == "GET" && MatchUserId(path).Some?
    ensures r.UpdateRoute? ==> httpMethod == "PUT" && MatchUserId(path).Some?
    ensures r.DeleteRoute? ==> httpMethod == "DELETE" && MatchUserId(path).Some?
  {
    if httpMethod == "POST" then
      if path == UsersPath then CreateRoute else NoRoute
    else if httpMethod == "GET" && path == UsersPath then
      ListRoute
    else if HasIdRoute(httpMethod) then
      match MatchUserId(path)
      case None => NoRoute
      case Some(digits) => IdRoute(httpMethod, digits)
    else
      NoRoute
  }

  /**
   * The routing table: POST /users creates, GET /users lists, GET/PUT/DELETE
   * on `/users/<digits>` act on that id when it fits in an int and fail when
   * it does not; everything else is not found.
   */
  lemma RoutingTable(httpMethod: string, path: string)
    ensures ClassifyRoute(httpMethod, path) == CreateRoute <==> httpMethod == "POST" && path == "/users"
    ensures ClassifyRoute(httpMethod, path) == ListRoute <==> httpMethod == "GET" && path == "/users"
    ensures ClassifyRoute(httpMethod, path).RouteError? <==>
              && HasIdRoute(httpMethod) && MatchUserId(path).Some?
              && !IsInt32(DigitsValue(MatchUserId(path).value))
    ensures ClassifyRoute(httpMethod, path) == NoRoute <==>
              && !(httpMethod == "POST" && path == "/users")
              && !(httpMethod == "GET" && path == "/users")
              && !(HasIdRoute(httpMethod) && MatchUserId(path).Some?)
    ensures (ClassifyRoute(httpMethod, path).GetRoute? || ClassifyRoute(httpMethod, path).UpdateRoute?
             || ClassifyRoute(httpMethod, path).DeleteRoute?) <==>
              && HasIdRoute(httpMethod) && MatchUserId(path).Some?
              && IsInt32(DigitsValue(MatchUserId(path).value))
    ensures HasIdRoute(httpMethod) && MatchUserId(path).Some? && IsInt32(DigitsValue(MatchUserId(path).value)) ==>
              ClassifyRoute(httpMethod, path) == IdOperation(httpMethod, DigitsValue(MatchUserId(path).value))
  {
    if HasIdRoute(httpMethod) && MatchUserId(path).Some? {
      var digits := MatchUserId(path).value;
      assert path != "/users" by { assert |path| > |UserIdPrefix|; }
      assert LiteralValue(digits) == DigitsValue(digits);
    }
  }

  /**
   * A matched id route carries exactly the number written in the path, and
   * that number is a non-negative int.
   */
  lemma IdRouteValue(httpMethod: string, path: string, id: int)
    requires ClassifyRoute(httpMethod, path) == IdOperation(httpMethod, id)
    requires HasIdRoute(httpMethod)
    ensures MatchUserId(path).Some? && DigitsValue(MatchUserId(path).value) == id
    ensures 0 <= id <= Int32Max
  {
    var digits := MatchUserId(path).value;
    assert LiteralValue(digits) == DigitsValue(digits);
  }

  /** A path made of the prefix and a digit string is routed on that digit string. */
  lemma RouteOfDigits(httpMethod: string, digits: string)
    requires HasIdRoute(httpMethod) && digits != [] && AllDigits(digits)
    ensures ClassifyRoute(httpMethod, UserIdPrefix + digits) == IdRoute(httpMethod, digits)
  {
    var path := UserIdPrefix + digits;
    assert path[..|UserIdPrefix|] == UserIdPrefix && path[|UserIdPrefix|..] == digits;
    assert path != UsersPath by { assert |path| > |UsersPath|; }
  }

  /** The decimal text of a non-negative int, optionally after one leading zero. */
  function DecimalId(id: nat, leadingZero: bool): (digits: string)
    ensures digits != [] && AllDigits(digits)
  {
    (if leadingZero then "0" else "") + NatText(id)
  }

  lemma ParseDecimalId(id: nat, leadingZero: bool)
    requires id <= Int32Max
    ensures ParseInt(Some(DecimalId(id, leadingZero))) == Success(id)
  {
    ParseIntText(id);
    assert IntText(id) == NatText(id);
    if leadingZero {
      ParseIntLeadingZero(NatText(id));
    } else {
      assert DecimalId(id, leadingZero) == NatText(id);
    }
  }

  /** Every int id written in decimal, with or without a leading zero, routes to that id. */
  lemma RoutesDecimalId(httpMethod: string, id: nat, leadingZero: bool)
    requires HasIdRoute(httpMethod) && id <= Int32Max
    ensures ClassifyRoute(httpMethod, UserIdPrefix + DecimalId(id, leadingZero)) == IdOperation(httpMethod, id)
  {
    ParseDecimalId(id, leadingZero);
    RouteOfDigits(httpMethod, DecimalId(id, leadingZero));
  }

  /** An all-digit id beyond the int range makes routing throw the parse exception. */
  lemma OversizedIdFails(httpMethod: string, digits: string)
    requires HasIdRoute(httpMethod)
    requires digits != [] && AllDigits(digits) && DigitsValue(digits) > Int32Max
    ensures ClassifyRoute(httpMethod, UserIdPrefix + digits) == RouteError(ForInputString(digits))
  {
    RouteOfDigits(httpMethod, digits);
    assert LiteralValue(digits) == DigitsValue(digits);
  }

  /** Near misses of the routing table fall through to "not found". */
  lemma NearMissesNotFound()
    ensures ClassifyRoute("POST", "/users/5") == NoRoute
    ensures ClassifyRoute("PUT", "/users") == NoRoute
    ensures ClassifyRoute("GET", "/users/5/") == NoRoute
    ensures ClassifyRoute("get", "/users") == NoRoute
    ensures ClassifyRoute("DELETE", "/users/") == NoRoute
    ensures ClassifyRoute("GET", "/users/-5") == NoRoute
  {
    assert !IsDigit("/users/5/"[8]);
    assert !IsDigit("/users/-5"[7]);
  }

  /** `/users/007` is the user with id 7. */
  lemma LeadingZerosRoute()
    ensures ClassifyRoute("GET", "/users/007") == GetRoute(7)
  {
    assert "/users/007"[7..] == "007";
    assert DigitsValue("007") == 7 by {
      assert "007"[..2] == "00" && "00"[..1] == "0" && "0"[..0] == "";
    }
  }

  // ---------------------------------------------------------------------------
  // Validation of create and update bodies

  /** A request body that is neither null nor blank. */
  predicate HasBody(body: Option<string>) {
    body.Some? && !IsBlank(body.value)
  }

  /** A required field that is neither null nor blank after `trim()`. */
  predicate Present(field: Option<string>) {
    field.Some? && !IsBlank(field.value)
  }

  /** The message for the first of username, email, password that is missing. */
  function MissingField(u: UserValue): (r: Option<string>)
    ensures r.None? <==> Present(u.username) && Present(u.email) && Present(u.password)
    ensures r == Some(UsernameRequired) <==> !Present(u.username)
    ensures r == Some(EmailRequired) <==> Present(u.username) && !Present(u.email)
    ensures r == Some(PasswordRequired) <==> Present(u.username) && Present(u.email) && !Present(u.password)
  {
    if !Present(u.username) then Some(UsernameRequired)
    else if !Present(u.email) then Some(EmailRequired)
    else if !Present(u.password) then Some(PasswordRequired)
    else None
  }

  // ---------------------------------------------------------------------------
  // List parameters

  datatype PageRequest = PageRequest(limit: int, offset: int)

  /** The `limit` parameter: 10 when absent, else an int in [1, 100]. */
  function ParseLimit(q: map<string, Option<string>>): (r: Result<int>)
    ensures r.Success? ==> 1 <= r.value <= MaxLimit
    ensures "limit" !in q ==> r == Success(DefaultLimit)
    ensures r.Failure? <==> "limit" in q && (ParseInt(q["limit"]).Failure? || !(1 <= ParseInt(q["limit"]).value <= MaxLimit))
    ensures r.Failure? ==> r.error == if ParseInt(q["limit"]).Failure? then InvalidLimit else LimitOutOfRange
    ensures "limit" in q && r.Success? ==> ParseInt(q["limit"]) == r
  {
    if "limit" !in q then Success(DefaultLimit)
    else match ParseInt(q["limit"])
      case Failure(_) => Failure(InvalidLimit)
      case Success(n) => if n <= 0 || n > MaxLimit then Failure(LimitOutOfRange) else Success(n)
  }

  /** The `offset` parameter: 0 when absent, else a non-negative int. */
  function ParseOffset(q: map<string, Option<string>>): (r: Result<int>)
    ensures r.Success? ==> 0 <= r.value <= Int32Max
    ensures "offset" !in q ==> r == Success(DefaultOffset)
    ensures r.Failure? <==> "offset" in q && (ParseInt(q["offset"]).Failure? || ParseInt(q["offset"]).value < 0)
    ensures r.Failure? ==> r.error == if ParseInt(q["offset"]).Failure? then InvalidOffset else NegativeOffset
    ensures "offset" in q && r.Success? ==> ParseInt(q["offset"]) == r
  {
    if "offset" !in q then Success(DefaultOffset)
    else match ParseInt(q["offset"])
      case Failure(_) => Failure(InvalidOffset)
      case Success(n) => if n < 0 then Failure(NegativeOffset) else Success(n)
  }

  /** The query-string handling of `handleListUsers`: limit first, then offset. */
  function ParseListParams(query: Option<map<string, Option<string>>>): (r: Result<PageRequest>)
    ensures r.Success? ==> 1 <= r.value.limit <= MaxLimit && 0 <= r.value.offset <= Int32Max
    ensures query.None? ==> r == Success(PageRequest(DefaultLimit, DefaultOffset))
    ensures query.Some? && ParseLimit(query.value).Failure? ==> r == Failure(ParseLimit(query.value).error)
    ensures query.Some? && ParseLimit(query.value).Success? ==>
              r == match ParseOffset(query.value)
                   case Failure(e) => Failure(e)
                   case Success(o) => Success(PageRequest(ParseLimit(query.value).value, o))
  {
    match query
    case None => Success(PageRequest(DefaultLimit, DefaultOffset))
    case Some(q) =>
      match ParseLimit(q)
      case Failure(e) => Failure(e)
      case Success(limit) =>
        match ParseOffset(q)
        case Failure(e) => Failure(e)
        case Success(offset) => Success(PageRequest(limit, offset))
  }

  /** Limit 0, an unparsable limit, or a negative offset are rejected with their own message. */
  lemma ListParamExamples()
    ensures ParseListParams(Some(map["limit" := Some("0")])) == Failure(LimitOutOfRange)
    ensures ParseListParams(Some(map["limit" := Some("abc"), "offset" := Some("-1")])) == Failure(InvalidLimit)
    ensures ParseListParams(Some(map["limit" := None])) == Failure(InvalidLimit)
    ensures ParseListParams(Some(map["offset" := Some("-1")])) == Failure(NegativeOffset)
    ensures ParseListParams(Some(map["limit" := Some("5"), "offset" := Some("0")])) == Success(PageRequest(5, 0))
  {
    assert !IsDigit("abc"[0]);
    assert "-1"[1..] == "1";
    assert "0"[..0] == [] && "5"[..0] == [] && "1"[..0] == [];
  }

  /** `hasMore` as written: `(offset + limit) < totalCount` in 32-bit int arithmetic. */
  function HasMore(offset: int, limit: int, total: int): (r: bool)
    ensures IsInt32(offset + limit) ==> (r <==> offset + limit < total)
  {
    WrapInt32(offset + limit) < total
  }

  /**
   * With an offset near `Integer.MAX_VALUE` the sum wraps to a negative
   * number and `hasMore` is true even for an empty table.
   */
  lemma HasMoreOverflows(limit: int)
    requires 1 <= limit <= MaxLimit
    ensures HasMore(Int32Max, limit, 0)
  {
    assert WrapInt32(Int32Max + limit) == Int32Min + limit - 1;
  }

  /**
   * `hasMore` as evidently intended: the sum taken without wrap-around, as
   * `(long) offset + limit < totalCount` would compute it.
   */
  function HasMoreExact(offset: int, limit: int, total: int): (r: bool)
    ensures IsInt32(offset + limit) ==> r == HasMore(offset, limit, total)
  {
    offset + limit < total
  }

  // ---------------------------------------------------------------------------
  // Response shaping after the store has answered

  /** `handleGetUser` once `getById` has returned or thrown. */
  function GetUserResponse(codec: JsonCodec, id: int, found: Result<Option<UserValue>>): (r: Response)
    ensures found.Failure? ==> r == CreateErrorResponse(codec, 500, GetFailed + found.error)
    ensures found == Success(None) ==> r == CreateErrorResponse(codec, 404, UserNotFound(id))
    ensures found.Success? && found.value.Some? ==> r == CreateSuccessResponse(codec, 200, UserData(found.value.value))
  {
    match found
    case Failure(e) => CreateErrorResponse(codec, 500, GetFailed + e)
    case Success(None) => CreateErrorResponse(codec, 404, UserNotFound(id))
    case Success(Some(u)) => CreateSuccessResponse(codec, 200, UserData(u))
  }

  /** `handleUpdateUser` once the re-read `getById` after a successful update has returned or thrown. */
  function UpdatedUserResponse(codec: JsonCodec, again: Result<Option<UserValue>>): (r: Response)
    ensures again.Failure? ==> r == CreateErrorResponse(codec, 500, UpdateFailed + again.error)
    ensures again == Success(None) ==> r == CreateSuccessResponse(codec, 200, NullData)
    ensures again.Success? && again.value.Some? ==> r == CreateSuccessResponse(codec, 200, UserData(again.value.value))
  {
    match again
    case Failure(e) => CreateErrorResponse(codec, 500, UpdateFailed + e)
    case Success(None) => CreateSuccessResponse(codec, 200, NullData)
    case Success(Some(u)) => CreateSuccessResponse(codec, 200, UserData(u))
  }

  /** `handleListUsers` once `list` has returned and `getCount` has returned or thrown. */
  function ListUsersResponse(codec: JsonCodec, page: PageRequest, users: seq<UserValue>, total: Result<int>): (r: Response)
    ensures total.Failure? ==> r == CreateErrorResponse(codec, 500, ListFailed + total.error)
    ensures total.Success? ==>
              r == CreateSuccessResponse(codec, 200, UserListData(users,
                     Pagination(page.limit, page.offset, total.value, HasMore(page.offset, page.limit, total.value))))
  {
    match total
    case Failure(e) => CreateErrorResponse(codec, 500, ListFailed + e)
    case Success(n) =>
      CreateSuccessResponse(codec, 200, UserListData(users,
        Pagination(page.limit, page.offset, n, HasMore(page.offset, page.limit, n))))
  }
}
