/*
 * What each request does to the users table and what it answers, as
 * functions of the table before the request and of the connection outcome
 * every DAO call of that request sees. The imperative handler is proved to
 * behave exactly like these functions; the lemmas below state what the
 * handler promises its callers.
 */
module HandlerSpec {
  import opened JavaLang
  import opened Users
  import opened Dao
  import opened HandlerLogic
  import Db

  /** The table after a request, and the response to it. */
  datatype Outcome = Outcome(table: Table, response: Response)

  /** What `Db.getConnection()` yields: the settings it connected with, or its exception's message. */
  type Connection = Result<Db.Settings>

  /** What `getById` returns: the mapped row, `null`, or the exception's message. */
  function Found(t: Table, conn: Connection, id: int): (r: Result<Option<UserValue>>)
    ensures conn.Failure? ==> r == Failure(conn.error)
    ensures conn.Success? ==> r.Success? && (r.value.Some? <==> Lookup(t, id).Some?)
    ensures conn.Success? && Lookup(t, id).Some? ==> r == Success(Some(UserOfRow(Lookup(t, id).value)))
  {
    match conn
    case Failure(e) => Failure(e)
    case Success(_) =>
      match Lookup(t, id)
      case None => Success(None)
      case Some(row) => Success(Some(UserOfRow(row)))
  }

  /** POST /users */
  function CreateSpec(t: Table, conn: Connection, codec: JsonCodec, body: Option<string>): (o: Outcome)
    requires TableValid(t)
    ensures TableValid(o.table)
    ensures o.table != t <==>
              && HasBody(body) && codec.readUser(body.value).Success?
              && MissingField(codec.readUser(body.value).value).None? && conn.Success?
    ensures o.table != t ==> Count(o.table) == Count(t) + 1
  {
    if !HasBody(body) then Outcome(t, CreateErrorResponse(codec, 400, BodyRequired))
    else match codec.readUser(body.value)
      case Failure(e) => Outcome(t, CreateErrorResponse(codec, 500, CreateFailed + e))
      case Success(u) =>
        match MissingField(u)
        case Some(message) => Outcome(t, CreateErrorResponse(codec, 400, message))
        case None =>
          match conn
          case Failure(e) => Outcome(t, CreateErrorResponse(codec, 500, CreateFailed + e))
          case Success(_) =>
            Outcome(Inserted(t, u), CreateSuccessResponse(codec, 201, UserData(u.(id := Some(t.nextId)))))
  }

  /** GET /users/{id} */
  function GetSpec(t: Table, conn: Connection, codec: JsonCodec, id: int): (o: Outcome)
    ensures o.table == t
    ensures o.response.statusCode == 404 <==> conn.Success? && Lookup(t, id).None?
  {
    Outcome(t, GetUserResponse(codec, id, Found(t, conn, id)))
  }

  /** PUT /users/{id} */
  function UpdateSpec(t: Table, conn: Connection, codec: JsonCodec, id: int, body: Option<string>): (o: Outcome)
    requires TableValid(t)
    ensures TableValid(o.table) && o.table.nextId == t.nextId && Count(o.table) == Count(t)
    ensures forall k :: k != id ==> Lookup(o.table, k) == Lookup(t, k)
  {
    if !HasBody(body) then Outcome(t, CreateErrorResponse(codec, 400, BodyRequired))
    else match codec.readUser(body.value)
      case Failure(e) => Outcome(t, CreateErrorResponse(codec, 500, UpdateFailed + e))
      case Success(u) =>
        match MissingField(u)
        case Some(message) => Outcome(t, CreateErrorResponse(codec, 400, message))
        case None =>
          match conn
          case Failure(e) => Outcome(t, CreateErrorResponse(codec, 500, UpdateFailed + e))
          case Success(_) =>
            if Lookup(t, id).None? then Outcome(t, CreateErrorResponse(codec, 404, UserNotFound(id)))
            else
              var t' := Updated(t, id, u);
              Outcome(t', UpdatedUserResponse(codec, Found(t', conn, id)))
  }

  /** DELETE /users/{id} */
  function DeleteSpec(t: Table, conn: Connection, codec: JsonCodec, id: int): (o: Outcome)
    requires TableValid(t)
    ensures TableValid(o.table) && o.table.nextId == t.nextId
    ensures forall k :: k != id ==> Lookup(o.table, k) == Lookup(t, k)
    ensures o.response.statusCode == 404 <==> conn.Success? && Lookup(t, id).None?
  {
    match conn
    case Failure(e) => Outcome(t, CreateErrorResponse(codec, 500, DeleteFailed + e))
    case Success(_) =>
      if Lookup(t, id).None? then Outcome(t, CreateErrorResponse(codec, 404, UserNotFound(id)))
      else Outcome(Deleted(t, id), CreateSuccessResponse(codec, 200, MessageData(UserDeleted)))
  }

  /** GET /users */
  function ListSpec(t: Table, conn: Connection, codec: JsonCodec, query: Option<map<string, Option<string>>>): (o: Outcome)
    ensures o.table == t
  {
    match ParseListParams(query)
    case Failure(message) => Outcome(t, CreateErrorResponse(codec, 400, message))
    case Success(page) =>
      match conn
      case Failure(e) => Outcome(t, CreateErrorResponse(codec, 500, ListFailed + e))
      case Success(_) =>
        Outcome(t, ListUsersResponse(codec, page, PageUsers(t, page.limit, page.offset), Success(Count(t))))
  }

  /** `routeRequest`: the dispatch, or the exception that escapes it. */
  function RouteSpec(t: Table, conn: Connection, codec: JsonCodec, httpMethod: string, path: string, req: Request): (r: Result<Outcome>)
    requires TableValid(t)
    ensures r.Failure? <==> ClassifyRoute(httpMethod, path).RouteError?
    ensures r.Success? ==> TableValid(r.value.table)
  {
    match ClassifyRoute(httpMethod, path)
    case CreateRoute => Success(CreateSpec(t, conn, codec, req.body))
    case ListRoute => Success(ListSpec(t, conn, codec, req.queryStringParameters))
    case GetRoute(id) => Success(GetSpec(t, conn, codec, id))
    case UpdateRoute(id) => Success(UpdateSpec(t, conn, codec, id, req.body))
    case DeleteRoute(id) => Success(DeleteSpec(t, conn, codec, id))
    case NoRoute => Success(Outcome(t, CreateErrorResponse(codec, 404, EndpointNotFound(httpMethod, path))))
    case RouteError(e) => Failure(e)
  }

  /** `handleRequest`: null defaults, dispatch, and the catch-all 500. */
  function Serve(t: Table, conn: Connection, codec: JsonCodec, req: Request): (o: Outcome)
    requires TableValid(t)
    ensures TableValid(o.table)
    ensures var route := ClassifyRoute(MethodOf(req), PathOf(req));
            !(route.CreateRoute? || route.UpdateRoute? || route.DeleteRoute?) ==> o.table == t
  {
    match RouteSpec(t, conn, codec, MethodOf(req), PathOf(req), req)
    case Success(o) => o
    case Failure(e) => Outcome(t, CreateErrorResponse(codec, 500, InternalErrorPrefix + e))
  }

  // ---------------------------------------------------------------------------
  // Properties

  /** The status codes the handler answers with. */
  predicate KnownStatus(code: int) {
    code == 200 || code == 201 || code == 400 || code == 404 || code == 500
  }

  /**
   * The shape every response has: JSON headers, a known status, an envelope
   * that holds data exactly for 200 and 201; and a valid table behind it.
   */
  predicate WellFormed(o: Outcome) {
    && TableValid(o.table)
    && o.response.headers == JsonHeaders
    && KnownStatus(o.response.statusCode)
    && (o.response.body.Succeeded? <==> o.response.statusCode in {200, 201})
  }

  /** Every request is answered with the uniform JSON envelope and leaves a valid table. */
  lemma EnvelopeUniform(t: Table, conn: Connection, codec: JsonCodec, req: Request)
    requires TableValid(t)
    ensures WellFormed(Serve(t, conn, codec, req))
  {
    match ClassifyRoute(MethodOf(req), PathOf(req))
    case CreateRoute => CreateWellFormed(t, conn, codec, req.body);
    case ListRoute => ListWellFormed(t, conn, codec, req.queryStringParameters);
    case GetRoute(id) => GetWellFormed(t, conn, codec, id);
    case UpdateRoute(id) => UpdateWellFormed(t, conn, codec, id, req.body);
    case DeleteRoute(id) => DeleteWellFormed(t, conn, codec, id);
    case NoRoute =>
    case RouteError(e) =>
  }

  lemma CreateWellFormed(t: Table, conn: Connection, codec: JsonCodec, body: Option<string>)
    requires TableValid(t)
    ensures WellFormed(CreateSpec(t, conn, codec, body))
  {
    if HasBody(body) && codec.readUser(body.value).Success? && MissingField(codec.readUser(body.value).value).None?
       && conn.Success? {
      var u := codec.readUser(body.value).value;
      assert TableValid(Inserted(t, u));
    }
  }

  lemma GetWellFormed(t: Table, conn: Connection, codec: JsonCodec, id: int)
    requires TableValid(t)
    ensures WellFormed(GetSpec(t, conn, codec, id))
  {
  }

  lemma UpdateWellFormed(t: Table, conn: Connection, codec: JsonCodec, id: int, body: Option<string>)
    requires TableValid(t)
    ensures WellFormed(UpdateSpec(t, conn, codec, id, body))
  {
    if HasBody(body) && codec.readUser(body.value).Success? && MissingField(codec.readUser(body.value).value).None?
       && conn.Success? && Lookup(t, id).Some? {
      var u := codec.readUser(body.value).value;
      var t' := Updated(t, id, u);
      assert TableValid(t');
      assert UpdateSpec(t, conn, codec, id, body) == Outcome(t', UpdatedUserResponse(codec, Found(t', conn, id)));
    }
  }

  lemma DeleteWellFormed(t: Table, conn: Connection, codec: JsonCodec, id: int)
    requires TableValid(t)
    ensures WellFormed(DeleteSpec(t, conn, codec, id))
  {
  }

  lemma ListWellFormed(t: Table, conn: Connection, codec: JsonCodec, query: Option<map<string, Option<string>>>)
    requires TableValid(t)
    ensures WellFormed(ListSpec(t, conn, codec, query))
  {
  }

  /**
   * A 400 never touches the store: the table is left as it was, and the same
   * request would have been answered the same way whatever the table held
   * and whether or not a connection could be had.
   */
  lemma BadRequestNeverTouchesStore(t: Table, conn: Connection, codec: JsonCodec, req: Request,
                                    t2: Table, conn2: Connection)
    requires TableValid(t) && TableValid(t2)
    requires Serve(t, conn, codec, req).response.statusCode == 400
    ensures Serve(t, conn, codec, req).table == t
    ensures Serve(t2, conn2, codec, req) == Outcome(t2, Serve(t, conn, codec, req).response)
  {
    var m, p := MethodOf(req), PathOf(req);
    match ClassifyRoute(m, p)
    case CreateRoute =>
      CreateBadRequest(t, conn, codec, req.body, t2, conn2);
    case UpdateRoute(id) =>
      UpdateBadRequest(t, conn, codec, id, req.body, t2, conn2);
    case ListRoute =>
    case _ =>
  }

  lemma CreateBadRequest(t: Table, conn: Connection, codec: JsonCodec, body: Option<string>,
                         t2: Table, conn2: Connection)
    requires TableValid(t) && TableValid(t2)
    requires CreateSpec(t, conn, codec, body).response.statusCode == 400
    ensures CreateSpec(t, conn, codec, body).table == t
    ensures CreateSpec(t2, conn2, codec, body) == Outcome(t2, CreateSpec(t, conn, codec, body).response)
  {
    CreateValidation(t, conn, codec, body);
    CreateValidation(t2, conn2, codec, body);
  }

  lemma UpdateBadRequest(t: Table, conn: Connection, codec: JsonCodec, id: int, body: Option<string>,
                         t2: Table, conn2: Connection)
    requires TableValid(t) && TableValid(t2)
    requires UpdateSpec(t, conn, codec, id, body).response.statusCode == 400
    ensures UpdateSpec(t, conn, codec, id, body).table == t
    ensures UpdateSpec(t2, conn2, codec, id, body) == Outcome(t2, UpdateSpec(t, conn, codec, id, body).response)
  {
    UpdateValidation(t, conn, codec, id, body);
    UpdateValidation(t2, conn2, codec, id, body);
  }

  /** The requests create and update both refuse with 400: no usable body, or a required field missing. */
  predicate Rejected(codec: JsonCodec, body: Option<string>) {
    !HasBody(body) || (codec.readUser(body.value).Success? && MissingField(codec.readUser(body.value).value).Some?)
  }

  /** The 400 message for a rejected request: the body check first, then the first missing field. */
  function RejectionMessage(codec: JsonCodec, body: Option<string>): string
    requires Rejected(codec, body)
  {
    if !HasBody(body) then BodyRequired else MissingField(codec.readUser(body.value).value).value
  }

  /**
   * Create answers 400 exactly for a null or blank body, or for a readable
   * body missing username, email or password (checked in that order); the
   * table is then left as it was.
   */
  lemma CreateValidation(t: Table, conn: Connection, codec: JsonCodec, body: Option<string>)
    requires TableValid(t)
    ensures CreateSpec(t, conn, codec, body).response.statusCode == 400 <==> Rejected(codec, body)
    ensures Rejected(codec, body) ==>
              CreateSpec(t, conn, codec, body) == Outcome(t, CreateErrorResponse(codec, 400, RejectionMessage(codec, body)))
  {
    if HasBody(body) && codec.readUser(body.value).Success? && MissingField(codec.readUser(body.value).value).None?
       && conn.Success? {
      var u := codec.readUser(body.value).value;
      assert CreateSpec(t, conn, codec, body).response
             == CreateSuccessResponse(codec, 201, UserData(u.(id := Some(t.nextId))));
    }
  }

  /** Update validates exactly as create does, before the store is consulted. */
  lemma UpdateValidation(t: Table, conn: Connection, codec: JsonCodec, id: int, body: Option<string>)
    requires TableValid(t)
    ensures UpdateSpec(t, conn, codec, id, body).response.statusCode == 400 <==> Rejected(codec, body)
    ensures Rejected(codec, body) ==>
              UpdateSpec(t, conn, codec, id, body) == Outcome(t, CreateErrorResponse(codec, 400, RejectionMessage(codec, body)))
  {
    if HasBody(body) && codec.readUser(body.value).Success? && MissingField(codec.readUser(body.value).value).None?
       && conn.Success? && Lookup(t, id).Some? {
      var u := codec.readUser(body.value).value;
      var t' := Updated(t, id, u);
      assert UpdateSpec(t, conn, codec, id, body).response == UpdatedUserResponse(codec, Found(t', conn, id));
    }
  }

  /**
   * A body the JSON mapper cannot read is a 500 "Failed to create user: ..."
   * or "Failed to update user: ...", not a 400, and the store is not touched.
   */
  lemma MalformedBodyIsServerError(t: Table, conn: Connection, codec: JsonCodec, id: int, body: Option<string>)
    requires TableValid(t)
    requires HasBody(body) && codec.readUser(body.value).Failure?
    ensures CreateSpec(t, conn, codec, body)
            == Outcome(t, CreateErrorResponse(codec, 500, CreateFailed + codec.readUser(body.value).error))
    ensures UpdateSpec(t, conn, codec, id, body)
            == Outcome(t, CreateErrorResponse(codec, 500, UpdateFailed + codec.readUser(body.value).error))
  {
  }

  /**
   * A created user gets a previously unused positive id, is answered with 201
   * and exactly the request's fields under that id, and reading that id back
   * gives the same user.
   */
  lemma CreateThenGet(t: Table, conn: Connection, codec: JsonCodec, body: Option<string>)
    requires TableValid(t) && conn.Success?
    requires HasBody(body) && codec.readUser(body.value).Success?
    requires MissingField(codec.readUser(body.value).value).None?
    ensures var u := codec.readUser(body.value).value;
            var created := u.(id := Some(t.nextId));
            var o := CreateSpec(t, conn, codec, body);
            && t.nextId >= 1 && Lookup(t, t.nextId).None?
            && o.table == Inserted(t, u)
            && o.response == CreateSuccessResponse(codec, 201, UserData(created))
            && GetSpec(o.table, conn, codec, t.nextId) == Outcome(o.table, CreateSuccessResponse(codec, 200, UserData(created)))
  {
    var u := codec.readUser(body.value).value;
    var t' := Inserted(t, u);
    assert Lookup(t', t.nextId) == Some(BindRow(t.nextId, u));
    assert UserOfRow(BindRow(t.nextId, u)) == u.(id := Some(t.nextId));
  }

  /** Get, update and delete of an id that no row has answer 404 and leave the table alone. */
  lemma AbsentIdNotFound(t: Table, conn: Connection, codec: JsonCodec, id: int, body: Option<string>)
    requires TableValid(t) && conn.Success? && Lookup(t, id).None?
    ensures GetSpec(t, conn, codec, id) == Outcome(t, CreateErrorResponse(codec, 404, UserNotFound(id)))
    ensures DeleteSpec(t, conn, codec, id) == Outcome(t, CreateErrorResponse(codec, 404, UserNotFound(id)))
    ensures HasBody(body) && codec.readUser(body.value).Success? && MissingField(codec.readUser(body.value).value).None? ==>
              UpdateSpec(t, conn, codec, id, body) == Outcome(t, CreateErrorResponse(codec, 404, UserNotFound(id)))
  {
  }

  /**
   * A successful update answers with the row as read back after the update
   * (the stored request fields under the path id), not with the request body.
   */
  lemma UpdateAnswersStoredRow(t: Table, conn: Connection, codec: JsonCodec, id: int, body: Option<string>)
    requires TableValid(t) && conn.Success? && Lookup(t, id).Some?
    requires HasBody(body) && codec.readUser(body.value).Success?
    requires MissingField(codec.readUser(body.value).value).None?
    ensures var u := codec.readUser(body.value).value;
            UpdateSpec(t, conn, codec, id, body)
            == Outcome(Updated(t, id, u), CreateSuccessResponse(codec, 200, UserData(u.(id := Some(id)))))
  {
    var u := codec.readUser(body.value).value;
    assert Lookup(Updated(t, id, u), id) == Some(BindRow(id, u));
  }

  /** Applying the same update twice leaves the table as after the first, and answers the same. */
  lemma UpdateIdempotent(t: Table, conn: Connection, codec: JsonCodec, id: int, body: Option<string>)
    requires TableValid(t)
    ensures var once := UpdateSpec(t, conn, codec, id, body);
            UpdateSpec(once.table, conn, codec, id, body) == once
  {
    var once := UpdateSpec(t, conn, codec, id, body);
    if HasBody(body) && codec.readUser(body.value).Success? && MissingField(codec.readUser(body.value).value).None?
       && conn.Success? && Lookup(t, id).Some? {
      var u := codec.readUser(body.value).value;
      var t' := Updated(t, id, u);
      UpdatedIdempotent(t, id, u);
      assert once == Outcome(t', UpdatedUserResponse(codec, Found(t', conn, id)));
    }
  }

  /**
   * Create, get, delete, get: after a successful delete the row is gone, a
   * second get and a second delete of that id answer 404.
   */
  lemma DeleteThenGet(t: Table, conn: Connection, codec: JsonCodec, id: int)
    requires TableValid(t) && conn.Success? && Lookup(t, id).Some?
    ensures var o := DeleteSpec(t, conn, codec, id);
            && o == Outcome(Deleted(t, id), CreateSuccessResponse(codec, 200, MessageData(UserDeleted)))
            && GetSpec(o.table, conn, codec, id) == Outcome(o.table, CreateErrorResponse(codec, 404, UserNotFound(id)))
            && DeleteSpec(o.table, conn, codec, id) == Outcome(o.table, CreateErrorResponse(codec, 404, UserNotFound(id)))
  {
  }

  /**
   * A listed page is the rows in id order after skipping `offset`, at most
   * `limit` of them, with the total row count and `hasMore` as computed.
   */
  lemma ListAnswersPage(t: Table, conn: Connection, codec: JsonCodec, query: Option<map<string, Option<string>>>)
    requires TableValid(t) && conn.Success? && ParseListParams(query).Success?
    ensures var p := ParseListParams(query).value;
            var users := PageUsers(t, p.limit, p.offset);
            && |users| <= p.limit
            && (p.offset >= Count(t) ==> users == [])
            && (forall k :: 0 <= k < |users| ==> users[k] == UserOfRow(t.rows[p.offset + k]))
            && (forall j, k :: 0 <= j < k < |users| ==> users[j].id.value < users[k].id.value)
            && ListSpec(t, conn, codec, query)
               == Outcome(t, CreateSuccessResponse(codec, 200, UserListData(users,
                    Pagination(p.limit, p.offset, Count(t), HasMore(p.offset, p.limit, Count(t))))))
  {
    var p := ParseListParams(query).value;
    var page := Page(t, p.limit, p.offset);
    assert Ascending(page);
  }

  /**
   * When `offset + limit` does not overflow, `hasMore` is true exactly when
   * rows remain after the page that was returned.
   */
  lemma HasMoreMeansRowsRemain(t: Table, limit: nat, offset: nat)
    requires 1 <= limit && IsInt32(offset + limit)
    ensures HasMore(offset, limit, Count(t)) <==> offset + |Page(t, limit, offset)| < Count(t)
  {
  }

  /**
   * `hasMore` as evidently intended is true exactly when rows remain after
   * the page returned, for every offset the handler accepts.
   */
  lemma HasMoreExactMeansRowsRemain(t: Table, limit: nat, offset: nat)
    requires 1 <= limit
    ensures HasMoreExact(offset, limit, Count(t)) <==> offset + |Page(t, limit, offset)| < Count(t)
  {
  }

  /** When no connection can be had, nothing changes and nothing succeeds. */
  lemma ConnectionFailureChangesNothing(t: Table, e: string, codec: JsonCodec, req: Request)
    requires TableValid(t)
    ensures Serve(t, Failure(e), codec, req).table == t
    ensures Serve(t, Failure(e), codec, req).response.body.Failed?
  {
    match ClassifyRoute(MethodOf(req), PathOf(req))
    case CreateRoute =>
      assert HasBody(req.body) && codec.readUser(req.body.value).Success?
             && MissingField(codec.readUser(req.body.value).value).None? ==>
             CreateSpec(t, Failure(e), codec, req.body).response == CreateErrorResponse(codec, 500, CreateFailed + e);
    case UpdateRoute(id) =>
      assert HasBody(req.body) && codec.readUser(req.body.value).Success?
             && MissingField(codec.readUser(req.body.value).value).None? ==>
             UpdateSpec(t, Failure(e), codec, id, req.body).response == CreateErrorResponse(codec, 500, UpdateFailed + e);
    case _ =>
  }

  /**
   * A store that cannot be reached is answered 500 with the operation's
   * prefix and the store's message, once the request has passed validation.
   */
  lemma StoreFailureIsServerError(t: Table, e: string, codec: JsonCodec, id: int, body: Option<string>,
                                  query: Option<map<string, Option<string>>>)
    requires TableValid(t)
    ensures GetSpec(t, Failure(e), codec, id) == Outcome(t, CreateErrorResponse(codec, 500, GetFailed + e))
    ensures DeleteSpec(t, Failure(e), codec, id) == Outcome(t, CreateErrorResponse(codec, 500, DeleteFailed + e))
    ensures ParseListParams(query).Success? ==>
              ListSpec(t, Failure(e), codec, query) == Outcome(t, CreateErrorResponse(codec, 500, ListFailed + e))
    ensures HasBody(body) && codec.readUser(body.value).Success? && MissingField(codec.readUser(body.value).value).None? ==>
              && CreateSpec(t, Failure(e), codec, body) == Outcome(t, CreateErrorResponse(codec, 500, CreateFailed + e))
              && UpdateSpec(t, Failure(e), codec, id, body) == Outcome(t, CreateErrorResponse(codec, 500, UpdateFailed + e))
  {
  }

  /** The list parameters are checked first: list answers 400 exactly when they are rejected, with that message. */
  lemma ListValidation(t: Table, conn: Connection, codec: JsonCodec, query: Option<map<string, Option<string>>>)
    ensures ListSpec(t, conn, codec, query).response.statusCode == 400 <==> ParseListParams(query).Failure?
    ensures ParseListParams(query).Failure? ==>
              ListSpec(t, conn, codec, query) == Outcome(t, CreateErrorResponse(codec, 400, ParseListParams(query).error))
  {
  }

  /** An unknown route answers 404 "Endpoint not found: <method> <path>", after the null defaults. */
  lemma UnknownRouteNotFound(t: Table, conn: Connection, codec: JsonCodec, req: Request)
    requires TableValid(t) && ClassifyRoute(MethodOf(req), PathOf(req)) == NoRoute
    ensures Serve(t, conn, codec, req)
            == Outcome(t, CreateErrorResponse(codec, 404, EndpointNotFound(MethodOf(req), PathOf(req))))
  {
  }

  /** An id too large for an int escapes routing and is answered 500 "Internal server error: ...". */
  lemma OversizedIdIsServerError(t: Table, conn: Connection, codec: JsonCodec, req: Request, digits: string)
    requires TableValid(t) && HasIdRoute(MethodOf(req))
    requires digits != [] && AllDigits(digits) && DigitsValue(digits) > Int32Max
    requires PathOf(req) == UserIdPrefix + digits
    ensures Serve(t, conn, codec, req)
            == Outcome(t, CreateErrorResponse(codec, 500, InternalErrorPrefix + ForInputString(digits)))
  {
    OversizedIdFails(MethodOf(req), digits);
    var e := ForInputString(digits);
    assert RouteSpec(t, conn, codec, MethodOf(req), PathOf(req), req) == Failure(e);
  }

  /** A request without method and path is `GET /`, which is not a route. */
  lemma NullMethodAndPath(t: Table, conn: Connection, codec: JsonCodec, req: Request)
    requires TableValid(t) && req.httpMethod.None? && req.rawPath.None?
    ensures Serve(t, conn, codec, req) == Outcome(t, CreateErrorResponse(codec, 404, "Endpoint not found: GET /"))
  {
    assert MethodOf(req) == "GET" && PathOf(req) == "/";
    assert ClassifyRoute("GET", "/") == NoRoute;
    assert EndpointNotFound("GET", "/") == "Endpoint not found: GET /";
  }
}
