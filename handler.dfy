/*
 * The Lambda handler itself: one object holding the DAO and the JSON mapper,
 * whose methods route a request, call the DAO and shape the response. Each
 * method is proved to do exactly what its specification in `HandlerSpec`
 * says, against the DAO's state before and after.
 */
module Handler {
  import opened JavaLang
  import opened Users
  import opened Dao
  import opened HandlerLogic
  import opened HandlerSpec

  /** The value of what `getById` handed back: the bean's fields, `null`, or the exception. */
  function Snapshot(r: Result<Option<User>>): (s: Result<Option<UserValue>>)
    reads if r.Success? && r.value.Some? then {r.value.value} else {}
    ensures s.Success? <==> r.Success?
    ensures s.Failure? ==> s.error == r.error
    ensures s.Success? ==> (s.value.Some? <==> r.value.Some?)
    ensures s.Success? && s.value.Some? ==> s.value.value == r.value.value.Value()
  {
    match r
    case Failure(e) => Failure(e)
    case Success(None) => Success(None)
    case Success(Some(u)) => Success(Some(u.Value()))
  }

  /** The values of a list of beans, in order: what serialising the list writes. */
  function Values(us: seq<User>): (vs: seq<UserValue>)
    reads us
    ensures |vs| == |us|
    ensures forall k :: 0 <= k < |us| ==> vs[k] == us[k].Value()
  {
    if us == [] then [] else Values(us[..|us| - 1]) + [us[|us| - 1].Value()]
  }

  class UserHandler {
    const dao: UserDao
    const codec: JsonCodec

    constructor (dao: UserDao, codec: JsonCodec)
      ensures this.dao == dao && this.codec == codec
    {
      this.dao := dao;
      this.codec := codec;
    }

    /** `handleRequest`: default a null method or path, route, and turn an escaping exception into a 500. */
    method HandleRequest(req: Request) returns (resp: Response)
      requires dao.Valid()
      modifies dao
      ensures dao.Valid()
      ensures Outcome(dao.State(), resp) == Serve(old(dao.State()), dao.Connection(), codec, req)
    {
      var httpMethod := req.httpMethod.GetOr("GET");
      var path := req.rawPath.GetOr("/");
      var routed := RouteRequest(httpMethod, path, req);
      match routed
      case Success(r) =>
        resp := r;
      case Failure(e) =>
        resp := CreateErrorResponse(codec, 500, InternalErrorPrefix + e);
    }

    /** `routeRequest`: the switch on the method, then the path; a failing `Integer.parseInt` escapes. */
    method RouteRequest(httpMethod: string, path: string, req: Request) returns (r: Result<Response>)
      requires dao.Valid()
      modifies dao
      ensures dao.Valid()
      ensures var spec := RouteSpec(old(dao.State()), dao.Connection(), codec, httpMethod, path, req);
              && (r.Success? <==> spec.Success?)
              && (r.Success? ==> spec.value == Outcome(dao.State(), r.value))
              && (r.Failure? ==> r.error == spec.error && dao.State() == old(dao.State()))
    {
      ghost var route := ClassifyRoute(httpMethod, path);
      var resp: Response;
      if httpMethod == "POST" {
        if path == UsersPath {
          assert route == CreateRoute;
          resp := HandleCreateUser(req);
          return Success(resp);
        }
      } else if httpMethod == "GET" && path == UsersPath {
        assert route == ListRoute;
        resp := HandleListUsers(req);
        return Success(resp);
      } else if httpMethod == "GET" || httpMethod == "PUT" || httpMethod == "DELETE" {
        var matched := MatchUserId(path);
        if matched.Some? {
          assert route == IdRoute(httpMethod, matched.value);
          var userId := ParseInt(Some(matched.value));
          if userId.Failure? {
            return Failure(userId.error);
          }
          if httpMethod == "GET" {
            assert route == GetRoute(userId.value);
            resp := HandleGetUser(userId.value);
          } else if httpMethod == "PUT" {
            assert route == UpdateRoute(userId.value);
            resp := HandleUpdateUser(userId.value, req);
          } else {
            assert route == DeleteRoute(userId.value);
            resp := HandleDeleteUser(userId.value);
          }
          return Success(resp);
        }
      }
      assert route == NoRoute;
      r := Success(CreateErrorResponse(codec, 404, EndpointNotFound(httpMethod, path)));
    }

    /** POST /users: require a body, read it, check the three required fields in order, insert. */
    method HandleCreateUser(req: Request) returns (resp: Response)
      requires dao.Valid()
      modifies dao
      ensures dao.Valid()
      ensures Outcome(dao.State(), resp) == CreateSpec(old(dao.State()), dao.Connection(), codec, req.body)
    {
      var body := req.body;
      if body.None? || IsBlank(body.value) {
        return CreateErrorResponse(codec, 400, BodyRequired);
      }
      var read := codec.readUser(body.value);
      if read.Failure? {
        return CreateErrorResponse(codec, 500, CreateFailed + read.error);
      }
      var u := read.value;
      var user := new User.WithFields(u.id, u.username, u.email, u.password, u.score,
                                      u.walletAddress, u.walletType, u.bindTime);
      if !Present(user.GetUsername()) {
        return CreateErrorResponse(codec, 400, UsernameRequired);
      }
      if !Present(user.GetEmail()) {
        return CreateErrorResponse(codec, 400, EmailRequired);
      }
      if !Present(user.GetPassword()) {
        return CreateErrorResponse(codec, 400, PasswordRequired);
      }
      var created := dao.Create(user);
      match created
      case Failure(e) =>
        resp := CreateErrorResponse(codec, 500, CreateFailed + e);
      case Success(createdUser) =>
        resp := CreateSuccessResponse(codec, 201, UserData(createdUser.Value()));
    }

    /** GET /users/{id}: the user, 404 when there is none, 500 when the store fails. */
    method HandleGetUser(userId: int) returns (resp: Response)
      requires dao.Valid()
      ensures Outcome(dao.State(), resp) == GetSpec(dao.State(), dao.Connection(), codec, userId)
    {
      var user := dao.GetById(userId);
      resp := GetUserResponse(codec, userId, Snapshot(user));
    }

    /** PUT /users/{id}: validate as for create, update all columns, answer with the row read back. */
    method HandleUpdateUser(userId: int, req: Request) returns (resp: Response)
      requires dao.Valid()
      modifies dao
      ensures dao.Valid()
      ensures Outcome(dao.State(), resp) == UpdateSpec(old(dao.State()), dao.Connection(), codec, userId, req.body)
    {
      var body := req.body;
      if body.None? || IsBlank(body.value) {
        return CreateErrorResponse(codec, 400, BodyRequired);
      }
      var read := codec.readUser(body.value);
      if read.Failure? {
        return CreateErrorResponse(codec, 500, UpdateFailed + read.error);
      }
      var u := read.value;
      var user := new User.WithFields(u.id, u.username, u.email, u.password, u.score,
                                      u.walletAddress, u.walletType, u.bindTime);
      if !Present(user.GetUsername()) {
        return CreateErrorResponse(codec, 400, UsernameRequired);
      }
      if !Present(user.GetEmail()) {
        return CreateErrorResponse(codec, 400, EmailRequired);
      }
      if !Present(user.GetPassword()) {
        return CreateErrorResponse(codec, 400, PasswordRequired);
      }
      var updated := dao.Update(userId, user);
      if updated.Failure? {
        return CreateErrorResponse(codec, 500, UpdateFailed + updated.error);
      }
      if !updated.value {
        return CreateErrorResponse(codec, 404, UserNotFound(userId));
      }
      var updatedUser := dao.GetById(userId);
      resp := UpdatedUserResponse(codec, Snapshot(updatedUser));
    }

    /** DELETE /users/{id}: 404 when no row was deleted, a fixed message otherwise. */
    method HandleDeleteUser(userId: int) returns (resp: Response)
      requires dao.Valid()
      modifies dao
      ensures dao.Valid()
      ensures Outcome(dao.State(), resp) == DeleteSpec(old(dao.State()), dao.Connection(), codec, userId)
    {
      var deleted := dao.Delete(userId);
      if deleted.Failure? {
        return CreateErrorResponse(codec, 500, DeleteFailed + deleted.error);
      }
      if !deleted.value {
        return CreateErrorResponse(codec, 404, UserNotFound(userId));
      }
      resp := CreateSuccessResponse(codec, 200, MessageData(UserDeleted));
    }

    /** GET /users: validate limit and offset, fetch the page and the total, compute `hasMore`. */
    method HandleListUsers(req: Request) returns (resp: Response)
      requires dao.Valid()
      ensures Outcome(dao.State(), resp) == ListSpec(dao.State(), dao.Connection(), codec, req.queryStringParameters)
    {
      var params := ParseListParams(req.queryStringParameters);
      if params.Failure? {
        return CreateErrorResponse(codec, 400, params.error);
      }
      var limit, offset := params.value.limit, params.value.offset;
      var users := dao.List(limit, offset);
      if users.Failure? {
        return CreateErrorResponse(codec, 500, ListFailed + users.error);
      }
      var totalCount := dao.GetCount();
      assert Values(users.value) == PageUsers(dao.State(), limit, offset);
      resp := ListUsersResponse(codec, params.value, Values(users.value), totalCount);
    }
  }
}
