/*
 * The data access layer over the `users` table. The table is the in-model
 * database: its rows in primary-key order (the order InnoDB keeps them in)
 * and the next AUTO_INCREMENT value. Each DAO call first obtains a
 * connection from the connection provider and fails with that provider's
 * message when it cannot; otherwise it runs its one statement on the table.
 */
module Dao {
  import opened JavaLang
  import opened Users
  import opened Db

  /** A row of `users`; the id column is the non-null primary key. */
  datatype Row = Row(
    id: int,
    username: Option<string>,
    email: Option<string>,
    password: Option<string>,
    score: Option<int>,
    walletAddress: Option<string>,
    walletType: Option<string>,
    bindTime: Option<DateTime>)

  /** The table contents, in ascending id order, and the next generated id. */
  datatype Table = Table(rows: seq<Row>, nextId: int)

  predicate Ascending(rows: seq<Row>) {
    forall i, j :: 0 <= i < j < |rows| ==> rows[i].id < rows[j].id
  }

  /** Ids are positive, strictly ascending, and all below the next id to be generated. */
  predicate TableValid(t: Table) {
    && 1 <= t.nextId
    && Ascending(t.rows)
    && forall i :: 0 <= i < |t.rows| ==> 1 <= t.rows[i].id < t.nextId
  }

  /** Where the row with this id sits, if there is one. */
  function IndexOf(rows: seq<Row>, id: int): (r: Option<nat>)
    ensures r.Some? ==> r.value < |rows| && rows[r.value].id == id
    ensures r.None? <==> forall i :: 0 <= i < |rows| ==> rows[i].id != id
  {
    if rows == [] then None
    else if rows[0].id == id then Some(0)
    else match IndexOf(rows[1..], id)
      case None => None
      case Some(k) => Some(k + 1)
  }

  /** `SELECT ... WHERE id = ?` as a lookup. */
  function Lookup(t: Table, id: int): (r: Option<Row>)
    ensures r.Some? ==> r.value.id == id
    ensures r.None? <==> forall i :: 0 <= i < |t.rows| ==> t.rows[i].id != id
  {
    match IndexOf(t.rows, id)
    case None => None
    case Some(i) => Some(t.rows[i])
  }

  /** In a table with unique ids, looking up a row's id finds that row. */
  lemma LookupAt(t: Table, i: int)
    requires Ascending(t.rows) && 0 <= i < |t.rows|
    ensures Lookup(t, t.rows[i].id) == Some(t.rows[i])
  {
    var j := IndexOf(t.rows, t.rows[i].id).value;
    assert t.rows[j].id == t.rows[i].id;
  }

  /** The number of rows `SELECT COUNT(*)` reports. */
  function Count(t: Table): nat {
    |t.rows|
  }

  /**
   * `mapResultSetToUser`: every column goes to the field of the same name;
   * null score and null bind_time stay null.
   */
  function UserOfRow(row: Row): (u: UserValue)
    ensures u.id == Some(row.id)
  {
    UserValue(Some(row.id), row.username, row.email, row.password, row.score,
              row.walletAddress, row.walletType, row.bindTime)
  }

  /**
   * The row an INSERT or UPDATE writes for user `u` under `id`: the seven
   * bound parameters username, email, password, score, wallet_address,
   * wallet_type, bind_time; the user's own id is not bound.
   */
  function BindRow(id: int, u: UserValue): (r: Row)
    ensures r.id == id
    ensures UserOfRow(r) == u.(id := Some(id))
  {
    Row(id, u.username, u.email, u.password, u.score, u.walletAddress, u.walletType, u.bindTime)
  }

  /** Lookups in a table with one more row at its end. */
  lemma LookupAppended(t: Table, row: Row)
    requires Ascending(t.rows + [row])
    ensures Lookup(Table(t.rows + [row], t.nextId + 1), row.id) == Some(row)
    ensures forall id :: id != row.id ==> Lookup(Table(t.rows + [row], t.nextId + 1), id) == Lookup(t, id)
  {
    var r := Table(t.rows + [row], t.nextId + 1);
    assert forall i :: 0 <= i < |t.rows| ==> r.rows[i] == t.rows[i];
    assert Ascending(t.rows);
    LookupAt(r, |t.rows|);
    forall id | id != row.id ensures Lookup(r, id) == Lookup(t, id) {
      var found := IndexOf(t.rows, id);
      if found.Some? {
        LookupAt(t, found.value);
        LookupAt(r, found.value);
      }
    }
  }

  /** Lookups in a table whose row at `i` is replaced by a row with the same id. */
  lemma LookupReplaced(t: Table, i: int, row: Row)
    requires Ascending(t.rows) && 0 <= i < |t.rows| && row.id == t.rows[i].id
    ensures Ascending(t.rows[i := row])
    ensures Lookup(t.(rows := t.rows[i := row]), row.id) == Some(row)
    ensures forall k :: k != row.id ==> Lookup(t.(rows := t.rows[i := row]), k) == Lookup(t, k)
  {
    var r := t.(rows := t.rows[i := row]);
    LookupAt(r, i);
    forall k | k != row.id ensures Lookup(r, k) == Lookup(t, k) {
      var found := IndexOf(t.rows, k);
      if found.Some? {
        LookupAt(t, found.value);
        LookupAt(r, found.value);
      }
    }
  }

  /** Lookups in a table whose row at `i` is removed. */
  lemma LookupRemoved(t: Table, i: int)
    requires Ascending(t.rows) && 0 <= i < |t.rows|
    ensures Ascending(t.rows[..i] + t.rows[i + 1..])
    ensures Lookup(t.(rows := t.rows[..i] + t.rows[i + 1..]), t.rows[i].id) == None
    ensures forall k :: k != t.rows[i].id ==> Lookup(t.(rows := t.rows[..i] + t.rows[i + 1..]), k) == Lookup(t, k)
  {
    var r := t.(rows := t.rows[..i] + t.rows[i + 1..]);
    assert forall j :: 0 <= j < |r.rows| ==> r.rows[j] == t.rows[if j < i then j else j + 1];
    forall k | k != t.rows[i].id ensures Lookup(r, k) == Lookup(t, k) {
      var found := IndexOf(t.rows, k);
      if found.Some? {
        var j := found.value;
        LookupAt(t, j);
        LookupAt(r, if j < i then j else j - 1);
      }
    }
  }

  /** The table after a successful INSERT of `u`: it gets the next id, which no row had. */
  function Inserted(t: Table, u: UserValue): (r: Table)
    requires TableValid(t)
    ensures TableValid(r)
    ensures r.nextId == t.nextId + 1 && Count(r) == Count(t) + 1
    ensures Lookup(t, t.nextId) == None
    ensures Lookup(r, t.nextId) == Some(BindRow(t.nextId, u))
    ensures forall id :: id != t.nextId ==> Lookup(r, id) == Lookup(t, id)
  {
    LookupAppended(t, BindRow(t.nextId, u));
    Table(t.rows + [BindRow(t.nextId, u)], t.nextId + 1)
  }

  /** The table after `UPDATE ... WHERE id = ?`: all seven columns of that row replaced, nothing else. */
  function Updated(t: Table, id: int, u: UserValue): (r: Table)
    requires TableValid(t)
    ensures TableValid(r)
    ensures r.nextId == t.nextId && Count(r) == Count(t)
    ensures Lookup(r, id) == if Lookup(t, id).Some? then Some(BindRow(id, u)) else None
    ensures forall k :: k != id ==> Lookup(r, k) == Lookup(t, k)
  {
    match IndexOf(t.rows, id)
    case None => t
    case Some(i) =>
      LookupReplaced(t, i, BindRow(id, u));
      t.(rows := t.rows[i := BindRow(id, u)])
  }

  /** Running the same UPDATE twice leaves the table as after the first. */
  lemma UpdatedIdempotent(t: Table, id: int, u: UserValue)
    requires TableValid(t)
    ensures Updated(Updated(t, id, u), id, u) == Updated(t, id, u)
  {
    var t' := Updated(t, id, u);
    match IndexOf(t.rows, id)
    case None =>
    case Some(i) =>
      var j := IndexOf(t'.rows, id).value;
      LookupAt(t', i);
      assert t'.rows[j] == t'.rows[i];
      assert t'.rows[j := BindRow(id, u)] == t'.rows;
  }

  /** The table after `DELETE ... WHERE id = ?`: only that row is gone; the id counter stays. */
  function Deleted(t: Table, id: int): (r: Table)
    requires TableValid(t)
    ensures TableValid(r)
    ensures r.nextId == t.nextId
    ensures Count(r) == if Lookup(t, id).Some? then Count(t) - 1 else Count(t)
    ensures Lookup(r, id) == None
    ensures forall k :: k != id ==> Lookup(r, k) == Lookup(t, k)
  {
    match IndexOf(t.rows, id)
    case None => t
    case Some(i) =>
      LookupRemoved(t, i);
      t.(rows := t.rows[..i] + t.rows[i + 1..])
  }

  /**
   * `ORDER BY id LIMIT limit OFFSET offset`: skip `offset` rows in id order,
   * then take at most `limit`; empty once `offset` reaches the row count.
   */
  function Page(t: Table, limit: nat, offset: nat): (r: seq<Row>)
    ensures |r| <= limit
    ensures offset >= Count(t) ==> r == []
    ensures offset < Count(t) ==> |r| == if limit < Count(t) - offset then limit else Count(t) - offset
    ensures forall k :: 0 <= k < |r| ==> r[k] == t.rows[offset + k]
    ensures Ascending(t.rows) ==> Ascending(r)
  {
    if offset >= |t.rows| then []
    else if offset + limit <= |t.rows| then t.rows[offset..offset + limit]
    else t.rows[offset..]
  }

  /** Two consecutive pages together are the page that spans both. */
  lemma {:induction false} PagesConcatenate(t: Table, a: nat, b: nat, offset: nat)
    ensures Page(t, a, offset) + Page(t, b, offset + a) == Page(t, a + b, offset)
  {
    var p, q, whole := Page(t, a, offset), Page(t, b, offset + a), Page(t, a + b, offset);
    assert |p + q| == |whole|;
    forall k | 0 <= k < |whole| ensures (p + q)[k] == whole[k] {
      if k >= |p| {
        assert (p + q)[k] == q[k - |p|];
      }
    }
  }

  /** The users of a page, as `list` maps them. */
  function PageUsers(t: Table, limit: nat, offset: nat): (us: seq<UserValue>)
    ensures |us| == |Page(t, limit, offset)|
    ensures forall k :: 0 <= k < |us| ==> us[k] == UserOfRow(Page(t, limit, offset)[k])
  {
    var page := Page(t, limit, offset);
    seq(|page|, k requires 0 <= k < |page| => UserOfRow(page[k]))
  }

  /** `UserDao`, with the database it talks to. */
  class UserDao {
    var rows: seq<Row>
    var nextId: int
    const env: Environment
    const defaults: Defaults
    const driver: Driver

    function State(): Table
      reads this
    {
      Table(rows, nextId)
    }

    ghost predicate Valid()
      reads this
    {
      TableValid(State())
    }

    /** What `Db.getConnection()` yields for every statement this DAO runs. */
    function Connection(): Result<Settings> {
      GetConnection(env, defaults, driver)
    }

    constructor (initial: Table, env: Environment, defaults: Defaults, driver: Driver)
      requires TableValid(initial)
      ensures Valid() && State() == initial
      ensures this.env == env && this.defaults == defaults && this.driver == driver
    {
      rows, nextId := initial.rows, initial.nextId;
      this.env, this.defaults, this.driver := env, defaults, driver;
    }

    /** INSERT the user's seven columns; on success set the generated id on that same object and return it. */
    method Create(user: User) returns (r: Result<User>)
      requires Valid()
      modifies this, user
      ensures Valid()
      ensures Connection().Failure? ==>
                r == Failure(Connection().error) && State() == old(State()) && user.Value() == old(user.Value())
      ensures Connection().Success? ==>
                && r == Success(user)
                && State() == Inserted(old(State()), old(user.Value()))
                && user.Value() == old(user.Value()).(id := Some(old(nextId)))
    {
      var conn := Connection();
      if conn.Failure? {
        return Failure(conn.error);
      }
      var generated := nextId;
      rows := rows + [Row(generated, user.GetUsername(), user.GetEmail(), user.GetPassword(),
                          user.GetScore(), user.GetWalletAddress(), user.GetWalletType(),
                          user.GetBindTime())];
      nextId := nextId + 1;
      user.SetId(Some(generated));
      r := Success(user);
    }

    /** `mapResultSetToUser`: a fresh bean filled through its setters. */
    method MapResultSetToUser(row: Row) returns (u: User)
      ensures fresh(u) && u.Value() == UserOfRow(row)
    {
      u := new User();
      u.SetId(Some(row.id));
      u.SetUsername(row.username);
      u.SetEmail(row.email);
      u.SetPassword(row.password);
      u.SetScore(row.score);
      u.SetWalletAddress(row.walletAddress);
      u.SetWalletType(row.walletType);
      if row.bindTime.Some? {
        u.SetBindTime(row.bindTime);
      }
    }

    /** The row with this id as a fresh bean, or `null` when there is none; "no such id" is not an error. */
    method GetById(id: int) returns (r: Result<Option<User>>)
      requires Valid()
      ensures Connection().Failure? ==> r == Failure(Connection().error)
      ensures Connection().Success? ==> r.Success? && (r.value.Some? <==> Lookup(State(), id).Some?)
      ensures r.Success? && r.value.Some? ==>
                fresh(r.value.value) && r.value.value.Value() == UserOfRow(Lookup(State(), id).value)
    {
      var conn := Connection();
      if conn.Failure? {
        return Failure(conn.error);
      }
      var found := IndexOf(rows, id);
      if found.None? {
        return Success(None);
      }
      var u := MapResultSetToUser(rows[found.value]);
      r := Success(Some(u));
    }

    /** UPDATE all seven columns of the row with this id; `true` iff a row was affected. */
    method Update(id: int, user: User) returns (r: Result<bool>)
      requires Valid()
      modifies this
      ensures Valid()
      ensures Connection().Failure? ==> r == Failure(Connection().error) && State() == old(State())
      ensures Connection().Success? ==>
                && r == Success(Lookup(old(State()), id).Some?)
                && State() == Updated(old(State()), id, user.Value())
    {
      var conn := Connection();
      if conn.Failure? {
        return Failure(conn.error);
      }
      var found := IndexOf(rows, id);
      var affectedRows := 0;
      if found.Some? {
        rows := rows[found.value := Row(id, user.GetUsername(), user.GetEmail(), user.GetPassword(),
                                        user.GetScore(), user.GetWalletAddress(), user.GetWalletType(),
                                        user.GetBindTime())];
        affectedRows := 1;
      }
      r := Success(affectedRows > 0);
    }

    /** DELETE the row with this id; `true` iff a row was affected. */
    method Delete(id: int) returns (r: Result<bool>)
      requires Valid()
      modifies this
      ensures Valid()
      ensures Connection().Failure? ==> r == Failure(Connection().error) && State() == old(State())
      ensures Connection().Success? ==>
                && r == Success(Lookup(old(State()), id).Some?)
                && State() == Deleted(old(State()), id)
    {
      var conn := Connection();
      if conn.Failure? {
        return Failure(conn.error);
      }
      var found := IndexOf(rows, id);
      var affectedRows := 0;
      if found.Some? {
        rows := rows[..found.value] + rows[found.value + 1..];
        affectedRows := 1;
      }
      r := Success(affectedRows > 0);
    }

    /** One page of users in id order, each a fresh bean, collected row by row. */
    method List(limit: int, offset: int) returns (r: Result<seq<User>>)
      requires Valid()
      requires 0 <= limit && 0 <= offset
      ensures Connection().Failure? ==> r == Failure(Connection().error)
      ensures Connection().Success? ==> r.Success?
      ensures r.Success? ==>
                && |r.value| == |Page(State(), limit, offset)|
                && (forall k :: 0 <= k < |r.value| ==>
                      fresh(r.value[k]) && r.value[k].Value() == UserOfRow(Page(State(), limit, offset)[k]))
                && (forall j, k :: 0 <= j < k < |r.value| ==> r.value[j] != r.value[k])
    {
      var conn := Connection();
      if conn.Failure? {
        return Failure(conn.error);
      }
      var resultSet := Page(State(), limit, offset);
      var users: seq<User> := [];
      var i := 0;
      while i < |resultSet|
        invariant 0 <= i <= |resultSet| && |users| == i
        invariant forall k :: 0 <= k < i ==> fresh(users[k]) && users[k].Value() == UserOfRow(resultSet[k])
        invariant forall j, k :: 0 <= j < k < i ==> users[j] != users[k]
      {
        var u := MapResultSetToUser(resultSet[i]);
        users := users + [u];
        i := i + 1;
      }
      r := Success(users);
    }

    /** `SELECT COUNT(*)`: the number of rows. */
    method GetCount() returns (r: Result<int>)
      requires Valid()
      ensures Connection().Failure? ==> r == Failure(Connection().error)
      ensures Connection().Success? ==> r == Success(Count(State()))
    {
      var conn := Connection();
      if conn.Failure? {
        return Failure(conn.error);
      }
      r := Success(|rows|);
    }
  }
}
