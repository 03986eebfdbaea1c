/** The SCIM 2.0 users endpoint: bearer-token gating (section 2.1 of
    RFC 6750) in front of a users table keyed by id whose user names are
    unique, with create, read, full replace (PUT), the one PATCH operation
    the server understands (section 3.5.2 of RFC 7644), and delete. The
    SQLite table is a map from id to row. */
module ScimServer {
  import opened Base
  import opened Text

  // ---------------------------------------------------------------------
  // Bearer-token gating
  // ---------------------------------------------------------------------

  const BearerPrefix := "Bearer "

  /** `auth_header.split(' ')[1]`: for a header that starts with "Bearer ",
      the text between the first and the second space. */
  function TokenOf(header: string): (token: string)
    requires StartsWith(header, BearerPrefix)
  {
    BearerSplit(header);
    Split(header, ' ')[1]
  }

  /** A "Bearer " header splits into "Bearer" and the pieces of the rest. */
  lemma BearerSplit(header: string)
    requires StartsWith(header, BearerPrefix)
    ensures Split(header, ' ') == ["Bearer"] + Split(header[|BearerPrefix|..], ' ')
  {
    var rest := header[|BearerPrefix|..];
    assert header == "Bearer" + [' '] + rest;
    SplitAfter("Bearer", rest, ' ');
  }

  datatype AuthVerdict = Authorized | Unauthorized | InvalidToken

  /** `require_auth`'s decision on an Authorization header. */
  function Authorize(header: Option<string>, configured: string): AuthVerdict {
    if header.None? || header.value == "" || !StartsWith(header.value, BearerPrefix) then Unauthorized
    else if TokenOf(header.value) != configured then InvalidToken
    else Authorized
  }

  /** A request gets through exactly when its header starts with "Bearer "
      and the first word after it is the configured token; a missing or
      differently-prefixed header is turned away before the token is even
      looked at. */
  lemma AuthorizeCases(header: Option<string>, configured: string)
    ensures Authorize(header, configured) == Unauthorized <==> header.None? || !StartsWith(header.value, BearerPrefix)
    ensures Authorize(header, configured) == Authorized <==>
      header.Some? && StartsWith(header.value, BearerPrefix) &&
      Split(header.value[|BearerPrefix|..], ' ')[0] == configured
  {
    if header.Some? && StartsWith(header.value, BearerPrefix) {
      BearerSplit(header.value);
    }
  }

  /** The header a client builds from the configured token is accepted. */
  lemma BearerRoundTrip(token: string)
    requires ' ' !in token
    ensures Authorize(Some(BearerPrefix + token), token) == Authorized
  {
    var h := BearerPrefix + token;
    assert StartsWith(h, BearerPrefix) by {
      assert h[..|BearerPrefix|] == BearerPrefix;
    }
    assert h[|BearerPrefix|..] == token;
    BearerSplit(h);
    SplitWithout(token, ' ');
  }

  /** The malformed headers of the bearer-format test are all rejected. */
  lemma MalformedHeadersRejected(configured: string)
    ensures Authorize(Some(""), configured) == Unauthorized
    ensures Authorize(Some("Basic dXNlcjpwYXNz"), configured) == Unauthorized
    ensures Authorize(Some("Token abc123"), configured) == Unauthorized
    ensures Authorize(Some("Bearer"), configured) == Unauthorized
    ensures Authorize(Some("Bearertoken123"), configured) == Unauthorized
  {
    assert "Basic dXNlcjpwYXNz"[1] != BearerPrefix[1];
    assert "Token abc123"[0] != BearerPrefix[0];
    assert "Bearertoken123"[6] != BearerPrefix[6];
  }

  // ---------------------------------------------------------------------
  // The users table
  // ---------------------------------------------------------------------

  datatype UserRow = UserRow(
    userName: string,
    givenName: string,
    familyName: string,
    email: string,
    active: bool,
    created: string,
    modified: string)

  type Users = map<string, UserRow>

  /** The UNIQUE constraint on `username`. */
  predicate UniqueUserNames(users: Users) {
    forall a, b :: a in users && b in users && a != b ==> users[a].userName != users[b].userName
  }

  predicate NameTaken(users: Users, userName: string) {
    exists id :: id in users && users[id].userName == userName
  }

  /** The body of a POST or PUT; `None` is a member the body leaves out. */
  datatype NameRequest = NameRequest(givenName: Option<string>, familyName: Option<string>)
  datatype UserRequest = UserRequest(
    userName: string,
    name: Option<NameRequest>,
    emails: Option<seq<Option<string>>>,
    active: Option<Value>)

  function GivenName(r: UserRequest): string {
    if r.name.Some? then r.name.value.givenName.GetOr("") else ""
  }

  function FamilyName(r: UserRequest): string {
    if r.name.Some? then r.name.value.familyName.GetOr("") else ""
  }

  /** `data.get('emails', [{}])[0].get('value', '')`; none for an empty list,
      where Python raises IndexError. */
  function FirstEmail(r: UserRequest): (e: Option<string>)
    ensures e.None? <==> r.emails == Some([])
  {
    match r.emails
    case None => Some("")
    case Some(list) => if list == [] then None else Some(list[0].GetOr(""))
  }

  /** `1 if data.get('active', True) else 0`. */
  predicate RequestedActive(r: UserRequest) {
    r.active.None? || Truthy(r.active.value)
  }

  /** The row a create or full update writes. */
  function RowOf(r: UserRequest, email: string, created: string, modified: string): UserRow {
    UserRow(r.userName, GivenName(r), FamilyName(r), email, RequestedActive(r), created, modified)
  }

  datatype PatchOp = PatchOp(op: string, path: string, value: Value)

  /** The only operation the server applies. */
  predicate IsActiveReplace(o: PatchOp) {
    o.op == "replace" && o.path == "active"
  }

  /** One operation of a PATCH request: an active replacement updates the
      row, if there is one; every other operation does nothing. */
  function ApplyOp(users: Users, id: string, o: PatchOp, now: string): Users {
    if IsActiveReplace(o) && id in users then users[id := users[id].(active := Truthy(o.value), modified := now)]
    else users
  }

  /** The table after the operations, in order. */
  function Patched(users: Users, id: string, ops: seq<PatchOp>, now: string): Users
    decreases |ops|
  {
    if ops == [] then users
    else ApplyOp(Patched(users, id, ops[..|ops| - 1], now), id, ops[|ops| - 1], now)
  }

  /** The value of the last active replacement, if any. */
  function LastActive(ops: seq<PatchOp>): Option<bool>
    decreases |ops|
  {
    if ops == [] then None
    else if IsActiveReplace(ops[|ops| - 1]) then Some(Truthy(ops[|ops| - 1].value))
    else LastActive(ops[..|ops| - 1])
  }

  /** A PATCH changes only the target row, only its active flag and
      modification time, and the last active replacement decides the flag. */
  lemma {:induction false} PatchedClosedForm(users: Users, id: string, ops: seq<PatchOp>, now: string)
    ensures Patched(users, id, ops, now) ==
      if id in users && LastActive(ops).Some? then users[id := users[id].(active := LastActive(ops).value, modified := now)]
      else users
    decreases |ops|
  {
    if ops != [] {
      PatchedClosedForm(users, id, ops[..|ops| - 1], now);
    }
  }

  /** Dropping the other operations leaves the last active replacement. */
  lemma {:induction false} LastActiveFilter(ops: seq<PatchOp>)
    ensures LastActive(ops) == LastActive(Filter(ops, IsActiveReplace))
    decreases |ops|
  {
    if ops != [] {
      var init := ops[..|ops| - 1];
      var last := ops[|ops| - 1];
      LastActiveFilter(init);
      assert ops == init + [last];
      FilterAppend(init, [last], IsActiveReplace);
      var kept := Filter(init, IsActiveReplace);
      assert [last][1..] == [];
      if IsActiveReplace(last) {
        assert Filter([last], IsActiveReplace) == [last];
        var filtered := kept + [last];
        assert filtered[..|filtered| - 1] == kept;
      } else {
        assert Filter([last], IsActiveReplace) == [];
        assert kept + [] == kept;
      }
    }
  }

  /** Operations other than an active replacement are ignored: dropping
      them changes nothing. */
  lemma PatchIgnoresOthers(users: Users, id: string, ops: seq<PatchOp>, now: string)
    ensures Patched(users, id, ops, now) == Patched(users, id, Filter(ops, IsActiveReplace), now)
  {
    PatchedClosedForm(users, id, ops, now);
    PatchedClosedForm(users, id, Filter(ops, IsActiveReplace), now);
    LastActiveFilter(ops);
  }

  // ---------------------------------------------------------------------
  // Responses
  // ---------------------------------------------------------------------

  /** The user resource the read endpoints return for a row. */
  datatype UserView = UserView(id: string, userName: string, givenName: string, familyName: string, emails: seq<(string, bool)>, active: bool, created: string, lastModified: string)

  function ViewOf(id: string, row: UserRow): UserView {
    UserView(id, row.userName, row.givenName, row.familyName, [(row.email, true)], row.active, row.created, row.modified)
  }

  datatype ListResponse = ListResponse(totalResults: nat, startIndex: nat, itemsPerPage: nat, resources: map<string, UserView>)

  /** `list_users`: every row, counted twice over. */
  function ListUsers(users: Users): (r: ListResponse)
    ensures r.totalResults == r.itemsPerPage == |users|
    ensures r.startIndex == 1
    ensures r.resources.Keys == users.Keys
    ensures forall id :: id in users ==> r.resources[id] == ViewOf(id, users[id])
  {
    var resources := map id | id in users :: ViewOf(id, users[id]);
    assert resources.Keys == users.Keys;
    ListResponse(|resources.Keys|, 1, |resources.Keys|, resources)
  }

  /** `get_user`: 404 for an unknown id. */
  function GetUser(users: Users, id: string): (r: Result<UserView, int>)
    ensures r.Failure? <==> id !in users
    ensures r.Failure? ==> r.error == 404
    ensures r.Success? ==> r.value == ViewOf(id, users[id])
  {
    if id in users then Success(ViewOf(id, users[id])) else Failure(404)
  }

  /** The requests the users endpoint serves. */
  datatype Request =
    | ListRequest
    | GetRequest(id: string)
    | CreateRequest(body: UserRequest)
    | PutRequest(id: string, body: UserRequest)
    | PatchRequest(id: string, ops: seq<PatchOp>)
    | DeleteRequest(id: string)

  class ScimStore {
    /** `SCIM_BEARER_TOKEN`. */
    const token: string
    /** `str(hash(userName))[:10]`, taken as given. */
    const idOf: string -> string
    var users: Users

    ghost predicate Valid()
      reads this
    {
      UniqueUserNames(users)
    }

    constructor(token: string, idOf: string -> string)
      ensures Valid()
      ensures this.token == token && this.idOf == idOf && users == map[]
    {
      this.token := token;
      this.idOf := idOf;
      users := map[];
    }

    /** `create_user`: 500 for an empty email list, 409 when the id or the
        user name is taken, and otherwise one new row, active unless the
        request says otherwise. */
    method CreateUser(r: UserRequest, now: string) returns (status: int)
      requires Valid()
      modifies this
      ensures Valid()
      ensures status in {201, 409, 500}
      ensures status == 500 <==> FirstEmail(r).None?
      ensures status == 409 <==> FirstEmail(r).Some? && (idOf(r.userName) in old(users) || NameTaken(old(users), r.userName))
      ensures status != 201 ==> users == old(users)
      ensures status == 201 ==> users == old(users)[idOf(r.userName) := RowOf(r, FirstEmail(r).value, now, now)]
    {
      var email := FirstEmail(r);
      if email.None? {
        return 500;
      }
      var id := idOf(r.userName);
      if id in users || NameTaken(users, r.userName) {
        return 409;
      }
      users := users[id := RowOf(r, email.value, now, now)];
      status := 201;
    }

    /** PUT: overwrite the row's user name, names, email and active flag.
        An unknown id changes nothing and still succeeds; a user name that
        another row holds violates the UNIQUE constraint (500, no change). */
    method PutUser(id: string, r: UserRequest, now: string) returns (status: int)
      requires Valid()
      modifies this
      ensures Valid()
      ensures status in {200, 500}
      ensures status == 500 <==> FirstEmail(r).None? || (id in old(users) && exists other :: other in old(users) && other != id && old(users)[other].userName == r.userName)
      ensures status == 500 || id !in old(users) ==> users == old(users)
      ensures status == 200 && id in old(users) ==> users == old(users)[id := RowOf(r, FirstEmail(r).value, old(users)[id].created, now)]
    {
      var email := FirstEmail(r);
      if email.None? {
        return 500;
      }
      if id !in users {
        return 200;
      }
      if exists other :: other in users && other != id && users[other].userName == r.userName {
        return 500;
      }
      users := users[id := RowOf(r, email.value, users[id].created, now)];
      status := 200;
    }

    /** PATCH: apply the operations in order. */
    method PatchUser(id: string, ops: seq<PatchOp>, now: string) returns (status: int)
      requires Valid()
      modifies this
      ensures Valid()
      ensures status == 200
      ensures users == Patched(old(users), id, ops, now)
    {
      for i := 0 to |ops|
        invariant users == Patched(old(users), id, ops[..i], now)
        invariant Valid()
      {
        assert ops[..i + 1][..i] == ops[..i];
        var o := ops[i];
        if o.op == "replace" && o.path == "active" && id in users {
          users := users[id := users[id].(active := Truthy(o.value), modified := now)];
        }
      }
      assert ops[..|ops|] == ops;
      status := 200;
    }

    /** `delete_user`: 204 whether or not the id existed. */
    method DeleteUser(id: string) returns (status: int)
      requires Valid()
      modifies this
      ensures Valid()
      ensures status == 204
      ensures users == old(users) - {id}
    {
      users := users - {id};
      status := 204;
    }

    /** Every endpoint behind `require_auth`: an unauthorized request gets
        401 and the handler does not run. */
    method Serve(authorization: Option<string>, req: Request, now: string) returns (status: int)
      requires Valid()
      modifies this
      ensures Valid()
      ensures Authorize(authorization, token) != Authorized ==> status == 401 && users == old(users)
      ensures Authorize(authorization, token) == Authorized ==> status != 401
      ensures req.ListRequest? || req.GetRequest? ==> users == old(users)
      ensures Authorize(authorization, token) == Authorized && req.ListRequest? ==> status == 200
      ensures Authorize(authorization, token) == Authorized && req.GetRequest? ==>
                status == if req.id in old(users) then 200 else 404
      ensures Authorize(authorization, token) == Authorized && req.CreateRequest? ==>
                var r := req.body;
                && (status == 500 <==> FirstEmail(r).None?)
                && (status == 409 <==> FirstEmail(r).Some? && (idOf(r.userName) in old(users) || NameTaken(old(users), r.userName)))
                && (status == 201 <==> FirstEmail(r).Some? && idOf(r.userName) !in old(users) && !NameTaken(old(users), r.userName))
                && users == (if status == 201 then old(users)[idOf(r.userName) := RowOf(r, FirstEmail(r).value, now, now)] else old(users))
      ensures Authorize(authorization, token) == Authorized && req.PutRequest? ==>
                var r := req.body;
                && status in {200, 500}
                && (status == 500 <==> FirstEmail(r).None? ||
                                       (req.id in old(users) &&
                                        exists other :: other in old(users) && other != req.id && old(users)[other].userName == r.userName))
                && users == (if status == 200 && req.id in old(users)
                             then old(users)[req.id := RowOf(r, FirstEmail(r).value, old(users)[req.id].created, now)]
                             else old(users))
      ensures Authorize(authorization, token) == Authorized && req.PatchRequest? ==>
                status == 200 && users == Patched(old(users), req.id, req.ops, now)
      ensures Authorize(authorization, token) == Authorized && req.DeleteRequest? ==>
                status == 204 && users == old(users) - {req.id}
    {
      if Authorize(authorization, token) != Authorized {
        return 401;
      }
      match req
      case ListRequest =>
        status := 200;
      case GetRequest(id) =>
        status := if id in users then 200 else 404;
      case CreateRequest(body) =>
        status := CreateUser(body, now);
      case PutRequest(id, body) =>
        status := PutUser(id, body, now);
      case PatchRequest(id, ops) =>
        status := PatchUser(id, ops, now);
      case DeleteRequest(id) =>
        status := DeleteUser(id);
    }
  }

  /** A patch keeps user names, so it keeps them unique. */
  lemma PatchKeepsNames(users: Users, id: string, ops: seq<PatchOp>, now: string)
    requires UniqueUserNames(users)
    ensures Patched(users, id, ops, now).Keys == users.Keys
    ensures forall k :: k in users ==> Patched(users, id, ops, now)[k].userName == users[k].userName
    ensures UniqueUserNames(Patched(users, id, ops, now))
  {
    PatchedClosedForm(users, id, ops, now);
  }
}
