/** The resource services of src/utils/api.ts (UserService, RoleService,
    PermissionService): each call goes through the authenticated request
    pipeline, then either normalizes the list envelope or turns a non-ok
    reply into the message of the Error it throws. */
module Api {
  import opened Js
  import opened Http
  import opened Auth

  /** A settled service call: the value it resolves to, or the message of the
      Error it rejects with. */
  datatype Outcome<T> = Resolved(value: T) | Thrown(message: string)

  datatype Resource = Users | Roles | Permissions {
    /** The member some backends wrap the list in. */
    function Key(): string {
      match this
      case Users => "users"
      case Roles => "roles"
      case Permissions => "permissions"
    }

    function Path(): string {
      "/" + Key()
    }

    /** The word the list error message uses. */
    function Label(): string {
      match this
      case Users => "usuarios"
      case Roles => "roles"
      case Permissions => "permisos"
    }
  }

  /** `Array.isArray(data) ? data : (data.data || data.<key> || [])`: a bare
      list as it is, else the first truthy of the `data` and resource-named
      members, else the empty list. Reading a member of null throws. */
  function Envelope(data: Json, key: string): (r: Outcome<Json>)
    ensures r.Thrown? <==> data.Null?
    ensures data.Null? ==> r == Thrown(PropertyReadError("null", "data"))
    ensures r.Resolved? ==> r.value.Arr? || Truthy(r.value)
    ensures r.Resolved? && !data.Arr? && r.value != Arr([]) ==>
              data.Obj? && (("data" in data.members && r.value == data.members["data"])
                            || (key in data.members && r.value == data.members[key]))
  {
    match data
    case Arr(_) => Resolved(data)
    case Null => Thrown(PropertyReadError("null", "data"))
    case Obj(m) =>
      if "data" in m && Truthy(m["data"]) then Resolved(m["data"])
      else if key in m && Truthy(m[key]) then Resolved(m[key])
      else Resolved(Arr([]))
    case _ => Resolved(Arr([]))
  }

  /** The three accepted shapes of a list reply agree: a bare list, the list
      under `data` and the list under the resource name all give the list. */
  lemma EnvelopeShapesAgree(items: seq<Json>, res: Resource)
    ensures Envelope(Arr(items), res.Key()) == Resolved(Arr(items))
    ensures Envelope(Obj(map["data" := Arr(items)]), res.Key()) == Resolved(Arr(items))
    ensures Envelope(Obj(map[res.Key() := Arr(items)]), res.Key()) == Resolved(Arr(items))
  {
  }

  /** A truthy `data` member wins over the resource-named one; an array is
      always truthy, so even an empty `data` list hides a non-empty `users` list. */
  lemma DataMemberWins(m: map<string, Json>, key: string)
    requires "data" in m && Truthy(m["data"])
    ensures Envelope(Obj(m), key) == Resolved(m["data"])
  {
  }

  /** An object with neither a truthy `data` nor a truthy resource-named member
      normalizes to the empty list, for instance `{foo: [1, 2]}`. */
  lemma UnknownEnvelopeIsEmpty(m: map<string, Json>, key: string)
    requires !("data" in m && Truthy(m["data"])) && !(key in m && Truthy(m[key]))
    ensures Envelope(Obj(m), key) == Resolved(Arr([]))
  {
  }

  /** Without a truthy `data` member, a truthy resource-named member is the
      list, whatever else the object holds (`{count, data: null, users: [...]}`
      gives the users). */
  lemma KeyMemberFallback(m: map<string, Json>, key: string)
    requires !("data" in m && Truthy(m["data"])) && key in m && Truthy(m[key])
    ensures Envelope(Obj(m), key) == Resolved(m[key])
  {
  }

  /** A reply body that is a number, a string or a boolean has neither member
      and normalizes to the empty list. */
  lemma PrimitiveEnvelopeIsEmpty(data: Json, key: string)
    requires data.Bool? || data.Num? || data.Str?
    ensures Envelope(data, key) == Resolved(Arr([]))
  {
  }

  /** The message `getAll` throws on a non-ok reply. */
  function ListFailure(res: Resource, status: nat, statusText: string): (m: string)
    ensures StartsWith(m, "Error al obtener " + res.Label() + ": ")
    ensures |m| > |statusText| && m[|m| - |statusText|..] == statusText && m[|m| - |statusText| - 1] == ' '
  {
    "Error al obtener " + res.Label() + ": " + NatToString(status) + " " + statusText
  }

  /** The outcome of `getAll` for a given reply of GET /<resource>. */
  function ListOutcome(res: Resource, reply: Reply<Json>): (r: Outcome<Json>)
    ensures r.Resolved? ==> reply.Delivered? && reply.response.Ok() && reply.response.body.Parsed?
                            && r == Envelope(reply.response.body.value, res.Key())
    ensures reply.Delivered? && reply.response.Ok() && reply.response.body.Parsed? ==>
              r == Envelope(reply.response.body.value, res.Key())
    ensures reply.Delivered? && !reply.response.Ok() ==>
              r == Thrown(ListFailure(res, reply.response.status, reply.response.statusText))
    ensures reply.NetworkError? ==> r == Thrown(reply.reason)
    ensures reply.Delivered? && reply.response.Ok() && reply.response.body.NotJson? ==>
              r == Thrown(reply.response.body.syntaxError)
  {
    match reply
    case NetworkError(reason) => Thrown(reason)
    case Delivered(response) =>
      if !response.Ok() then Thrown(ListFailure(res, response.status, response.statusText))
      else
        match response.body
        case NotJson(reason) => Thrown(reason)
        case Parsed(data) => Envelope(data, res.Key())
  }

  /** A non-ok list reply yields no list, and the message it throws carries the
      status code in decimal (readable back as the same number) and the status text. */
  lemma FailedListCarriesStatus(res: Resource, reply: Reply<Json>)
    requires reply.Delivered? && !reply.response.Ok()
    ensures var r := reply.response;
      var prefix := "Error al obtener " + res.Label() + ": ";
      var digits := NatToString(r.status);
      ListOutcome(res, reply) == Thrown(prefix + digits + " " + r.statusText)
      && AllDigits(digits) && DecimalValue(digits) == r.status
  {
  }

  /** The message create, update, delete and assignToUser throw for a non-ok
      reply: `error.error || fallback`, where `error` is the parsed body. */
  function RejectionMessage(body: Body<Json>, fallback: string): (m: string)
    ensures body.Parsed? && body.value.Obj? && "error" in body.value.members
            && body.value.members["error"].Str? && body.value.members["error"].s != ""
            ==> m == body.value.members["error"].s
    ensures body.Parsed? && !body.value.Null?
            && !(body.value.Obj? && "error" in body.value.members && Truthy(body.value.members["error"]))
            ==> m == fallback
    ensures body.Parsed? && body.value.Obj? && "error" in body.value.members
            && Truthy(body.value.members["error"])
            ==> m == Show(body.value.members["error"])
    ensures body.NotJson? ==> m == body.syntaxError
    ensures body.Parsed? && body.value.Null? ==> m == PropertyReadError("null", "error")
  {
    match body
    case NotJson(reason) => reason
    case Parsed(data) =>
      if data.Null? then PropertyReadError("null", "error")
      else
        var e := Member(data, "error");
        if e.Some? && Truthy(e.value) then Show(e.value) else fallback
  }

  /** The outcome of a create or update call: the parsed reply body on success. */
  function MutationOutcome(reply: Reply<Json>, fallback: string): (r: Outcome<Json>)
    ensures r.Resolved? ==> reply.Delivered? && reply.response.Ok()
    ensures reply.Delivered? && !reply.response.Ok() ==>
              r == Thrown(RejectionMessage(reply.response.body, fallback))
    ensures reply.Delivered? && reply.response.Ok() && reply.response.body.Parsed? ==>
              r == Resolved(reply.response.body.value)
    ensures reply.NetworkError? ==> r == Thrown(reply.reason)
    ensures reply.Delivered? && reply.response.Ok() && reply.response.body.NotJson? ==>
              r == Thrown(reply.response.body.syntaxError)
  {
    match reply
    case NetworkError(reason) => Thrown(reason)
    case Delivered(response) =>
      if !response.Ok() then Thrown(RejectionMessage(response.body, fallback))
      else
        match response.body
        case NotJson(reason) => Thrown(reason)
        case Parsed(data) => Resolved(data)
  }

  /** The outcome of a delete or assign call, which resolves to nothing and
      does not read the body of an ok reply. */
  function CommandOutcome(reply: Reply<Json>, fallback: string): (r: Outcome<()>)
    ensures r.Resolved? <==> reply.Delivered? && reply.response.Ok()
    ensures reply.Delivered? && !reply.response.Ok() ==>
              r == Thrown(RejectionMessage(reply.response.body, fallback))
    ensures reply.NetworkError? ==> r == Thrown(reply.reason)
  {
    match reply
    case NetworkError(reason) => Thrown(reason)
    case Delivered(response) =>
      if !response.Ok() then Thrown(RejectionMessage(response.body, fallback))
      else Resolved(())
  }

  /** The outcome of `getById`: a fixed message for any non-ok reply. */
  function LookupOutcome(reply: Reply<Json>, message: string): (r: Outcome<Json>)
    ensures reply.Delivered? && !reply.response.Ok() ==> r == Thrown(message)
    ensures r.Resolved? ==> reply.Delivered? && reply.response.Ok()
    ensures reply.Delivered? && reply.response.Ok() && reply.response.body.Parsed? ==>
              r == Resolved(reply.response.body.value)
    ensures reply.NetworkError? ==> r == Thrown(reply.reason)
    ensures reply.Delivered? && reply.response.Ok() && reply.response.body.NotJson? ==>
              r == Thrown(reply.response.body.syntaxError)
  {
    match reply
    case NetworkError(reason) => Thrown(reason)
    case Delivered(response) =>
      if !response.Ok() then Thrown(message)
      else
        match response.body
        case NotJson(reason) => Thrown(reason)
        case Parsed(data) => Resolved(data)
  }

  /** JSON.stringify of a list of numbers. */
  function NumberList(ids: seq<int>): Json
  {
    Arr(seq(|ids|, i requires 0 <= i < |ids| => Num(ids[i])))
  }

  /** Reads a JSON list of numbers back. */
  function ReadNumberList(j: Json): Option<seq<int>>
  {
    if j.Arr? && forall i :: 0 <= i < |j.items| ==> j.items[i].Num? then
      Some(seq(|j.items|, i requires 0 <= i < |j.items| => j.items[i].n))
    else None
  }

  /** A list of numbers reads back as itself. */
  lemma NumberListRoundTrip(ids: seq<int>)
    ensures ReadNumberList(NumberList(ids)) == Some(ids)
  {
    var j := NumberList(ids);
    assert forall i :: 0 <= i < |j.items| ==> j.items[i].Num?;
    assert ReadNumberList(j).value == ids;
  }

  /** The body of POST /permissions_assign. */
  function AssignmentBody(userId: int, permissionIds: seq<int>): (j: Json)
    ensures j.Obj? && j.members.Keys == {"user_id", "permission_ids"}
  {
    Obj(map["user_id" := Num(userId), "permission_ids" := NumberList(permissionIds)])
  }

  /** The assignment body carries the user id and the permission ids unchanged,
      in order. */
  lemma AssignmentBodyRoundTrip(userId: int, permissionIds: seq<int>)
    ensures AssignmentBody(userId, permissionIds).members["user_id"] == Num(userId)
    ensures ReadNumberList(AssignmentBody(userId, permissionIds).members["permission_ids"]) == Some(permissionIds)
  {
    NumberListRoundTrip(permissionIds);
  }

  /** A 400 reply `{"error": "email taken"}` to create
      throws exactly "email taken". */
  lemma CreateRejectionUsesBackendMessage()
    ensures MutationOutcome(Delivered(Response(400, "Bad Request",
              Parsed(Obj(map["error" := Str("email taken")])))), "Error al crear usuario")
            == Thrown("email taken")
  {
  }

  // ------------------------------------------------------------------ the service calls

  const CreateFallback := "Error al crear usuario"
  const UpdateFallback := "Error al actualizar usuario"
  const DeleteFallback := "Error al eliminar usuario"
  const AssignFallback := "Error al asignar permisos"
  const UserLookupMessage := "Error al obtener usuario"
  const RoleLookupMessage := "Error al obtener rol"

  /** UserService/RoleService/PermissionService.getAll. */
  method GetAll(store: TokenStore, res: Resource, reply: Reply<Json>)
    returns (sent: Request, navigate: Option<string>, outcome: Outcome<Json>)
    requires store.Valid()
    modifies store
    ensures store.Valid()
    ensures sent == Request("GET", res.Path(), old(store.AuthHeaders()), None)
    ensures outcome == ListOutcome(res, reply)
    ensures Unauthorized(reply) ==> store.token.None? && store.user.None?
    ensures !Unauthorized(reply) ==> store.token == old(store.token) && store.user == old(store.user)
    ensures navigate == (if Unauthorized(reply) && store.browser then Some("/login") else None)
  {
    ghost var headers := store.AuthHeaders();
    assert headers + map[] == headers;
    sent, navigate := store.AuthenticatedFetch(Request("GET", res.Path(), map[], None), reply);
    outcome := ListOutcome(res, reply);
  }

  /** UserService.getById and RoleService.getById. */
  method GetById(store: TokenStore, res: Resource, id: int, reply: Reply<Json>)
    returns (sent: Request, navigate: Option<string>, outcome: Outcome<Json>)
    requires store.Valid()
    requires res != Permissions
    modifies store
    ensures store.Valid()
    ensures sent == Request("GET", res.Path() + "/" + IntToString(id), old(store.AuthHeaders()), None)
    ensures outcome == LookupOutcome(reply, if res == Users then UserLookupMessage else RoleLookupMessage)
    ensures Unauthorized(reply) ==> store.token.None? && store.user.None?
    ensures !Unauthorized(reply) ==> store.token == old(store.token) && store.user == old(store.user)
    ensures navigate == (if Unauthorized(reply) && store.browser then Some("/login") else None)
  {
    ghost var headers := store.AuthHeaders();
    assert headers + map[] == headers;
    sent, navigate := store.AuthenticatedFetch(Request("GET", res.Path() + "/" + IntToString(id), map[], None), reply);
    outcome := LookupOutcome(reply, if res == Users then UserLookupMessage else RoleLookupMessage);
  }

  /** UserService.create: POST /auth/register with the new user's data. */
  method CreateUser(store: TokenStore, userData: Json, reply: Reply<Json>)
    returns (sent: Request, navigate: Option<string>, outcome: Outcome<Json>)
    requires store.Valid()
    modifies store
    ensures store.Valid()
    ensures sent == Request("POST", "/auth/register", old(store.AuthHeaders()), Some(userData))
    ensures outcome == MutationOutcome(reply, CreateFallback)
    ensures Unauthorized(reply) ==> store.token.None? && store.user.None?
    ensures !Unauthorized(reply) ==> store.token == old(store.token) && store.user == old(store.user)
    ensures navigate == (if Unauthorized(reply) && store.browser then Some("/login") else None)
  {
    ghost var headers := store.AuthHeaders();
    assert headers + map[] == headers;
    sent, navigate := store.AuthenticatedFetch(Request("POST", "/auth/register", map[], Some(userData)), reply);
    outcome := MutationOutcome(reply, CreateFallback);
  }

  /** UserService.update: PUT /users/<id>. */
  method UpdateUser(store: TokenStore, id: int, userData: Json, reply: Reply<Json>)
    returns (sent: Request, navigate: Option<string>, outcome: Outcome<Json>)
    requires store.Valid()
    modifies store
    ensures store.Valid()
    ensures sent == Request("PUT", "/users/" + IntToString(id), old(store.AuthHeaders()), Some(userData))
    ensures outcome == MutationOutcome(reply, UpdateFallback)
    ensures Unauthorized(reply) ==> store.token.None? && store.user.None?
    ensures !Unauthorized(reply) ==> store.token == old(store.token) && store.user == old(store.user)
    ensures navigate == (if Unauthorized(reply) && store.browser then Some("/login") else None)
  {
    ghost var headers := store.AuthHeaders();
    assert headers + map[] == headers;
    sent, navigate := store.AuthenticatedFetch(Request("PUT", "/users/" + IntToString(id), map[], Some(userData)), reply);
    outcome := MutationOutcome(reply, UpdateFallback);
  }

  /** UserService.delete: DELETE /users/<id>. */
  method DeleteUser(store: TokenStore, id: int, reply: Reply<Json>)
    returns (sent: Request, navigate: Option<string>, outcome: Outcome<()>)
    requires store.Valid()
    modifies store
    ensures store.Valid()
    ensures sent == Request("DELETE", "/users/" + IntToString(id), old(store.AuthHeaders()), None)
    ensures outcome == CommandOutcome(reply, DeleteFallback)
    ensures Unauthorized(reply) ==> store.token.None? && store.user.None?
    ensures !Unauthorized(reply) ==> store.token == old(store.token) && store.user == old(store.user)
    ensures navigate == (if Unauthorized(reply) && store.browser then Some("/login") else None)
  {
    ghost var headers := store.AuthHeaders();
    assert headers + map[] == headers;
    sent, navigate := store.AuthenticatedFetch(Request("DELETE", "/users/" + IntToString(id), map[], None), reply);
    outcome := CommandOutcome(reply, DeleteFallback);
  }

  /** PermissionService.assignToUser: POST /permissions_assign. */
  method AssignToUser(store: TokenStore, userId: int, permissionIds: seq<int>, reply: Reply<Json>)
    returns (sent: Request, navigate: Option<string>, outcome: Outcome<()>)
    requires store.Valid()
    modifies store
    ensures store.Valid()
    ensures sent == Request("POST", "/permissions_assign", old(store.AuthHeaders()),
                            Some(AssignmentBody(userId, permissionIds)))
    ensures outcome == CommandOutcome(reply, AssignFallback)
    ensures Unauthorized(reply) ==> store.token.None? && store.user.None?
    ensures !Unauthorized(reply) ==> store.token == old(store.token) && store.user == old(store.user)
    ensures navigate == (if Unauthorized(reply) && store.browser then Some("/login") else None)
  {
    ghost var headers := store.AuthHeaders();
    assert headers + map[] == headers;
    var request := Request("POST", "/permissions_assign", map[], Some(AssignmentBody(userId, permissionIds)));
    sent, navigate := store.AuthenticatedFetch(request, reply);
    outcome := CommandOutcome(reply, AssignFallback);
  }
}
