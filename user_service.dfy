/** UserService: users and group membership. */
module UserService {
  import opened Wrappers
  import opened JsValues
  import opened Text
  import opened Client

  /** The parameters of `createUser`; `None` is a flag left `undefined`. */
  datatype CreateUserParams = CreateUserParams(
    firstname: string,
    lastname: string,
    email: string,
    viewUsers: Option<bool>,
    editor: Option<bool>,
    analytics: Option<bool>,
    active: Option<bool>)

  function ListUsers(): (d: Descriptor)
    ensures d == Descriptor(GET, Route(["api", "users"]), None)
  {
    Descriptor(GET, "/api/users", None)
  }

  /** The `createUser` payload: the names and the e-mail copied verbatim,
      each permission flag `true` unless the caller gave it (an explicit
      `false` is kept, since the test is `!== undefined`). */
  function CreateUserPayload(p: CreateUserParams): (v: JsValue)
    ensures v.Obj?
    ensures v.fields.Keys == {"firstname", "lastname", "email", "viewUsers", "editor", "analytics", "active"}
    ensures v.fields["firstname"] == Str(p.firstname)
    ensures v.fields["lastname"] == Str(p.lastname)
    ensures v.fields["email"] == Str(p.email)
    ensures v.fields["viewUsers"] == Bool(p.viewUsers.GetOr(true))
    ensures v.fields["editor"] == Bool(p.editor.GetOr(true))
    ensures v.fields["analytics"] == Bool(p.analytics.GetOr(true))
    ensures v.fields["active"] == Bool(p.active.GetOr(true))
  {
    Obj(map[
      "firstname" := Str(p.firstname),
      "lastname" := Str(p.lastname),
      "email" := Str(p.email),
      "viewUsers" := IfDefined(OptBool(p.viewUsers), Bool(true)),
      "editor" := IfDefined(OptBool(p.editor), Bool(true)),
      "analytics" := IfDefined(OptBool(p.analytics), Bool(true)),
      "active" := IfDefined(OptBool(p.active), Bool(true))])
  }

  /** `createUser` posts its payload to the collection `listUsers` reads. */
  function CreateUser(p: CreateUserParams): (d: Descriptor)
    ensures d == Descriptor(POST, ListUsers().path, Some(Json(CreateUserPayload(p))))
  {
    Descriptor(POST, "/api/users", Some(Json(CreateUserPayload(p))))
  }

  function DeleteUser(userId: string): (d: Descriptor)
    ensures d == Descriptor(DELETE, Route(["api", "users", userId]), None)
  {
    Route3("api", "users", userId);
    Descriptor(DELETE, "/api/users/" + userId, None)
  }

  function ListGroups(): (d: Descriptor)
    ensures d == Descriptor(GET, Route(["api", "group"]), None)
  {
    Descriptor(GET, "/api/group", None)
  }

  /** Joining posts an empty object. */
  function JoinGroup(groupId: string, userId: string): (d: Descriptor)
    ensures d == Descriptor(POST, Route(["api", "group", groupId, "join", userId]), Some(Json(Obj(map[]))))
  {
    Route5("api", "group", groupId, "join", userId);
    Descriptor(POST, "/api/group/" + groupId + "/join/" + userId, Some(Json(Obj(map[]))))
  }

  function LeaveGroup(groupId: string, userId: string): (d: Descriptor)
    ensures d == Descriptor(DELETE, Route(["api", "group", groupId, "leave", userId]), None)
  {
    Route5("api", "group", groupId, "leave", userId);
    Descriptor(DELETE, "/api/group/" + groupId + "/leave/" + userId, None)
  }
}
