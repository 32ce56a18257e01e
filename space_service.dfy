/** SpaceService: spaces, the top-level containers of documents. */
module SpaceService {
  import opened Wrappers
  import opened JsValues
  import opened Text
  import opened Client

  /** The parameters of `createSpace`. */
  datatype CreateSpaceParams = CreateSpaceParams(name: string, description: Option<string>)

  function ListSpaces(): (d: Descriptor)
    ensures d == Descriptor(GET, Route(["api", "space"]), None)
  {
    Descriptor(GET, "/api/space", None)
  }

  function GetSpace(spaceId: string): (d: Descriptor)
    ensures d == Descriptor(GET, Route(["api", "space", spaceId]), None)
  {
    Route3("api", "space", spaceId);
    Descriptor(GET, "/api/space/" + spaceId, None)
  }

  /** The `createSpace` payload: the name, no clone source, nothing copied. */
  function CreateSpacePayload(p: CreateSpaceParams): (v: JsValue)
    ensures v.Obj?
    ensures v.fields.Keys == {"name", "cloneId", "copyTemplate", "copyPermission", "copyDocument"}
    ensures v.fields["name"] == Str(p.name) && v.fields["cloneId"] == Str("")
    ensures v.fields["copyTemplate"] == v.fields["copyPermission"] == v.fields["copyDocument"] == Bool(false)
  {
    Obj(map[
      "name" := Str(p.name),
      "cloneId" := Str(""),
      "copyTemplate" := Bool(false),
      "copyPermission" := Bool(false),
      "copyDocument" := Bool(false)])
  }

  /** `createSpace` posts to the collection `listSpaces` reads. */
  function CreateSpace(p: CreateSpaceParams): (d: Descriptor)
    ensures d == Descriptor(POST, ListSpaces().path, Some(Json(CreateSpacePayload(p))))
  {
    Descriptor(POST, "/api/space", Some(Json(CreateSpacePayload(p))))
  }

  /** The description is never sent: two calls with the same name send the
      same request. */
  lemma CreateSpaceIgnoresDescription(p: CreateSpaceParams, q: CreateSpaceParams)
    requires p.name == q.name
    ensures CreateSpace(p) == CreateSpace(q)
  {
    assert CreateSpacePayload(p).fields == CreateSpacePayload(q).fields;
  }

  /** Deleting targets the same path `getSpace` reads. */
  function DeleteSpace(spaceId: string): (d: Descriptor)
    ensures d == Descriptor(DELETE, GetSpace(spaceId).path, None)
  {
    Descriptor(DELETE, "/api/space/" + spaceId, None)
  }
}
