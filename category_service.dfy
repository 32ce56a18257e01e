/** CategoryService: document categories of a space. */
module CategoryService {
  import opened Wrappers
  import opened JsValues
  import opened Text
  import opened Client

  /** The parameters of `createCategory`. */
  datatype CreateCategoryParams = CreateCategoryParams(spaceId: string, name: string)

  function ListCategories(spaceId: string): (d: Descriptor)
    ensures d == Descriptor(GET, Route(["api", "space", spaceId, "category"]), None)
  {
    Route4("api", "space", spaceId, "category");
    Descriptor(GET, "/api/space/" + spaceId + "/category", None)
  }

  /** The `createCategory` payload: exactly the space id and the name, verbatim. */
  function CreateCategoryPayload(p: CreateCategoryParams): (v: JsValue)
    ensures v.Obj? && v.fields.Keys == {"spaceId", "name"}
    ensures v.fields["spaceId"] == Str(p.spaceId) && v.fields["name"] == Str(p.name)
  {
    Obj(map["spaceId" := Str(p.spaceId), "name" := Str(p.name)])
  }

  /** Categories are created at one fixed path; the space travels only in the body. */
  function CreateCategory(p: CreateCategoryParams): (d: Descriptor)
    ensures d.verb == POST && d.path == Route(["api", "category"])
    ensures d.body == Some(Json(CreateCategoryPayload(p)))
  {
    Descriptor(POST, "/api/category", Some(Json(CreateCategoryPayload(p))))
  }

  /** The path of `createCategory` does not depend on the space. */
  lemma CreateCategoryPathFixed(p: CreateCategoryParams, q: CreateCategoryParams)
    ensures CreateCategory(p).path == CreateCategory(q).path
    ensures CreateCategory(p).path != ListCategories(p.spaceId).path
  {
    assert |CreateCategory(p).path| == 13;
    assert |ListCategories(p.spaceId).path| == 20 + |p.spaceId|;
  }
}
