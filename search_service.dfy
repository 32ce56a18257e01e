/** SearchService: full-text search. */
module SearchService {
  import opened Wrappers
  import opened JsValues
  import opened Text
  import opened Client

  /** The parameters of `search`; `None` is a parameter left `undefined`. */
  datatype SearchParams = SearchParams(
    keywords: string,
    content: Option<bool>,
    doc: Option<bool>,
    tag: Option<bool>,
    attachment: Option<bool>,
    spaceId: Option<string>)

  /** The search body: the keywords verbatim, content, document and tag
      search on and attachment search off unless the caller chose, and the
      space filter empty unless given. */
  function SearchBody(p: SearchParams): (v: JsValue)
    ensures v.Obj?
    ensures v.fields.Keys == {"keywords", "content", "doc", "tag", "attachment", "spaceId"}
    ensures v.fields["keywords"] == Str(p.keywords)
    ensures v.fields["content"] == Bool(p.content.GetOr(true))
    ensures v.fields["doc"] == Bool(p.doc.GetOr(true))
    ensures v.fields["tag"] == Bool(p.tag.GetOr(true))
    ensures v.fields["attachment"] == Bool(p.attachment.GetOr(false))
    ensures v.fields["spaceId"] == Str(p.spaceId.GetOr(""))
  {
    Obj(map[
      "keywords" := Str(p.keywords),
      "content" := IfDefined(OptBool(p.content), Bool(true)),
      "doc" := IfDefined(OptBool(p.doc), Bool(true)),
      "tag" := IfDefined(OptBool(p.tag), Bool(true)),
      "attachment" := IfDefined(OptBool(p.attachment), Bool(false)),
      "spaceId" := Or(OptStr(p.spaceId), Str(""))])
  }

  /** Every search is one POST to `/api/search`, whatever the parameters. */
  function Search(p: SearchParams): (d: Descriptor)
    ensures d.verb == POST && d.path == Route(["api", "search"])
    ensures d.body == Some(Json(SearchBody(p)))
  {
    Descriptor(POST, "/api/search", Some(Json(SearchBody(p))))
  }
}
