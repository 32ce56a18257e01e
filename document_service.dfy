/** DocumentService: documents and their pages. Each operation is the one
    request descriptor it hands to the client. */
module DocumentService {
  import opened Wrappers
  import opened JsValues
  import opened Text
  import opened Client

  /** The parameters of `createPage`; `None` is a parameter left `undefined`. */
  datatype CreatePageParams = CreatePageParams(
    documentId: string,
    title: string,
    body: string,
    level: Option<int>,
    sequence: Option<int>,
    contentType: Option<string>,
    pageType: Option<string>)

  function ListDocuments(spaceId: string): (d: Descriptor)
    ensures d == Descriptor(GET, Route(["api", "documents"]) + "?space=" + spaceId, None)
  {
    Route2("api", "documents");
    Descriptor(GET, "/api/documents?space=" + spaceId, None)
  }

  function GetDocument(documentId: string): (d: Descriptor)
    ensures d == Descriptor(GET, Route(["api", "documents", documentId]), None)
  {
    Route3("api", "documents", documentId);
    Descriptor(GET, "/api/documents/" + documentId, None)
  }

  /** The caller's partial document is forwarded as the body, unchanged. */
  function UpdateDocument(documentId: string, document: JsValue): (d: Descriptor)
    ensures d == Descriptor(PUT, GetDocument(documentId).path, Some(Json(document)))
  {
    Descriptor(PUT, "/api/documents/" + documentId, Some(Json(document)))
  }

  function DeleteDocument(documentId: string): (d: Descriptor)
    ensures d == Descriptor(DELETE, GetDocument(documentId).path, None)
  {
    Descriptor(DELETE, "/api/documents/" + documentId, None)
  }

  function GetPages(documentId: string): (d: Descriptor)
    ensures d == Descriptor(GET, Route(["api", "documents", documentId, "pages"]), None)
  {
    Route4("api", "documents", documentId, "pages");
    Descriptor(GET, "/api/documents/" + documentId + "/pages", None)
  }

  function GetPage(documentId: string, pageId: string): (d: Descriptor)
    ensures d == Descriptor(GET, Route(["api", "documents", documentId, "pages", pageId]), None)
  {
    Route5("api", "documents", documentId, "pages", pageId);
    Descriptor(GET, "/api/documents/" + documentId + "/pages/" + pageId, None)
  }

  /** The caller's partial page is forwarded as the body, unchanged. */
  function UpdatePage(documentId: string, pageId: string, page: JsValue): (d: Descriptor)
    ensures d == Descriptor(PUT, GetPage(documentId, pageId).path, Some(Json(page)))
  {
    Descriptor(PUT, "/api/documents/" + documentId + "/pages/" + pageId, Some(Json(page)))
  }

  function DeletePage(documentId: string, pageId: string): (d: Descriptor)
    ensures d == Descriptor(DELETE, GetPage(documentId, pageId).path, None)
  {
    Descriptor(DELETE, "/api/documents/" + documentId + "/pages/" + pageId, None)
  }

  /** A page's path is the path of its document's pages with the page id appended. */
  lemma PagePathExtendsPagesPath(documentId: string, pageId: string)
    ensures GetPage(documentId, pageId).path == GetPages(documentId).path + "/" + pageId
  {
    RouteAppend(["api", "documents", documentId, "pages"], [pageId]);
    assert ["api", "documents", documentId, "pages"] + [pageId] == ["api", "documents", documentId, "pages", pageId];
  }

  /** The nested `{page, meta}` payload of `createPage`. Because the
      defaults are applied with `||`, an empty string and `0` are replaced
      as well as a missing value. */
  function CreatePagePayload(p: CreatePageParams): (v: JsValue)
    ensures v.Obj? && v.fields.Keys == {"page", "meta"}
    ensures var page := v.fields["page"];
      && page.Obj?
      && page.fields.Keys == {"documentId", "title", "body", "contentType", "pageType", "level", "sequence"}
      && page.fields["documentId"] == Str(p.documentId)
      && page.fields["title"] == Str(p.title)
      && page.fields["body"] == Str(p.body)
      && page.fields["contentType"] == Str(if p.contentType.Some? && p.contentType.value != "" then p.contentType.value else "wysiwyg")
      && page.fields["pageType"] == Str(if p.pageType.Some? && p.pageType.value != "" then p.pageType.value else "section")
      && page.fields["level"] == Num(if p.level.Some? && p.level.value != 0 then p.level.value else 1)
      && page.fields["sequence"] == Num(if p.sequence.Some? && p.sequence.value != 0 then p.sequence.value else 1)
    ensures var meta := v.fields["meta"];
      && meta.Obj?
      && meta.fields.Keys == {"documentId", "rawBody", "config"}
      && meta.fields["documentId"] == v.fields["page"].fields["documentId"]
      && meta.fields["rawBody"] == v.fields["page"].fields["body"]
      && meta.fields["config"] == Str("{}")
  {
    Obj(map[
      "page" := Obj(map[
        "documentId" := Str(p.documentId),
        "title" := Str(p.title),
        "body" := Str(p.body),
        "contentType" := Or(OptStr(p.contentType), Str("wysiwyg")),
        "pageType" := Or(OptStr(p.pageType), Str("section")),
        "level" := Or(OptNum(p.level), Num(1)),
        "sequence" := Or(OptNum(p.sequence), Num(1))]),
      "meta" := Obj(map[
        "documentId" := Str(p.documentId),
        "rawBody" := Str(p.body),
        "config" := Str("{}")])])
  }

  /** `createPage` posts the payload to the collection its page list is read from. */
  function CreatePage(p: CreatePageParams): (d: Descriptor)
    ensures d == Descriptor(POST, GetPages(p.documentId).path, Some(Json(CreatePagePayload(p))))
  {
    Descriptor(POST, "/api/documents/" + p.documentId + "/pages", Some(Json(CreatePagePayload(p))))
  }
}
