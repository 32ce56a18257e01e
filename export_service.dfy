/** ExportService: one export endpoint for every format. */
module ExportService {
  import opened Wrappers
  import opened JsValues
  import opened Text
  import opened Client

  /** Why an export call fails: the client's error, unchanged, or a
      TypeError from reading `.data` of a `null` or `undefined` body. */
  datatype ExportError = Propagated(error: ClientError) | ReadOfNullish

  /** The export request: the space, the document ids as `data`, filter `document`. */
  function ExportRequest(spaceId: string, documentIds: seq<string>): (d: Descriptor)
    ensures d.verb == POST && d.path == Route(["api", "export"])
    ensures d.body.Some? && d.body.value.Json? && d.body.value.value.Obj?
    ensures var body := d.body.value.value.fields;
      && body.Keys == {"spaceId", "data", "filterType"}
      && body["spaceId"] == Str(spaceId)
      && body["data"] == Strings(documentIds)
      && body["filterType"] == Str("document")
  {
    Descriptor(POST, "/api/export", Some(Json(Obj(map[
      "spaceId" := Str(spaceId),
      "data" := Strings(documentIds),
      "filterType" := Str("document")]))))
  }

  /** `response.data || response`. */
  function Unwrap(response: JsValue): (r: Result<JsValue, ExportError>)
    ensures r.Err? <==> Nullish(response)
    ensures r.Err? ==> r.error == ReadOfNullish
    ensures r.Ok? && Truthy(Prop(response, "data")) ==> r.value == Prop(response, "data")
    ensures r.Ok? && !Truthy(Prop(response, "data")) ==> r.value == response
  {
    if Nullish(response) then Err(ReadOfNullish) else Ok(Or(Prop(response, "data"), response))
  }

  /** What `exportDocuments` returns for what the post produced: a failure
      propagates unchanged, a body is unwrapped. */
  function ExportResult(posted: Result<JsValue, ClientError>): (r: Result<JsValue, ExportError>)
    ensures posted.Err? ==> r == Err(Propagated(posted.error))
    ensures posted.Ok? ==> r == Unwrap(posted.value)
  {
    match posted
    case Err(e) => Err(Propagated(e))
    case Ok(v) => Unwrap(v)
  }

  /** A raw HTML string is returned as it is; `{data: html}` yields the html. */
  lemma UnwrapExamples(html: string)
    requires html != ""
    ensures Unwrap(Str(html)) == Ok(Str(html))
    ensures Unwrap(Obj(map["data" := Str(html)])) == Ok(Str(html))
    ensures Unwrap(Obj(map["data" := Str("")])) == Ok(Obj(map["data" := Str("")]))
  {
  }

  method ExportDocuments(client: ApiClient, spaceId: string, documentIds: seq<string>)
    returns (r: Result<JsValue, ExportError>)
    modifies client
    ensures var step := StepRequest(old(client.State()), ExportRequest(spaceId, documentIds));
      client.State() == step.after && r == ExportResult(step.result)
  {
    var d := ExportRequest(spaceId, documentIds);
    var posted := client.Post(d.path, d.body);
    r := ExportResult(posted);
  }

  method ExportDocumentAsPdf(client: ApiClient, spaceId: string, documentId: string)
    returns (r: Result<JsValue, ExportError>)
    modifies client
    ensures var step := StepRequest(old(client.State()), ExportRequest(spaceId, [documentId]));
      client.State() == step.after && r == ExportResult(step.result)
  {
    r := ExportDocuments(client, spaceId, [documentId]);
  }

  method ExportDocumentAsHtml(client: ApiClient, spaceId: string, documentId: string)
    returns (r: Result<JsValue, ExportError>)
    modifies client
    ensures var step := StepRequest(old(client.State()), ExportRequest(spaceId, [documentId]));
      client.State() == step.after && r == ExportResult(step.result)
  {
    r := ExportDocuments(client, spaceId, [documentId]);
  }

  method ExportDocumentAsDocx(client: ApiClient, spaceId: string, documentId: string)
    returns (r: Result<JsValue, ExportError>)
    modifies client
    ensures var step := StepRequest(old(client.State()), ExportRequest(spaceId, [documentId]));
      client.State() == step.after && r == ExportResult(step.result)
  {
    r := ExportDocuments(client, spaceId, [documentId]);
  }
}
