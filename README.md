# Documize MCP server: the authenticated API client and its resource services

This project models, in Dafny, the part of the Documize MCP server that talks to
a Documize instance:

- **The authenticated request client** (`ApiClient`). It holds one mutable
  cell, the bearer token, and authenticates lazily. Requests to the
  authentication endpoint carry the `Basic <credentials>` challenge; every
  other request carries `Bearer <token>`. After a 401 the client clears the
  token, authenticates again and replays the request. Every other failure
  becomes one of three error messages.
- **The resource services**: import, document, user, search, space, export
  and category. Each builds a path and, for some operations, a payload with
  defaulted fields, and then makes one call through the client.

## Layout

- `wrappers.dfy` (`Wrappers`): `Option` and `Result`.
- `js_values.dfy` (`JsValues`): the JavaScript values that travel as bodies.
  It also defines JavaScript truthiness, `a || b`, `a !== undefined ? a : b`
  and property access.
- `text.dfy` (`Text`): the string operations the code relies on:
  - `includes`;
  - ASCII lower-casing;
  - the constructor's `replace(/\/$/, "")`;
  - `split('.').pop()`;
  - `/`-joined routes;
  - decimal rendering of status codes.
- `api_client.dfy` (`Client`): the client.
  - The functions `StepAuthenticate`, `PreCall` and `StepRequest` give the
    meaning of one call on a `Session` snapshot.
  - The class `ApiClient` has the fields `baseURL`, `credentials` and
    `token`, plus the transport scripts and a ghost authentication counter
    and sent log. Its methods change those fields. Each method's
    postcondition ties the new state and the result to the step function of
    the old state.
- `api_client_properties.dfy` (`ClientProperties`): the client's
  properties, stated about the step functions:
  - lazy authentication;
  - header attachment;
  - the 401 replay and the absence of a replay bound;
  - what is handed to the transport;
  - the distinctness of the error messages;
  - three end-to-end scenarios.
- One module per resource service. Each operation is a function returning the
  request descriptor `(verb, path, body)` it hands to the client. Where the
  service post-processes the result (import, export), a method runs the
  request on an `ApiClient`.

The transport and the authentication endpoint are scripted oracles. The
`replies` script gives the outcome of each request sent through the axios
instance, in order:
- a body;
- an HTTP rejection with status, body and message;
- "sent, no response";
- "never sent".

The `authReplies` script gives the outcome of each `axios.post` to the
authentication endpoint. `JSON.stringify` is a parameter of `ErrorMessage`.

Axios chains the two interceptors. A rejection raised in the request hook (the
lazy `authenticate()` at `src/services/api-client.ts:39`) therefore reaches the
response hook's error handler. That error carries neither a response nor a
request, so the caller sees `Request error: Authentication failed: …`. The
`authenticate()` inside the response hook (line 57) throws straight to the
caller, as `Authentication failed: …`. `HookRejected` and `StepRequest`
model these two paths.

The token cell holds a JavaScript value. It starts as `null` and is reset to
`null` on a 401. A successful authentication stores whatever
`response.data.token` reads as: usually a string, but `undefined` when the
field is missing and `null` or any other JSON value when the server sends one.
The token test at line 38 is JavaScript truthiness, so `""`, `0`, `false` and
`null` count as no token. The header at line 42 interpolates the value as
`String(token)` does (`ToJsString`), so it can read `Bearer undefined` or
`Bearer null`.

The code has no retry counter. The replay at line 59 passes through both hooks
again, so every further 401 triggers another authentication and another
replay. `NoBoundOnReplays` shows n consecutive 401s absorbed by n
authentications.

## Model

| member | source | states |
|---|---|---|
| Text.StripTrailingSlash | src/services/api-client.ts:17 | one trailing `/` is removed when present (`r + "/" == s`); otherwise the URL is unchanged |
| Client.Fresh | src/services/api-client.ts:14-18 | a new session's base URL is `StripTrailingSlash` of the given one, so it is the given one or the given one minus one final `/`; credentials kept; token null; nothing authenticated or sent |
| Client.BasicHeader | src/services/api-client.ts:33 | the challenge is `Basic ` followed by the credentials, unchanged |
| Client.BearerHeader | src/services/api-client.ts:42 | the header is `Bearer ` followed by the token rendered as template interpolation renders it (`undefined`, `null`, a number's digits or the string itself) |
| JsValues.ToJsString | src/services/api-client.ts:42 | the `String(v)` rendering of a value inside a template string (a helper without its own contract) |
| JsValues.Truthy | src/services/api-client.ts:38 | JavaScript truthiness: a truthy value is never `null` or `undefined`, and a string is truthy iff it is not empty |
| JsValues.Or | src/services/api-client.ts:65 | `a || b`: `a` when `a` is truthy, `b` otherwise, so the result is truthy iff either operand is (also used at document-service.ts:97-100, search-service.ts:35, export-service.ts:23) |
| JsValues.IfDefined | src/services/user-service.ts:43-46 | `a !== undefined ? a : b`: `b` only when `a` is `undefined`, so `null` and `false` are kept; the result is `undefined` iff both are (also used at search-service.ts:31-34) |
| JsValues.Prop | src/services/export-service.ts:23 | `v.key` on a non-nullish value: the field's value when `v` is an object holding `key`, and `undefined` in every other case |
| Text.Contains | src/services/api-client.ts:32 | `String.prototype.includes` (also used at line 53); a predicate without its own contract, characterised by `Text.ContainsAt` and `Text.ContainsOffset` |
| Text.ContainsAt | src/services/api-client.ts:32 | an occurrence of `t` at any offset of `s` makes `s.includes(t)` true |
| Text.ContainsOffset | src/services/api-client.ts:32 | conversely, when `s.includes(t)` holds there is an offset at which `t` occurs in `s` |
| Client.TokenHeld | src/services/api-client.ts:38 | `!this.token` is false exactly for truthy tokens (a predicate without its own contract) |
| Client.AuthRequest | src/services/api-client.ts:84-93 | the authentication request is a POST of `{}` to the base URL plus `/api/public/authenticate`, with `Basic <credentials>` |
| Client.Replays | src/services/api-client.ts:53 | a reply is replayed iff it is a 401 and the URL does not contain `/authenticate` (a predicate without its own contract) |
| Client.ApiClient.constructor | src/services/api-client.ts:16-27 | the new object's state is the fresh session: slash stripped, token null, no authentication call, nothing sent |
| ClientProperties.FreshClient | src/services/api-client.ts:14-18 | a fresh session's base URL is exactly `StripTrailingSlash(baseURL)`; token null; zero authentications; nothing sent; both scripts untouched |
| Client.StepAuthenticate | src/services/api-client.ts:82-98 | succeeds iff the endpoint grants; only success assigns the token (to the returned `data.token`); a failure leaves it unchanged and raises `AuthenticationFailed` with the message or `Unknown error`; each attempt counts one call and logs one Basic-authorised POST |
| Client.ApiClient.Authenticate | src/services/api-client.ts:82-98 | the method's result and new fields are those of `StepAuthenticate` on the old state |
| Client.PreCall | src/services/api-client.ts:29-46 | a URL containing `/api/public/authenticate` gets `Basic <credentials>` and nothing changes; with a truthy token, `Bearer <token>` and nothing changes; otherwise one authentication runs first, and the header uses the token it stored, or its error is returned |
| Client.HookRejected | src/services/api-client.ts:38-74 | an authentication failure raised in the request hook reaches the caller as `RequestError("Authentication failed: " + cause)`; other errors pass unchanged |
| Client.Normalize | src/services/api-client.ts:63-74 | exactly one of three errors: an API error iff a response exists (with its status and data, or the message when the data is falsy); "no response" iff the request was sent without one; a request error with the message otherwise |
| Client.Settle | src/services/api-client.ts:49-75 | a reply resolves to `Ok` iff it is a body, and that body is returned unchanged (null and arrays included); any other reply gives its normalised error |
| Client.StepRequest | src/services/api-client.ts:29-76 | base URL and credentials never change, and the reply script only shrinks; the properties below are stated about this function |
| Client.ApiClient.Request | src/services/api-client.ts:29-76 | the request hook, the transport and the response hook with the 401 replay, changing the token field as the source does; result and new state equal `StepRequest` of the old state |
| Client.ApiClient.Get | src/services/api-client.ts:103-106 | `get(path)` is a body-less GET request through the client, returning what the request returns |
| Client.ApiClient.Post | src/services/api-client.ts:111-114 | `post(path, data)` is a POST request with that body |
| Client.ApiClient.Put | src/services/api-client.ts:119-122 | `put(path, data)` is a PUT request with that body |
| Client.ApiClient.Delete | src/services/api-client.ts:127-130 | `delete(path)` is a body-less DELETE request |
| Client.Issued | src/services/api-client.ts:103-130 | a descriptor issued through its verb method keeps verb and path; GET and DELETE drop the body; POST and PUT keep it |
| Client.ApiClient.Call | src/services/api-client.ts:103-130 | issuing a service's descriptor through the verb method it names equals `StepRequest` of the issued descriptor |
| Client.ErrorMessage | src/services/api-client.ts:63-96 | the caller's texts, in full: `Documize API error (<status>): <JSON of data or message>`; `No response received from Documize API`; `Request error: <message>`; `Authentication failed: <cause>` |
| ClientProperties.MessageLead | src/services/api-client.ts:63-96 | each kind of error message starts with its own letter |
| ClientProperties.MessagesTellKindsApart | src/services/api-client.ts:63-96 | two error messages that are equal come from errors of the same kind, whatever `JSON.stringify` prints: the cases are mutually exclusive |
| ClientProperties.AuthenticatePathHasMarker | src/services/api-client.ts:32-53 | every URL containing `/api/public/authenticate` also contains `/authenticate`, so its 401s are never replayed |
| ClientProperties.LazyAuthentication | src/services/api-client.ts:37-43 | with no token and a non-authentication URL, exactly one authentication runs before the request; the request then carries `Bearer` plus the new token, and its reply is the result |
| ClientProperties.LazyAuthenticationRefused | src/services/api-client.ts:38-73 | if that first authentication fails, only the authentication request goes out, the token is unchanged, and the caller gets `Request error: Authentication failed: …` |
| ClientProperties.HeldTokenSkipsAuthentication | src/services/api-client.ts:37-43 | with a token held, no authentication happens; the request carries `Bearer <token>`; the token and the authentication script are unchanged |
| ClientProperties.AuthenticatePathUsesBasic | src/services/api-client.ts:31-35 | a request to the authentication path carries `Basic <credentials>`, never authenticates, never replays, and leaves the token alone |
| ClientProperties.MarkedPath401Reported | src/services/api-client.ts:53-69 | whatever the request hook did first (a lazy authentication included), a 401 on a URL containing `/authenticate` is reported as an API error with status 401 and is not replayed: token, authentication count and script stay as the hook left them, and only the request is logged |
| ClientProperties.ReplayAfterRejection | src/services/api-client.ts:52-60 | whatever the request hook did first (a lazy authentication included), a 401 on another URL clears the token and authenticates once (both requests logged); the result is that of the same descriptor sent again from there |
| ClientProperties.ReplayWithHeldToken | src/services/api-client.ts:52-60 | the same replay when a token was already held, so the rejected request carried `Bearer <token>` |
| ClientProperties.ReplayAuthenticationRefused | src/services/api-client.ts:53-57 | whatever the request hook did first, when re-authentication after a 401 fails, `Authentication failed: …` reaches the caller directly, the token stays null, and only the rejected request and the authentication request are logged |
| ClientProperties.NoBoundOnReplays | src/services/api-client.ts:52-60 | n consecutive 401s answered by n granted authentications are all absorbed: the call returns the next body after n authentications and 2n+1 sent requests |
| ClientProperties.OnlyOutgoing | src/services/api-client.ts:29-59 | a call keeps the sent log and adds only authentication requests and copies of the caller's descriptor (same verb, path and body), the latter with Basic on the authentication path and Bearer elsewhere, replays included |
| ClientProperties.FirstCallScenario | src/services/api-client.ts:29-43 | a fresh client's `GET /api/space` sends the Basic authentication POST to the stripped base URL, then the GET with `Bearer tok1`, and returns the body |
| ClientProperties.ExpiredTokenScenario | src/services/api-client.ts:52-60 | with `tok1` rejected once, the call resends with `Bearer tok2` after one authentication and returns the body; the 401 never reaches the caller |
| ClientProperties.SpacePathUnmarked | src/services/api-client.ts:53 | `/api/space/space1` contains neither `/authenticate` nor `/api/public/authenticate`, so it is an ordinary path for both hooks |
| ClientProperties.FirstPreCall | src/services/api-client.ts:37-42 | on a client holding no token the request hook authenticates once, records the token and yields `Bearer tok1` |
| ClientProperties.FreshFirstReplay | src/services/api-client.ts:52-60 | the first round of a fresh client's 401: authenticate, send with `Bearer tok1`, reset the token, authenticate again and replay with the rest of the replies |
| ClientProperties.FreshFirst401Scenario | src/services/api-client.ts:37-60 | a new client whose first request meets a 401: it authenticates (`tok1`), sends, authenticates again (`tok2`), resends with `Bearer tok2` and returns the body |
| Text.AfterLastDot | src/services/import-service.ts:65 | the result is a suffix without `.`, preceded by `.` unless it is the whole string |
| Text.AfterLastDotAppend | src/services/import-service.ts:65 | the text after the last `.` of `p + "." + ext` is `ext` whenever `ext` has no `.`, whatever `p` holds |
| Text.Lower | src/services/import-service.ts:65 | lower-casing keeps the length and maps every character through `LowerChar` |
| Text.LowerIdempotent | src/services/import-service.ts:65 | lower-casing twice is lower-casing once |
| ImportService.Extension | src/services/import-service.ts:65 | the extension is a suffix of the lower-cased name without `.`, preceded by `.` in the name unless it is the whole name |
| ImportService.ExtensionWithoutDot | src/services/import-service.ts:65 | a name without `.` is its own extension, lower-cased |
| ImportService.ExtensionAfterLastDot | src/services/import-service.ts:65 | the extension of `stem.ext` is `ext` lower-cased, whatever dots the stem holds |
| ImportService.MimeType | src/services/import-service.ts:67-79 | `html`/`htm` iff `text/html`; `md`/`markdown` iff `text/markdown`; `doc`/`docx` iff the wordprocessingml type; any other extension iff `application/octet-stream` |
| ImportService.GetContentType | src/services/import-service.ts:64-80 | the MIME type of the name's extension (a function without its own contract, characterised by `ContentTypeByExtension` and `ContentTypeIgnoresCase`) |
| ImportService.ContentTypeByExtension | src/services/import-service.ts:64-79 | the content type of `stem.ext` is the MIME type of `ext` lower-cased |
| ImportService.ContentTypeIgnoresCase | src/services/import-service.ts:65 | `getContentType(f) == getContentType(lower(f))` |
| ImportService.ImportPath | src/services/import-service.ts:49 | the upload path is the route `/api/import/folder/<spaceId>` |
| ImportService.ImportRequest | src/services/import-service.ts:39-56 | a POST to that path whose body is the file as multipart field `attachment`, with its filename and the content type of its extension |
| ImportService.ImportDocument | src/services/import-service.ts:39-59 | the result is the response data of that POST through the client, errors included, and the client's state is as after that request |
| DocumentService.ListDocuments | src/services/document-service.ts:58-60 | `GET /api/documents?space=<spaceId>` |
| DocumentService.GetDocument | src/services/document-service.ts:62-64 | `GET` of the route `/api/documents/<id>` |
| DocumentService.UpdateDocument | src/services/document-service.ts:66-68 | `PUT` to the path `getDocument` reads, with the caller's partial document as the body, unchanged |
| DocumentService.DeleteDocument | src/services/document-service.ts:70-72 | body-less `DELETE` of the path `getDocument` reads |
| DocumentService.GetPages | src/services/document-service.ts:74-76 | `GET` of the route `/api/documents/<id>/pages` |
| DocumentService.GetPage | src/services/document-service.ts:78-80 | `GET` of the route `/api/documents/<d>/pages/<p>` |
| DocumentService.UpdatePage | src/services/document-service.ts:111-113 | `PUT` to the path `getPage` reads, with the caller's partial page as the body, unchanged |
| DocumentService.DeletePage | src/services/document-service.ts:115-117 | body-less `DELETE` of the path `getPage` reads |
| DocumentService.PagePathExtendsPagesPath | src/services/document-service.ts:74-80 | a page's path is its document's pages path followed by `/<pageId>` |
| DocumentService.CreatePagePayload | src/services/document-service.ts:92-107 | `{page, meta}` with exactly the listed keys; `contentType`, `pageType`, `level` and `sequence` replaced by `wysiwyg`, `section`, 1 and 1 when missing, `""` or `0`; `meta.documentId == page.documentId`, `meta.rawBody == page.body`; `meta.config == "{}"` |
| DocumentService.CreatePage | src/services/document-service.ts:82-109 | `POST` of that payload to the path `getPages` reads |
| UserService.ListUsers | src/services/user-service.ts:34-36 | `GET /api/users` |
| UserService.CreateUserPayload | src/services/user-service.ts:39-47 | exactly the seven fields; names and e-mail verbatim; each flag `true` only when undefined, an explicit `false` kept |
| UserService.CreateUser | src/services/user-service.ts:38-49 | `POST` of that payload to the path `listUsers` reads |
| UserService.DeleteUser | src/services/user-service.ts:51-53 | `DELETE` of the route `/api/users/<id>` |
| UserService.ListGroups | src/services/user-service.ts:55-57 | `GET /api/group` |
| UserService.JoinGroup | src/services/user-service.ts:59-61 | `POST` of `{}` to the route `/api/group/<g>/join/<u>` |
| UserService.LeaveGroup | src/services/user-service.ts:63-65 | `DELETE` of the route `/api/group/<g>/leave/<u>` |
| SearchService.SearchBody | src/services/search-service.ts:29-36 | exactly six fields; keywords verbatim; `content`, `doc` and `tag` default to `true` and `attachment` to `false` only when undefined, so explicit values, `false` included, are kept; `spaceId` defaults to `""` |
| SearchService.Search | src/services/search-service.ts:28-39 | always `POST /api/search` with that body |
| SpaceService.ListSpaces | src/services/space-service.ts:23-25 | `GET /api/space` |
| SpaceService.GetSpace | src/services/space-service.ts:30-32 | `GET` of the route `/api/space/<id>` |
| SpaceService.CreateSpacePayload | src/services/space-service.ts:38-44 | exactly `name`, `cloneId: ""` and the three copy flags, all `false` |
| SpaceService.CreateSpace | src/services/space-service.ts:37-47 | `POST` of that payload to the path `listSpaces` reads |
| SpaceService.CreateSpaceIgnoresDescription | src/services/space-service.ts:37-46 | two calls with the same name send the same request, whatever the description |
| SpaceService.DeleteSpace | src/services/space-service.ts:52-54 | `DELETE` of the path `getSpace` reads |
| CategoryService.ListCategories | src/services/category-service.ts:23-25 | `GET` of the route `/api/space/<spaceId>/category` |
| CategoryService.CreateCategoryPayload | src/services/category-service.ts:31-34 | exactly `spaceId` and `name`, both verbatim |
| CategoryService.CreateCategory | src/services/category-service.ts:30-37 | `POST /api/category` with that payload |
| CategoryService.CreateCategoryPathFixed | src/services/category-service.ts:36 | the create path does not depend on the parameters and differs from the list path |
| ExportService.ExportRequest | src/services/export-service.ts:18-22 | `POST /api/export` with exactly `spaceId`, `data` (the ids, in order) and `filterType: "document"` |
| ExportService.Unwrap | src/services/export-service.ts:23 | `response.data` when truthy, else the whole response; a `null` or `undefined` response throws |
| ExportService.UnwrapExamples | src/services/export-service.ts:23 | a raw HTML string is returned as is; `{data: html}` gives the html; `{data: ""}` is returned whole |
| ExportService.ExportResult | src/services/export-service.ts:18-24 | a failure of the post propagates unchanged; a body is unwrapped |
| ExportService.ExportDocuments | src/services/export-service.ts:17-24 | one export request through the client; its result is `ExportResult` of the post's result |
| ExportService.ExportDocumentAsPdf | src/services/export-service.ts:30-32 | exactly `exportDocuments(spaceId, [documentId])` |
| ExportService.ExportDocumentAsHtml | src/services/export-service.ts:37-39 | exactly `exportDocuments(spaceId, [documentId])` |
| ExportService.ExportDocumentAsDocx | src/services/export-service.ts:45-47 | exactly `exportDocuments(spaceId, [documentId])` |

## Left out

- Concurrency. The model covers sequential calls only; overlapping requests
  and promise interleavings are not modelled. The source has no single-flight
  guard in any case.
- Axios internals. The 30000 ms timeout, the default `Content-Type` header,
  header merging, the combination of base URL and relative path, and the
  interceptor registration machinery are not modelled. The Authorization
  header the request hook writes is recorded in the sent log, which holds
  every request handed to the transport, one answered `NotSent` included. The header
  written at line 58 is overwritten by the replay's request hook and is not
  recorded separately.
- The transport and the authentication endpoint are scripted oracles. When a
  script runs out, the model returns `ScriptExhausted`. This error exists only
  in the model, and `ErrorMessage` excludes it.
- Client.StepRequest: the replay recursion terminates because the reply
  script is finite. The source has no bound at all, so an endless stream of
  401s would loop forever there.
- Client.Normalize: the failure object always carries its request config. An
  axios error without a config, which skips the replay at line 56, is not
  modelled.
- Client.StepAuthenticate: every rejection of `axios.post` is an `Error` with
  a message or a missing message. A rejection with a non-`Error` value gives
  `Unknown error` in the source; the model treats it as a missing message. A
  2xx answer whose body is `null` or `undefined` makes the read of `.token`
  throw a TypeError, which the catch turns into `Authentication failed:
  <TypeError message>`; the script gives that case as a `Refused` reply
  carrying the engine's message.
- `JSON.stringify` is a parameter of `ErrorMessage`, since it is outside the
  code. The decimal rendering of the status is modelled.
- Text.Lower: lower-casing is ASCII only. `toLowerCase` on other Unicode
  letters is not modelled.
- JavaScript numbers are integers. Fractional numbers and NaN do not occur in
  the modelled payloads. Page `sequence` defaults to the integer 1, which is
  the JavaScript value `1.0`.
- ImportService.ImportRequest: the file content is a string. A `Buffer`
  content and the FormData multipart encoding with `form.getHeaders()` are not
  modelled. The part is recorded as field name, filename, content type and
  content.
- The service methods other than import and export only forward their
  descriptor to a verb method. They are modelled as the descriptor they
  build; `ApiClient.Call` issues any descriptor.
- `src/index.ts` (the MCP tool wiring, environment checks and `McpError`
  wrapping) is not part of this model, and neither is `integration-test.ts`
  (live-server I/O and timing).
- The credentials are an opaque string; the client never decodes them.
