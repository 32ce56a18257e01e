/** ImportService: uploading a file that the server converts into a document. */
module ImportService {
  import opened Wrappers
  import opened JsValues
  import opened Text
  import opened Client

  const HtmlType: string := "text/html"
  const MarkdownType: string := "text/markdown"
  const WordType: string := "application/vnd.openxmlformats-officedocument.wordprocessingml.document"
  const BinaryType: string := "application/octet-stream"

  /** The extension `getContentType` switches on: the lower-cased name's
      text after its last `.`. */
  function Extension(filename: string): (ext: string)
    ensures '.' !in ext && |ext| <= |filename|
    ensures ext == Lower(filename)[|filename| - |ext|..]
    ensures |ext| < |filename| ==> filename[|filename| - |ext| - 1] == '.'
  {
    var lower := Lower(filename);
    var ext := AfterLastDot(lower);
    assert |ext| < |filename| ==> LowerChar(filename[|filename| - |ext| - 1]) == '.';
    ext
  }

  /** A name without `.` is its own extension, lower-cased. */
  lemma ExtensionWithoutDot(filename: string)
    requires '.' !in filename
    ensures Extension(filename) == Lower(filename)
  {
    var ext := Extension(filename);
    assert forall k :: 0 <= k < |filename| ==> filename[k] != '.';
    assert |ext| == |filename|;
    assert Lower(filename)[0..] == Lower(filename);
  }

  /** The extension of `stem.ext` is `ext`, lower-cased, when `ext` has no
      `.`, whatever dots the stem holds. */
  lemma ExtensionAfterLastDot(stem: string, ext: string)
    requires '.' !in ext
    ensures Extension(stem + "." + ext) == Lower(ext)
  {
    LowerAppend(stem + ".", ext);
    LowerAppend(stem, ".");
    assert Lower(".") == ".";
    assert '.' !in Lower(ext) by {
      forall k | 0 <= k < |ext|
        ensures Lower(ext)[k] != '.'
      {
        assert ext[k] != '.';
      }
    }
    AfterLastDotAppend(Lower(stem), Lower(ext));
  }

  /** The MIME type for an extension. */
  function MimeType(ext: string): (t: string)
    ensures t == HtmlType <==> ext in {"html", "htm"}
    ensures t == MarkdownType <==> ext in {"md", "markdown"}
    ensures t == WordType <==> ext in {"doc", "docx"}
    ensures t == BinaryType <==> ext !in {"html", "htm", "md", "markdown", "doc", "docx"}
  {
    match ext
    case "html" => HtmlType
    case "htm" => HtmlType
    case "md" => MarkdownType
    case "markdown" => MarkdownType
    case "doc" => WordType
    case "docx" => WordType
    case _ => BinaryType
  }

  /** The MIME type of the uploaded part, chosen by the file's extension. */
  function GetContentType(filename: string): string
  {
    MimeType(Extension(filename))
  }

  /** `stem.ext` is typed by `ext` lower-cased, whatever dots the stem holds:
      `Notes.v2.MD` is Markdown, `archive.tar.gz` is raw bytes. */
  lemma ContentTypeByExtension(stem: string, ext: string)
    requires '.' !in ext
    ensures GetContentType(stem + "." + ext) == MimeType(Lower(ext))
  {
    ExtensionAfterLastDot(stem, ext);
  }

  /** The mapping ignores case. */
  lemma ContentTypeIgnoresCase(filename: string)
    ensures GetContentType(filename) == GetContentType(Lower(filename))
  {
    LowerIdempotent(filename);
  }

  /** The upload's target: the space's import folder. */
  function ImportPath(spaceId: string): (p: string)
    ensures p == Route(["api", "import", "folder", spaceId])
  {
    Route4("api", "import", "folder", spaceId);
    "/api/import/folder/" + spaceId
  }

  /** The upload: a POST to the space's import folder with the file as the
      multipart field `attachment`, typed by its extension. */
  function ImportRequest(spaceId: string, filename: string, content: string): (d: Descriptor)
    ensures d.verb == POST && d.path == Route(["api", "import", "folder", spaceId])
    ensures d.body == Some(Multipart("attachment", filename, MimeType(Extension(filename)), content))
  {
    Descriptor(POST, ImportPath(spaceId),
               Some(Multipart("attachment", filename, GetContentType(filename), content)))
  }

  /** `importDocument` returns the response's data, as a post does. */
  method ImportDocument(client: ApiClient, spaceId: string, filename: string, content: string)
    returns (r: Result<JsValue, ClientError>)
    modifies client
    ensures Step(r, client.State()) == StepRequest(old(client.State()), ImportRequest(spaceId, filename, content))
  {
    var d := ImportRequest(spaceId, filename, content);
    r := client.Post(d.path, d.body);
  }
}
