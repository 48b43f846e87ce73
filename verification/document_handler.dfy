/** The document-creation API handler: a pipeline of stages (method check,
    credentials, template check, copy, document id, read, batch update,
    sharing), each able to stop the request with a 500 whose `error` names the
    failing stage. The Google Drive and Docs calls are inputs: the handler's
    result records which calls it made, in order. */
module DocumentHandler {
  import opened Wrappers
  import opened DocRequests

  /** The fields of the POST body the handler reads. `replacements` is None
      when the body omits it or sends `null`; destructuring still succeeds. */
  datatype RequestBody = RequestBody(
    templateId: string,
    title: string,
    folderName: string,
    replacements: Option<seq<Replacement>>,
    userEmail: string,
    logoUrl: string,
    website: string)

  datatype Request = Request(httpMethod: string, body: RequestBody)

  /** The process environment: the credentials variable, and whether its
      value parses as JSON. */
  datatype Env = Env(credentials: Option<string>, credentialsParse: bool)

  /** A value thrown by a client library: an `Error` carries a message. */
  datatype Thrown = ErrorValue(message: string) | OtherValue

  /** Result of a client call whose reply the handler does not inspect. */
  datatype CallResult = Succeeded | Threw(thrown: Thrown)

  /** Result of the template copy: the new file's id may be missing. */
  datatype CopyResult = CopyThrew(thrown: Thrown) | Copied(id: Option<string>)

  /** Result of reading the copied document: its data may be missing. */
  datatype GetResult = GetThrew(thrown: Thrown) | Got(hasData: bool)

  /** What each Google call will do if it is made. */
  datatype Services = Services(
    templateLookup: CallResult,
    copy: CopyResult,
    getDocument: GetResult,
    batchUpdate: CallResult,
    share: CallResult)

  /** The Google calls the handler can make. */
  datatype Call =
    | LookupTemplate(fileId: string)
    | CopyTemplate(fileId: string, name: string, parent: string)
    | GetDocument(documentId: string)
    | BatchUpdate(documentId: string, requests: seq<DocRequest>)
    | CreatePermission(fileId: string, role: string, kind: string, emailAddress: string)

  /** The JSON bodies the handler responds with. */
  datatype Body =
    | MessageBody(message: string)
    | UrlBody(documentUrl: string)
    | ErrorBody(message: string, error: string)

  datatype Response = Response(status: int, body: Body)

  /** A response together with the Google calls made to produce it. */
  datatype Handled = Handled(response: Response, calls: seq<Call>)

  const MethodNotAllowed: string := "Method not allowed"
  const CreateFailed: string := "Failed to create document"
  const CredentialsMissing: string := "GOOGLE_APPLICATION_CREDENTIALS environment variable is not set"
  const CredentialsInvalid: string := "Invalid GOOGLE_APPLICATION_CREDENTIALS format"
  const TemplateUnavailable: string :=
    "Template file not found or not accessible. Please check the file ID and permissions."
  const CopyFailed: string := "Failed to copy template. Please check folder permissions."
  const NoDocumentId: string := "Failed to create document: No document ID returned"
  const ReadFailed: string := "Failed to get document content"
  const UpdateFailedPrefix: string := "Failed to update document content: "
  const ShareFailed: string := "Failed to set document permissions"
  /** The message of the `TypeError` that enumerating the entries of a missing
      record throws (the V8 wording). */
  const EntriesOfMissing: string := "Cannot convert undefined or null to object"

  const DocumentUrlPrefix: string := "https://docs.google.com/document/d/"
  const DocumentUrlSuffix: string := "/edit"

  /** The credentials variable is set to a non-empty value. */
  predicate CredentialsSet(env: Env) {
    env.credentials.Some? && env.credentials.value != ""
  }

  /** The copy produced a non-empty document id. */
  predicate HasDocumentId(copy: CopyResult) {
    copy.Copied? && copy.id.Some? && copy.id.value != ""
  }

  /** The document id, or the empty string when there is none. */
  function DocumentId(copy: CopyResult): string {
    if HasDocumentId(copy) then copy.id.value else ""
  }

  /** The message of a thrown value, "Unknown error" when it is not an `Error`. */
  function ThrownMessage(t: Thrown): (m: string)
    ensures t.ErrorValue? ==> m == t.message
    ensures t.OtherValue? ==> m == "Unknown error"
  {
    match t
    case ErrorValue(m) => m
    case OtherValue => "Unknown error"
  }

  /** The message of a failed batch update: the fixed prefix, then the
      client's own message. */
  function UpdateFailure(t: Thrown): (m: string)
    ensures |m| == |UpdateFailedPrefix| + |ThrownMessage(t)|
    ensures m[..|UpdateFailedPrefix|] == UpdateFailedPrefix
    ensures m[|UpdateFailedPrefix|..] == ThrownMessage(t)
  {
    UpdateFailedPrefix + ThrownMessage(t)
  }

  /** The link to the created document. */
  function DocumentUrl(id: string): (url: string)
    ensures |url| == |DocumentUrlPrefix| + |id| + |DocumentUrlSuffix|
    ensures url[..|DocumentUrlPrefix|] == DocumentUrlPrefix
    ensures url[|DocumentUrlPrefix|..|DocumentUrlPrefix| + |id|] == id
    ensures url[|DocumentUrlPrefix| + |id|..] == DocumentUrlSuffix
  {
    DocumentUrlPrefix + id + DocumentUrlSuffix
  }

  /** The 500 response for a stage failure. */
  function Fail(error: string, calls: seq<Call>): Handled {
    Handled(Response(500, ErrorBody(CreateFailed, error)), calls)
  }

  /** The handler. A non-POST request is refused with 405 before anything
      else; otherwise the stages run in order and the first one that fails
      ends the request with a 500 naming it, without making any later call. */
  function Handle(req: Request, env: Env, svc: Services): (out: Handled)
    ensures out.response.status in {200, 405, 500}
    ensures out.response.status == 405 <==> req.httpMethod != "POST"
    ensures out.response.status == 405 ==> out.response.body == MessageBody(MethodNotAllowed) && out.calls == []
    ensures out.response.status == 500 ==>
      out.response.body.ErrorBody? && out.response.body.message == CreateFailed
    ensures out.response.status == 200 ==>
      && HasDocumentId(svc.copy)
      && req.body.replacements.Some?
      && out.response.body == UrlBody(DocumentUrl(svc.copy.id.value))
      && |out.calls| == 5
    ensures |out.calls| <= 5
  {
    if req.httpMethod != "POST" then
      Handled(Response(405, MessageBody(MethodNotAllowed)), [])
    else if !CredentialsSet(env) then
      Fail(CredentialsMissing, [])
    else if !env.credentialsParse then
      Fail(CredentialsInvalid, [])
    else
      var b := req.body;
      var lookup := [LookupTemplate(b.templateId)];
      if svc.templateLookup.Threw? then
        Fail(TemplateUnavailable, lookup)
      else
        var copied := lookup + [CopyTemplate(b.templateId, b.title, b.folderName)];
        if svc.copy.CopyThrew? then
          Fail(CopyFailed, copied)
        else if !HasDocumentId(svc.copy) then
          Fail(NoDocumentId, copied)
        else
          var id := svc.copy.id.value;
          var read := copied + [GetDocument(id)];
          if !(svc.getDocument.Got? && svc.getDocument.hasData) then
            Fail(ReadFailed, read)
          else if b.replacements.None? then
            Fail(UpdateFailure(ErrorValue(EntriesOfMissing)), read)
          else
            var updated := read + [BatchUpdate(id, BuildRequests(b.replacements.value, b.website))];
            if svc.batchUpdate.Threw? then
              Fail(UpdateFailure(svc.batchUpdate.thrown), updated)
            else
              var shared := updated + [CreatePermission(id, "writer", "user", b.userEmail)];
              if svc.share.Threw? then
                Fail(ShareFailed, shared)
              else
                Handled(Response(200, UrlBody(DocumentUrl(id))), shared)
  }
}
