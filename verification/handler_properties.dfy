/** A second, table-driven description of the document handler: the list of
    its stages in order, each with its success condition, its error message
    and the Google call it makes. The handler is proved to answer with the
    message of the first failing stage after making exactly the calls of the
    stages up to and including it. */
module HandlerProperties {
  import opened Wrappers
  import opened DocRequests
  import opened DocumentHandler

  /** One stage of the pipeline. */
  datatype Stage = Stage(passes: bool, error: string, call: Option<Call>)

  /** The stages after the method check, in the order the handler runs them. */
  function Stages(req: Request, env: Env, svc: Services): seq<Stage> {
    var b := req.body;
    var id := DocumentId(svc.copy);
    [ Stage(CredentialsSet(env), CredentialsMissing, None),
      Stage(env.credentialsParse, CredentialsInvalid, None),
      Stage(svc.templateLookup.Succeeded?, TemplateUnavailable, Some(LookupTemplate(b.templateId))),
      Stage(svc.copy.Copied?, CopyFailed, Some(CopyTemplate(b.templateId, b.title, b.folderName))),
      Stage(HasDocumentId(svc.copy), NoDocumentId, None),
      Stage(svc.getDocument == Got(true), ReadFailed, Some(GetDocument(id))),
      if b.replacements.None? then
        Stage(false, UpdateFailure(ErrorValue(EntriesOfMissing)), None)
      else
        Stage(svc.batchUpdate.Succeeded?,
              if svc.batchUpdate.Threw? then UpdateFailure(svc.batchUpdate.thrown) else "",
              Some(BatchUpdate(id, BuildRequests(b.replacements.value, b.website)))),
      Stage(svc.share.Succeeded?, ShareFailed, Some(CreatePermission(id, "writer", "user", b.userEmail))) ]
  }

  /** The index of the first stage that fails, or the number of stages when all pass. */
  function FirstFailing(stages: seq<Stage>): (k: nat)
    ensures k <= |stages|
    ensures forall i :: 0 <= i < k ==> stages[i].passes
    ensures k < |stages| ==> !stages[k].passes
  {
    if |stages| == 0 || !stages[0].passes then 0 else 1 + FirstFailing(stages[1..])
  }

  /** The Google calls made by the first `n` stages, in order. */
  function CallsOf(stages: seq<Stage>, n: nat): (calls: seq<Call>)
    requires n <= |stages|
    ensures |calls| <= n
  {
    if n == 0 then []
    else
      var prev := CallsOf(stages, n - 1);
      match stages[n - 1].call
      case None => prev
      case Some(c) => prev + [c]
  }

  /** What the table says the handler answers: 405 for a non-POST request;
      otherwise the error of the first failing stage after the calls of the
      stages up to it, or the document link after every call. */
  function Expected(req: Request, env: Env, svc: Services): Handled {
    if req.httpMethod != "POST" then
      Handled(Response(405, MessageBody(MethodNotAllowed)), [])
    else
      var stages := Stages(req, env, svc);
      var k := FirstFailing(stages);
      if k < |stages| then
        Handled(Response(500, ErrorBody(CreateFailed, stages[k].error)), CallsOf(stages, k + 1))
      else
        Handled(Response(200, UrlBody(DocumentUrl(DocumentId(svc.copy)))), CallsOf(stages, k))
  }

  /** The handler agrees with the stage table on every input. */
  lemma HandleFollowsStageTable(req: Request, env: Env, svc: Services)
    ensures Handle(req, env, svc) == Expected(req, env, svc)
  {
    if req.httpMethod == "POST" {
      var st := Stages(req, env, svc);
      var k := FirstFailing(st);
      var b := req.body;
      var id := DocumentId(svc.copy);
      var lookup := [LookupTemplate(b.templateId)];
      var copied := lookup + [CopyTemplate(b.templateId, b.title, b.folderName)];
      var read := copied + [GetDocument(id)];
      assert CallsOf(st, 1) == [] && CallsOf(st, 2) == [];
      assert CallsOf(st, 3) == lookup;
      assert CallsOf(st, 4) == copied && CallsOf(st, 5) == copied;
      assert CallsOf(st, 6) == read;
      if b.replacements.Some? {
        var updated := read + [BatchUpdate(id, BuildRequests(b.replacements.value, b.website))];
        var shared := updated + [CreatePermission(id, "writer", "user", b.userEmail)];
        assert CallsOf(st, 7) == updated;
        assert CallsOf(st, 8) == shared;
      } else {
        assert CallsOf(st, 7) == read;
      }
    }
  }

  /** The position in the table of the stage that makes a call. */
  function CallStage(c: Call): nat {
    match c
    case LookupTemplate(_) => 2
    case CopyTemplate(_, _, _) => 3
    case GetDocument(_) => 5
    case BatchUpdate(_, _) => 6
    case CreatePermission(_, _, _, _) => 7
  }

  /** Every call the first `n` stages make is the call of one of them. */
  lemma {:induction false} CallsOfComeFromStages(stages: seq<Stage>, n: nat, c: Call)
    requires n <= |stages|
    requires c in CallsOf(stages, n)
    ensures exists i :: 0 <= i < n && stages[i].call == Some(c)
  {
    if n > 0 {
      var prev := CallsOf(stages, n - 1);
      if c in prev {
        CallsOfComeFromStages(stages, n - 1, c);
      } else {
        assert stages[n - 1].call == Some(c);
      }
    }
  }

  /** A POST request fails with a 500 exactly when some stage fails; the 500
      carries that first failing stage's message, and no call belonging to a
      later stage has been made. */
  lemma FirstFailureDecides(req: Request, env: Env, svc: Services)
    requires req.httpMethod == "POST"
    ensures var out := Handle(req, env, svc);
      var st := Stages(req, env, svc);
      var k := FirstFailing(st);
      && (out.response.status == 500 <==> k < |st|)
      && (out.response.status == 200 <==> k == |st|)
      && (k < |st| ==> out.response.body.error == st[k].error)
      && (forall c :: c in out.calls ==> CallStage(c) <= k)
  {
    HandleFollowsStageTable(req, env, svc);
    var out := Handle(req, env, svc);
    var st := Stages(req, env, svc);
    var k := FirstFailing(st);
    forall c | c in out.calls
      ensures CallStage(c) <= k
    {
      var n := if k < |st| then k + 1 else k;
      CallsOfComeFromStages(st, n, c);
    }
  }

  /** A missing or empty credentials variable, or one that is not JSON, stops
      the request before any Google call. */
  lemma CredentialFailures(req: Request, env: Env, svc: Services)
    requires req.httpMethod == "POST"
    ensures !CredentialsSet(env) ==>
      Handle(req, env, svc) == Handled(Response(500, ErrorBody(CreateFailed, CredentialsMissing)), [])
    ensures CredentialsSet(env) && !env.credentialsParse ==>
      Handle(req, env, svc) == Handled(Response(500, ErrorBody(CreateFailed, CredentialsInvalid)), [])
  {
  }

  /** A copy that returns no id ends the request before the document is read
      or updated. */
  lemma MissingIdStopsBeforeRead(req: Request, env: Env, svc: Services)
    requires req.httpMethod == "POST" && CredentialsSet(env) && env.credentialsParse
    requires svc.templateLookup.Succeeded? && svc.copy.Copied? && !HasDocumentId(svc.copy)
    ensures Handle(req, env, svc).response.body == ErrorBody(CreateFailed, NoDocumentId)
    ensures forall c :: c in Handle(req, env, svc).calls ==> !c.GetDocument? && !c.BatchUpdate?
  {
  }

  /** With the document read, the update stage fails with the fixed prefix
      followed by the thrown message: the client's own, after sending exactly
      the built request list, or, when the body has no `replacements`, the
      `TypeError` from enumerating them, before any update is sent. */
  lemma BatchUpdateFailureMessage(req: Request, env: Env, svc: Services, t: Thrown)
    requires req.httpMethod == "POST" && CredentialsSet(env) && env.credentialsParse
    requires svc.templateLookup.Succeeded? && HasDocumentId(svc.copy) && svc.getDocument == Got(true)
    ensures var out := Handle(req, env, svc);
      req.body.replacements.None? ==>
        && out.response.status == 500
        && out.response.body.error == UpdateFailedPrefix + EntriesOfMissing
        && |out.calls| == 3
        && (forall c :: c in out.calls ==> !c.BatchUpdate?)
    ensures var out := Handle(req, env, svc);
      req.body.replacements.Some? && svc.batchUpdate == Threw(t) ==>
        && out.response.status == 500
        && out.response.body.error == UpdateFailedPrefix + ThrownMessage(t)
        && |out.calls| == 4
        && out.calls[3] == BatchUpdate(svc.copy.id.value, BuildRequests(req.body.replacements.value, req.body.website))
  {
  }

  /** The document id written in a document link, if it is one. */
  function DocumentIdOfUrl(url: string): Option<string> {
    var lo := |DocumentUrlPrefix|;
    var hi := |url| - |DocumentUrlSuffix|;
    if lo <= hi && url[..lo] == DocumentUrlPrefix && url[hi..] == DocumentUrlSuffix
    then Some(url[lo..hi])
    else None
  }

  /** The document link gives back the id it was built from. */
  lemma DocumentUrlRoundTrip(id: string)
    ensures DocumentIdOfUrl(DocumentUrl(id)) == Some(id)
  {
  }

  /** A link that yields an id is exactly the link built from that id. */
  lemma DocumentIdOfUrlExact(url: string, id: string)
    requires DocumentIdOfUrl(url) == Some(id)
    ensures DocumentUrl(id) == url
  {
    var lo := |DocumentUrlPrefix|;
    var hi := |url| - |DocumentUrlSuffix|;
    assert url == url[..lo] + url[lo..hi] + url[hi..];
  }

  /** A POST request succeeds exactly when every stage passes; it then made
      the five calls in order and links to the copied document. */
  lemma SuccessfulCreation(req: Request, env: Env, svc: Services)
    requires req.httpMethod == "POST"
    ensures Handle(req, env, svc).response.status == 200 <==>
      && CredentialsSet(env) && env.credentialsParse
      && svc.templateLookup.Succeeded? && HasDocumentId(svc.copy)
      && svc.getDocument == Got(true) && req.body.replacements.Some?
      && svc.batchUpdate.Succeeded? && svc.share.Succeeded?
    ensures Handle(req, env, svc).response.status == 200 ==>
      var id := svc.copy.id.value;
      var b := req.body;
      && Handle(req, env, svc).response.body == UrlBody(DocumentUrl(id))
      && DocumentIdOfUrl(DocumentUrl(id)) == Some(id)
      && Handle(req, env, svc).calls ==
           [ LookupTemplate(b.templateId),
             CopyTemplate(b.templateId, b.title, b.folderName),
             GetDocument(id),
             BatchUpdate(id, BuildRequests(b.replacements.value, b.website)),
             CreatePermission(id, "writer", "user", b.userEmail) ]
  {
  }
}
