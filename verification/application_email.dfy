/**
 * The `send-project-application-email` function: tells a project owner about
 * a new application, with one link that accepts it and one that rejects it.
 * The fields of the body are not validated; the e-mail API's own answer is
 * passed back without being inspected.
 */
module ApplicationEmail {
  import opened Common
  import opened Text
  import opened Url
  import opened Backend
  import opened Http

  /** The JSON body the caller sends. */
  datatype Body = Body(
    applicantName: string,
    applicantEmail: string,
    projectId: Id,
    projectTitle: string,
    applicationId: Id,
    ownerEmail: string,
    ownerName: string,
    baseUrl: string)

  /** The request; a body that is not JSON is `None`. */
  datatype Request = Request(verb: string, body: Option<Body>)

  const Json := Some("application/json")
  const MethodNotAllowed := Response(405, ErrorJson("Method not allowed"), true, None)
  const Delivered := Response(200, SuccessJson(false), true, Json)

  /** The page an action link opens. */
  function RespondPath(baseUrl: string): string {
    baseUrl + "/applications/respond"
  }

  /**
   * The link the owner follows to take `action` on application `id`: the
   * respond page, with a query that reads back the id and the action as
   * long as neither contains '&' and the base has no query of its own.
   */
  function ActionLink(baseUrl: string, id: Id, action: string): (link: string)
    ensures link == RespondPath(baseUrl) + "?" + "applicationId" + "=" + id + "&" + "action" + "=" + action
    ensures |RespondPath(baseUrl)| < |link| && link[..|RespondPath(baseUrl)|] == RespondPath(baseUrl)
    ensures '?' !in baseUrl && '&' !in id && '&' !in action ==>
              Param(link, "applicationId") == Some(id) && Param(link, "action") == Some(action)
  {
    var path := RespondPath(baseUrl);
    var query := "?" + "applicationId" + "=" + id + "&" + "action" + "=" + action;
    var link := path + "?" + "applicationId" + "=" + id + "&" + "action" + "=" + action;
    assert link == path + query;
    if '?' !in baseUrl && '&' !in id && '&' !in action then
      assert '?' !in path by {
        assert path == baseUrl + "/applications/respond";
      }
      TwoParamsRoundTrip(path, "applicationId", id, "action", action);
      link
    else link
  }

  function AcceptLink(baseUrl: string, id: Id): string {
    ActionLink(baseUrl, id, "accept")
  }

  function RejectLink(baseUrl: string, id: Id): string {
    ActionLink(baseUrl, id, "reject")
  }

  /** The name the greeting uses: the owner's name, or "there" when it is empty. */
  function GreetingName(ownerName: string): (name: string)
    ensures ownerName != "" ==> name == ownerName
    ensures ownerName == "" ==> name == "there"
  {
    Or(ownerName, "there")
  }

  /** The e-mail the function hands to the e-mail API. */
  function Announcement(b: Body): (e: Email)
    ensures e.to == b.ownerEmail
    ensures e.subject == "New application for your project \"" + b.projectTitle + "\""
    ensures e.links == [AcceptLink(b.baseUrl, b.applicationId), RejectLink(b.baseUrl, b.applicationId)]
    ensures e.named == GreetingName(b.ownerName)
  {
    Email(b.ownerEmail,
          "New application for your project \"" + b.projectTitle + "\"",
          [AcceptLink(b.baseUrl, b.applicationId), RejectLink(b.baseUrl, b.applicationId)],
          GreetingName(b.ownerName))
  }

  /** The handler: any parsed body produces exactly one e-mail and a 200. */
  function Handle(req: Request, s: Store): (r: (Response, Store))
    ensures req.verb == "OPTIONS" ==> r == (Preflight, s)
    ensures req.verb != "OPTIONS" && req.verb != "POST" ==> r == (MethodNotAllowed, s)
    ensures req.verb == "POST" && req.body.None? ==> r == (Response(500, Thrown, true, Json), s)
    ensures r.0.cors
    ensures r.1.(outbox := s.outbox) == s
    ensures r.0 == Delivered <==> req.verb == "POST" && req.body.Some?
    ensures r.0 == Delivered ==> r.1.outbox == s.outbox + [Announcement(req.body.value)]
    ensures r.0 != Delivered ==> r.1 == s
  {
    if req.verb == "OPTIONS" then (Preflight, s)
    else if req.verb != "POST" then (MethodNotAllowed, s)
    else if req.body.None? then (Response(500, Thrown, true, Json), s)
    else (Delivered, s.(outbox := s.outbox + [Announcement(req.body.value)]))
  }

  /**
   * Both links of an announcement read back the application id and their own
   * action: opening either one hands the responder the application the
   * e-mail was about. Ids with none of '&', '#', '%', '+' (UUIDs, say)
   * survive the query string unchanged.
   */
  lemma LinkRoundTrip(b: Body)
    requires '?' !in b.baseUrl
    requires '&' !in b.applicationId && '#' !in b.applicationId && '%' !in b.applicationId && '+' !in b.applicationId
    ensures var e := Announcement(b);
            && Param(e.links[0], "applicationId") == Some(b.applicationId)
            && Param(e.links[0], "action") == Some("accept")
            && Param(e.links[1], "applicationId") == Some(b.applicationId)
            && Param(e.links[1], "action") == Some("reject")
  {
    assert '&' !in "accept" && '&' !in "reject";
    var accept := ActionLink(b.baseUrl, b.applicationId, "accept");
    var reject := ActionLink(b.baseUrl, b.applicationId, "reject");
    assert Announcement(b).links == [accept, reject];
  }

  /**
   * The two links differ exactly in their final action word: everything
   * before it, and hence the application id they carry, is the same.
   */
  lemma LinksDiffer(baseUrl: string, id: Id)
    ensures var a, r := AcceptLink(baseUrl, id), RejectLink(baseUrl, id);
            && |a| == |r| >= 6
            && a[..|a| - 6] == r[..|r| - 6]
            && a[|a| - 6..] == "accept" && r[|r| - 6..] == "reject"
            && a != r
    ensures '?' !in baseUrl && '&' !in id ==>
              Param(AcceptLink(baseUrl, id), "applicationId") == Param(RejectLink(baseUrl, id), "applicationId") == Some(id)
  {
    var prefix := RespondPath(baseUrl) + "?" + "applicationId" + "=" + id + "&" + "action" + "=";
    var a, r := AcceptLink(baseUrl, id), RejectLink(baseUrl, id);
    assert a == prefix + "accept" && r == prefix + "reject";
    assert a[..|a| - 6] == prefix && a[|a| - 6..] == "accept";
    assert r[..|r| - 6] == prefix && r[|r| - 6..] == "reject";
    assert a[|prefix|] == 'a' && r[|prefix|] == 'r';
    assert '&' !in "accept" && '&' !in "reject";
  }
}
