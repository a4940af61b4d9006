/** The older Client of src/client.py. It raises nothing: a refused call
    returns None and a failed request returns the status code. */
module LegacyClient {
  import opened Values
  import opened Transport
  import Resolver

  const ApiRootUrl := "https://api.datamermaid.org/v1/"
  const ApiRootDevUrl := "https://dev-api.datamermaid.org/v1/"

  /** `npr_endpoints` as written: there is no comma after 'me', so Python
      joins the two adjacent literals into one entry. */
  const NprEndpoints: seq<string> :=
    ["health", "managements", "me" + "profiles", "projecttags", "sites", "summarysites", "version"]

  const AttrsEndpoints: seq<string> :=
    ["benthicattributes", "fishfamilies", "fishgenera", "fishgroupings", "fishsizes", "fishspecies"]

  /** What `api_root` returns: the decoded body, or the bare status code. */
  datatype Reply = Body(json: Json) | Status(code: int)

  /** The status branch of `api_root`. */
  function ReplyOf(resp: Response): (r: Reply)
    ensures r.Body? <==> resp.status == HttpOk
    ensures r.Body? ==> r.json == resp.body
    ensures r.Status? ==> r.code == resp.status
  {
    if resp.status == HttpOk then Body(resp.body) else Status(resp.status)
  }

  /** The URL of `api_root`: the root and the subdirectory, joined with no
      separator. */
  function RootUrl(url: string, subdirectory: string): (u: string)
    ensures |u| == |url| + |subdirectory|
    ensures u[..|url|] == url && u[|url|..] == subdirectory
  {
    url + subdirectory
  }

  /** What `get_info` requests: nothing for "me" without authentication,
      otherwise the name as given, unchecked. */
  function InfoTarget(info: string, authenticated: bool): (target: Option<string>)
    ensures target.None? <==> info == "me" && !authenticated
    ensures target.Some? ==> target.value == info
  {
    if info == "me" && !authenticated then None else Some(info)
  }

  /** What `get_attribute` requests: only attribute names. */
  function AttributeTarget(attr: string): (target: Option<string>)
    ensures target.Some? <==> attr in AttrsEndpoints
    ensures target.Some? ==> target.value == attr
  {
    if attr !in AttrsEndpoints then None else Some(attr)
  }

  /** The payload of `get_projects`. */
  function ProjectsParams(showall: bool): (p: Payload)
    ensures p.NoParams? <==> !showall
    ensures showall ==> p == Flag("showall")
  {
    if !showall then NoParams else Flag("showall")
  }

  /** The missing comma leaves "me" and "profiles" out of the list and puts
      "meprofiles" in; with the comma it would be the newer client's list. */
  lemma NprEndpointsAsWritten()
    ensures |NprEndpoints| == 7
    ensures "meprofiles" in NprEndpoints
    ensures "me" !in NprEndpoints && "profiles" !in NprEndpoints
    ensures NprEndpoints[..2] + ["me", "profiles"] + NprEndpoints[3..] == Resolver.NonProjectResources
  {
    assert NprEndpoints[2] == "meprofiles";
  }

  /** Both clients see a reply the same way: the old one's body is the
      newer one's success, and its status code is the one the newer
      client's failure reports. */
  lemma ReplyAgreesWithClassify(resp: Response, resource: string)
    ensures ReplyOf(resp).Body? <==> Resolver.ClassifyStatus(resp, resource).Success?
    ensures ReplyOf(resp).Body? ==> ReplyOf(resp).json == Resolver.ClassifyStatus(resp, resource).value
    ensures ReplyOf(resp).Status? ==>
              Resolver.ReplyStatus(Resolver.ClassifyStatus(resp, resource).error) == Some(ReplyOf(resp).code)
  {
  }

  /** A root that is the newer client's base plus '/' requests a path that
      needs no trimming at the URL the newer client uses. */
  lemma SameUrlAsNewerClient(base: string, path: string)
    requires Resolver.Clean(path)
    ensures RootUrl(base + "/", path) == Resolver.FetchUrl(base, path)
  {
    Resolver.StripClean(path);
  }

  /** The two clients' roots differ only by the trailing '/'. */
  lemma RootsAgree()
    ensures ApiRootUrl == Resolver.ApiUrl + "/"
    ensures ApiRootDevUrl == Resolver.ApiDevUrl + "/"
  {
  }

  class Client {
    const url: string
    const token: Option<string>
    var authenticated: bool
    const session: Session
    /** Every request sent so far, oldest first. */
    ghost var sent: seq<Request>

    /** Authenticated exactly when a token is given, even an empty one. */
    constructor (token: Option<string>, url: string, session: Session)
      ensures this.url == url && this.token == token && this.session == session
      ensures authenticated <==> token.Some?
      ensures sent == []
    {
      this.url := url;
      this.token := token;
      this.authenticated := false;
      if token.Some? {
        this.authenticated := true;
      }
      this.session := session;
      this.sent := [];
    }

    /** `api_root` (GET): one request to url + subdirectory. */
    method ApiRoot(subdirectory: string, parameters: Payload) returns (r: Reply)
      modifies this`sent
      ensures sent == old(sent) + [Request(RootUrl(url, subdirectory), parameters)]
      ensures r == ReplyOf(session(Request(RootUrl(url, subdirectory), parameters)))
    {
      var prepUrl := url + subdirectory;
      var req := Request(prepUrl, parameters);
      sent := sent + [req];
      var resp := session(req);
      if resp.status == HttpOk {
        r := Body(resp.body);
      } else {
        r := Status(resp.status);
      }
    }

    /** `get_info`: None, with no request, for "me" without authentication;
        any other name is requested unchecked. */
    method GetInfo(info: string) returns (r: Option<Reply>)
      modifies this`sent
      ensures InfoTarget(info, authenticated).None? ==> sent == old(sent) && r.None?
      ensures InfoTarget(info, authenticated).Some? ==>
                var req := Request(RootUrl(url, info), NoParams);
                sent == old(sent) + [req] && r == Some(ReplyOf(session(req)))
    {
      if info == "me" && !authenticated {
        return None;
      }
      var reply := ApiRoot(info, NoParams);
      r := Some(reply);
    }

    /** `get_attribute`: None, with no request, for a name outside the
        attribute list; otherwise that name is requested. */
    method GetAttribute(attr: string) returns (r: Option<Reply>)
      modifies this`sent
      ensures AttributeTarget(attr).None? ==> sent == old(sent) && r.None?
      ensures AttributeTarget(attr).Some? ==>
                var req := Request(RootUrl(url, attr), NoParams);
                sent == old(sent) + [req] && r == Some(ReplyOf(session(req)))
    {
      if attr !in AttrsEndpoints {
        return None;
      }
      var reply := ApiRoot(attr, NoParams);
      r := Some(reply);
    }

    /** `get_projects`: one request for "projects", with the bare flag
        "showall" when asked. */
    method GetProjects(showall: bool) returns (r: Reply)
      modifies this`sent
      ensures var req := Request(RootUrl(url, "projects"), ProjectsParams(showall));
        sent == old(sent) + [req] && r == ReplyOf(session(req))
    {
      if !showall {
        r := ApiRoot("projects", NoParams);
      } else {
        var payload := Flag("showall");
        r := ApiRoot("projects", payload);
      }
    }
  }
}
