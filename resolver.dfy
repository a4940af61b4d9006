/** The request-resolution core of mermaid_py/client.py, as pure functions:
    the fixed vocabularies, path trimming and status classification of
    `_fetch_resource`, the validators of the public getters, the path and
    payload that `_fetch_project_resource` builds, and the exchanges a
    call performs against a session (including the name-to-id lookup). */
module Resolver {
  import opened Values
  import opened Utilities
  import opened Transport
  import opened Exceptions

  // ---------------------------------------------------------------- vocabularies

  const ApiUrl := "https://api.datamermaid.org/v1"
  const ApiDevUrl := "https://dev-api.datamermaid.org/v1"

  const NonProjectResources: seq<string> :=
    ["health", "managements", "me", "profiles", "projecttags", "sites", "summarysites", "version"]

  const ProjectAttributes: seq<string> :=
    ["benthicattributes", "fishfamilies", "fishgenera", "fishgroupings", "fishsizes", "fishspecies"]

  const ProjectResources: seq<string> :=
    ["collectrecords", "managements", "observers", "project_profiles", "sites"]

  const ProjectObservations: seq<string> :=
    ["obsbenthiclits", "obsbenthicpits", "obscoloniesbleached",
     "obshabitatcomplexities", "obstransectbeltfishs", "obsquadratbenthicpercent"]

  const ProjectSampleUnitsMethods: seq<string> :=
    ["benthiclittransectmethods", "benthicpittransectmethods", "benthictransects",
     "beltfishtransectmethods", "bleachingquadratcollectionmethods", "fishbelttransects",
     "habitatcomplexitytransectmethods", "quadratcollections", "sampleunitmethods"]

  /** The filters `get_observations` accepts, per observation kind. Only four
      of the six observation kinds have an entry. */
  const ObservationFilters: map<string, seq<string>> := map[
    "obstransectbeltfishs" := ["beltfish", "beltfish__transect", "beltfish__transect__sample_event",
                               "fish_attribute", "size_min", "size_max", "count_min", "count_max"],
    "obsbenthiclits" := ["benthiclit", "benthicpit__transect", "benthiclit__transect__sample_event",
                         "attribute", "growth_form", "length_min", "length_max"],
    "obsbenthicpits" := ["benthicpit", "benthicpit__transect", "benthicpit__transect__sample_event",
                         "attribute", "growth_form"],
    "obshabitatcomplexities" := ["habitatcomplexity", "habitatcomplexity__transect",
                                 "habitatcomplexity__transect__sample_event", "score"]
  ]

  const UnitFilters: seq<string> := ["len_surveyed_min", "len_surveyed_max"]
  const EventFilters: seq<string> := ["sample_date_before", "sample_date_after"]
  const SampleEvents := "sampleevents"
  const MeRequiresToken := "Authentication required for access to \"me\" endpoint"

  // ---------------------------------------------------------------- path trimming

  /** The characters `resource.strip("/ ")` removes. */
  predicate IsStripChar(c: char)
  {
    c == '/' || c == ' '
  }

  predicate AllStripChars(s: string)
  {
    forall k | 0 <= k < |s| :: IsStripChar(s[k])
  }

  /** Neither end is a character that stripping would remove. */
  predicate Clean(s: string)
  {
    s == [] || (!IsStripChar(s[0]) && !IsStripChar(s[|s| - 1]))
  }

  function StripLeading(s: string): (r: string)
    ensures |r| <= |s|
    ensures r == [] || !IsStripChar(r[0])
    decreases |s|
  {
    if s != [] && IsStripChar(s[0]) then StripLeading(s[1..]) else s
  }

  function StripTrailing(s: string): (r: string)
    ensures |r| <= |s|
    ensures r != [] ==> r[0] == s[0]
    ensures r == [] || !IsStripChar(r[|r| - 1])
    decreases |s|
  {
    if s != [] && IsStripChar(s[|s| - 1]) then StripTrailing(s[..|s| - 1]) else s
  }

  /** Python's `s.strip("/ ")`: drop every leading and trailing '/' and ' '. */
  function Strip(s: string): (r: string)
    ensures Clean(r)
    ensures |r| <= |s|
  {
    StripTrailing(StripLeading(s))
  }

  /** StripLeading removes a run of strip characters from the front and
      keeps the rest: the result is a suffix of the input. */
  lemma {:induction false} StripLeadingDrops(s: string)
    ensures var r := StripLeading(s);
      r == s[|s| - |r|..] && AllStripChars(s[..|s| - |r|])
    decreases |s|
  {
    if s != [] && IsStripChar(s[0]) {
      var r := StripLeading(s);
      StripLeadingDrops(s[1..]);
      assert s[1..][|s[1..]| - |r|..] == s[|s| - |r|..];
      forall k | 0 <= k < |s| - |r|
        ensures IsStripChar(s[k])
      {
        if k > 0 {
          assert s[1..][..|s[1..]| - |r|][k - 1] == s[k];
        }
      }
    }
  }

  /** StripTrailing removes a run of strip characters from the back and
      keeps the rest: the result is a prefix of the input. */
  lemma {:induction false} StripTrailingDrops(s: string)
    ensures var r := StripTrailing(s);
      r == s[..|r|] && AllStripChars(s[|r|..])
    decreases |s|
  {
    if s != [] && IsStripChar(s[|s| - 1]) {
      var r := StripTrailing(s);
      var s' := s[..|s| - 1];
      StripTrailingDrops(s');
      assert s'[..|r|] == s[..|r|];
      forall k | |r| <= k < |s|
        ensures IsStripChar(s[k])
      {
        if k < |s| - 1 {
          assert s'[|r|..][k - |r|] == s[k];
        }
      }
    }
  }

  lemma {:induction false} StripLeadingPast(p: string, t: string)
    requires AllStripChars(p)
    requires t == [] || !IsStripChar(t[0])
    ensures StripLeading(p + t) == t
    decreases |p|
  {
    if p != [] {
      assert (p + t)[1..] == p[1..] + t;
      StripLeadingPast(p[1..], t);
    } else {
      assert p + t == t;
    }
  }

  lemma {:induction false} StripTrailingPast(t: string, q: string)
    requires AllStripChars(q)
    requires t == [] || !IsStripChar(t[|t| - 1])
    ensures StripTrailing(t + q) == t
    decreases |q|
  {
    if q != [] {
      var q' := q[..|q| - 1];
      assert (t + q)[..|t + q| - 1] == t + q';
      StripTrailingPast(t, q');
    } else {
      assert t + q == t;
    }
  }

  /** A clean string is left as it is. */
  lemma StripClean(s: string)
    requires Clean(s)
    ensures Strip(s) == s
  {
    assert StripLeading(s) == s;
  }

  /** Stripping removes exactly the '/' and ' ' characters around a clean
      path, however many there are. */
  lemma StripSurrounding(p: string, s: string, q: string)
    requires AllStripChars(p) && AllStripChars(q) && Clean(s)
    ensures Strip(p + s + q) == s
  {
    if s == [] {
      assert p + s + q == p + q;
      assert AllStripChars(p + q);
      StripLeadingPast(p + q, []);
      assert p + q + [] == p + q;
    } else {
      assert p + s + q == p + (s + q);
      StripLeadingPast(p, s + q);
      StripTrailingPast(s, q);
    }
  }

  lemma StripIdempotent(s: string)
    ensures Strip(Strip(s)) == Strip(s)
  {
    var r := Strip(s);
    assert [] + r + [] == r;
    StripSurrounding([], r, []);
  }

  /** Every vocabulary entry is sent as it is: none starts or ends with a
      character that stripping would remove. */
  lemma VocabulariesClean()
    ensures forall s | s in NonProjectResources :: Clean(s)
    ensures forall s | s in ProjectAttributes :: Clean(s)
    ensures forall s | s in ProjectResources :: Clean(s)
    ensures forall s | s in ProjectObservations :: Clean(s)
    ensures forall s | s in ProjectSampleUnitsMethods :: Clean(s)
    ensures Clean(SampleEvents) && Clean("projects")
  {
  }

  /** A non-project resource name is requested exactly as given. */
  lemma NonProjectSentAsIs(info: string)
    requires info in NonProjectResources
    ensures Strip(info) == info
  {
    VocabulariesClean();
    StripSurrounding([], info, []);
    assert [] + info + [] == info;
  }

  /** A clean path followed by one '/' is trimmed back to that path. */
  lemma StripOneSlash(path: string)
    requires Clean(path)
    ensures Strip(path + "/") == path
  {
    StripSurrounding([], path, "/");
    assert [] + path + "/" == path + "/";
  }

  // ---------------------------------------------------------------- status classification

  /** The status code a service reply must have had to end in this failure
      when it comes out of `_fetch_resource`. */
  function ReplyStatus(f: Failure): Option<int>
  {
    match f
    case Unauthorized(_) => Some(HttpUnauthorized)
    case InvalidResource(_) => Some(HttpNotFound)
    case StatusError(code) => Some(code)
    case _ => None
  }

  /** What `_fetch_resource` makes of a reply: the body on 200, otherwise a
      failure from which the status can be read back. */
  function ClassifyStatus(resp: Response, resource: string): (r: Result<Json, Failure>)
    ensures r.Success? <==> resp.status == HttpOk
    ensures r.Success? ==> r.value == resp.body
    ensures r.Failure? ==> ReplyStatus(r.error) == Some(resp.status)
    ensures resp.status == HttpUnauthorized ==> r == Failure(Unauthorized(DefaultUnauthorized))
    ensures resp.status == HttpNotFound ==> r == Failure(InvalidResource(InvalidResourcePrefix + resource))
  {
    if resp.status == HttpOk then Success(resp.body)
    else if resp.status == HttpUnauthorized then Failure(Unauthorized(UnauthorizedMessage(None)))
    else if resp.status == HttpNotFound then Failure(InvalidResource(InvalidResourceMessage(resource, None)))
    else Failure(StatusError(resp.status))
  }

  /** The URL `_fetch_resource` requests: base, one '/', the trimmed path. */
  function FetchUrl(base: string, resource: string): (u: string)
    ensures |base| < |u| && u[..|base| + 1] == base + "/"
    ensures Clean(u[|base| + 1..])
    ensures Clean(resource) ==> u == base + "/" + resource
  {
    var trimmed := Strip(resource);
    assert Clean(resource) ==> trimmed == resource by {
      if Clean(resource) {
        StripClean(resource);
      }
    }
    assert (base + "/" + trimmed)[|base| + 1..] == trimmed;
    base + "/" + trimmed
  }

  /** `_fetch_resource` as an exchange: one request, then classification. */
  function Fetch(base: string, session: Session, resource: string, params: Payload): (x: Exchange<Result<Json, Failure>>)
    ensures x.sent == [Request(FetchUrl(base, resource), params)]
    ensures x.result.Success? <==> session(x.sent[0]).status == HttpOk
    ensures x.result.Success? ==> x.result.value == session(x.sent[0]).body
    ensures x.result.Failure? ==> ReplyStatus(x.result.error) == Some(session(x.sent[0]).status)
  {
    var req := Request(FetchUrl(base, resource), params);
    Exchange([req], ClassifyStatus(session(req), Strip(resource)))
  }

  /** A path whose trimmed form is known is requested as that form. */
  lemma FetchStripped(base: string, session: Session, p: string, trimmed: string, params: Payload)
    requires Strip(p) == trimmed
    ensures var req := Request(base + "/" + trimmed, params);
      Fetch(base, session, p, params) == Exchange([req], ClassifyStatus(session(req), trimmed))
  {
  }

  // ---------------------------------------------------------------- validators

  /** `get_info`: "me" needs a token, checked before the vocabulary. */
  function InfoCheck(info: string, authenticated: bool): (r: Outcome<Failure>)
    ensures r.Pass? <==> info in NonProjectResources && (info != "me" || authenticated)
    ensures info == "me" && !authenticated ==> r == Fail(Unauthorized(MeRequiresToken))
    ensures (info != "me" || authenticated) && info !in NonProjectResources ==>
              r == Fail(InvalidResource(InvalidResourcePrefix + info))
  {
    if info == "me" && !authenticated then Fail(Unauthorized(UnauthorizedMessage(Some(MeRequiresToken))))
    else if info in NonProjectResources then Pass
    else Fail(InvalidResource(InvalidResourceMessage(info, None)))
  }

  /** `get_project_resource` */
  function ProjectResourceCheck(resource: string): (r: Outcome<Failure>)
    ensures r.Pass? <==> resource in ProjectResources
    ensures r.Fail? ==> r.error == InvalidResource(InvalidResourcePrefix + resource)
  {
    if resource !in ProjectResources then Fail(InvalidResource(InvalidResourceMessage(resource, None)))
    else Pass
  }

  /** `get_observations`: the kind must have a filter table and the filter
      must be in that kind's own table; an absent filter is not. */
  function ObservationCheck(observation: string, filter: Option<string>): (r: Outcome<Failure>)
    ensures r.Pass? <==>
      observation in ObservationFilters && filter.Some? && filter.value in ObservationFilters[observation]
    ensures r.Fail? ==> r.error.InvalidResource?
    ensures observation !in ObservationFilters ==>
              r == Fail(InvalidResource(InvalidResourcePrefix + ("Invalid observation:" + observation)))
    ensures observation in ObservationFilters && r.Fail? ==>
              r == Fail(InvalidResource(InvalidResourcePrefix + ("Invalid observation filter:" + Show(filter))))
  {
    if observation !in ObservationFilters then
      Fail(InvalidResource(InvalidResourceMessage("Invalid observation:" + observation, None)))
    else if filter.None? || filter.value !in ObservationFilters[observation] then
      Fail(InvalidResource(InvalidResourceMessage("Invalid observation filter:" + Show(filter), None)))
    else Pass
  }

  /** `get_sample_units`: an empty or absent filter is allowed. */
  function SampleUnitCheck(unit: string, filter: Option<string>): (r: Outcome<Failure>)
    ensures r.Pass? <==> unit in ProjectSampleUnitsMethods && (!Truthy(filter) || filter.value in UnitFilters)
    ensures unit !in ProjectSampleUnitsMethods ==>
              r == Fail(InvalidResource(InvalidResourcePrefix + ("Invalid unit:" + unit)))
    ensures unit in ProjectSampleUnitsMethods && r.Fail? ==>
              r == Fail(InvalidResource(InvalidResourcePrefix + ("Invalid unit filter:" + filter.value)))
  {
    if unit !in ProjectSampleUnitsMethods then
      Fail(InvalidResource(InvalidResourceMessage("Invalid unit:" + unit, None)))
    else if Truthy(filter) && filter.value !in UnitFilters then
      Fail(InvalidResource(InvalidResourceMessage("Invalid unit filter:" + filter.value, None)))
    else Pass
  }

  /** `get_sample_methods` */
  function SampleMethodCheck(method_: string): (r: Outcome<Failure>)
    ensures r.Pass? <==> method_ in ProjectSampleUnitsMethods
    ensures r.Fail? ==> r.error == InvalidResource(InvalidResourcePrefix + ("Invalid sample methods:" + method_))
  {
    if method_ !in ProjectSampleUnitsMethods then
      Fail(InvalidResource(InvalidResourceMessage("Invalid sample methods:" + method_, None)))
    else Pass
  }

  /** `get_sample_events`: an empty or absent filter is allowed. */
  function SampleEventCheck(filter: Option<string>): (r: Outcome<Failure>)
    ensures r.Pass? <==> !Truthy(filter) || filter.value in EventFilters
    ensures r.Fail? ==> r == Fail(InvalidResource(InvalidResourcePrefix + ("Invalid event filter:" + filter.value)))
  {
    if Truthy(filter) && filter.value !in EventFilters then
      Fail(InvalidResource(InvalidResourceMessage("Invalid event filter:" + filter.value, None)))
    else Pass
  }

  /** Two of the six listed observation kinds have no filter table, so every
      call for them is rejected, whatever the filter. */
  lemma UnfilteredObservationKinds(filter: Option<string>)
    ensures "obscoloniesbleached" in ProjectObservations
    ensures "obsquadratbenthicpercent" in ProjectObservations
    ensures ObservationCheck("obscoloniesbleached", filter).Fail?
    ensures ObservationCheck("obsquadratbenthicpercent", filter).Fail?
    ensures ObservationFilters.Keys < set s | s in ProjectObservations
  {
    var listed := set s | s in ProjectObservations;
    assert "obscoloniesbleached" in listed - ObservationFilters.Keys;
  }

  /** Filters are per kind: "score" passes only for habitat complexity. */
  lemma ScoreOnlyForHabitatComplexity(observation: string)
    ensures ObservationCheck(observation, Some("score")).Pass? <==> observation == "obshabitatcomplexities"
  {
  }

  /** The benthic LIT table lists the PIT transect filter and not its own. */
  lemma BenthicLitTransectFilter()
    ensures ObservationCheck("obsbenthiclits", Some("benthicpit__transect")).Pass?
    ensures ObservationCheck("obsbenthiclits", Some("benthiclit__transect")).Fail?
  {
  }

  // ---------------------------------------------------------------- path and payload

  /** The path `_fetch_project_resource` builds from the caller's id and
      name, the id it resolved, and the resource. */
  function ProjectPath(id: Option<string>, name: Option<string>, pId: Option<string>, resource: Option<string>): (path: string)
    ensures path == [] || path[|path| - 1] == '/'
    ensures Truthy(id) || Truthy(name) ==> "projects/" <= path
  {
    PathPrefix(id, name) + Segment(pId) + Segment(resource)
  }

  /** "projects/" when a truthy id or name was given. */
  function PathPrefix(id: Option<string>, name: Option<string>): (prefix: string)
    ensures prefix == [] || prefix == "projects/"
    ensures prefix == [] <==> !Truthy(id) && !Truthy(name)
  {
    if Truthy(id) || Truthy(name) then "projects/" else ""
  }

  /** A truthy part followed by "/"; nothing for a falsy one. */
  function Segment(part: Option<string>): (seg: string)
    ensures seg == [] <==> !Truthy(part)
    ensures seg != [] ==> seg[|seg| - 1] == '/' && seg[..|seg| - 1] == part.value
  {
    if Truthy(part) then part.value + "/" else ""
  }

  /** The query payload: none without a filter, `{filter: value}` when both
      are truthy, else the bare filter name. */
  function QueryPayload(filter: Option<string>, filterVal: Option<Value>): (p: Payload)
    ensures p.NoParams? <==> !Truthy(filter)
    ensures p.KeyVal? <==> Truthy(filter) && ValueTruthy(filterVal)
    ensures p.Flag? ==> p.name == filter.value && !ValueTruthy(filterVal)
    ensures p.KeyVal? ==> p.key == filter.value && filterVal == Some(p.val)
  {
    if Truthy(filter) && ValueTruthy(filterVal) then KeyVal(filter.value, filterVal.value)
    else if Truthy(filter) then Flag(filter.value)
    else NoParams
  }

  /** With a truthy id the path is "projects/{id}/" and then the
      resource's segment, whatever the name. */
  lemma ProjectPathOfId(id: string, name: Option<string>, resource: Option<string>)
    requires id != ""
    ensures ProjectPath(Some(id), name, Some(id), resource) == "projects/" + id + "/" + Segment(resource)
  {
    assert "projects/" + (id + "/") == "projects/" + id + "/";
  }

  /** With neither a truthy id nor a truthy name there is no "projects/"
      prefix: the path is the resource's segment alone. */
  lemma ProjectPathWithoutProject(id: Option<string>, name: Option<string>, resource: Option<string>)
    requires !Truthy(id) && !Truthy(name)
    ensures ProjectPath(id, name, id, resource) == Segment(resource)
  {
    assert PathPrefix(id, name) + Segment(id) == [];
  }

  // ---------------------------------------------------------------- exchanges

  function ShowallRequest(base: string): Request
  {
    Request(base + "/projects", Flag("showall"))
  }

  /** `get_projects`: "projects", with the bare flag "showall" when asked. */
  function ProjectsCall(base: string, session: Session, showall: bool): (x: Exchange<Result<Json, Failure>>)
    ensures x.sent == [Request(base + "/projects", if showall then Flag("showall") else NoParams)]
    ensures x.result == ClassifyStatus(session(x.sent[0]), "projects")
  {
    StripClean("projects");
    assert base + "/" + "projects" == base + "/projects";
    Fetch(base, session, "projects", if showall then Flag("showall") else NoParams)
  }

  /** The project `get_project(name=...)` picks out of a projects listing. */
  function ProjectFromListing(listing: Result<Json, Failure>, name: string): (r: Result<Option<Record>, Failure>)
    ensures listing.Failure? ==> r == Failure(listing.error)
    ensures r.Success? <==>
      listing.Success? && listing.value.Listing? && FirstMatch("name", name, listing.value.results).Some?
    ensures r.Success? ==> r.value == FirstMatch("name", name, listing.value.results)
    ensures listing.Success? && listing.value.Listing? && FirstMatch("name", name, listing.value.results).None? ==>
              r == Failure(InvalidProject(InvalidProjectMessage(None, Some(name))))
  {
    match listing
    case Failure(e) => Failure(e)
    case Success(Opaque(_)) => Failure(MissingResults)
    case Success(Listing(results)) =>
      var project := FirstMatch("name", name, results);
      FoundRecordIsTruthy("name", name, results);
      if project.Some? && project.value != map[] then Success(project)
      else Failure(InvalidProject(InvalidProjectMessage(None, Some(name))))
  }

  /** `get_project`: with a truthy id the project is fetched but None is
      returned; otherwise a truthy name is looked up in all projects. */
  function ProjectCall(base: string, session: Session, id: Option<string>, name: Option<string>)
    : (x: Exchange<Result<Option<Record>, Failure>>)
    ensures |x.sent| <= 1
    ensures Truthy(id) ==> |x.sent| == 1
    ensures Truthy(id) && x.result.Success? ==> x.result.value == None
    ensures !Truthy(id) && Truthy(name) ==> x.sent == [ShowallRequest(base)]
    ensures !Truthy(id) && !Truthy(name) ==> x.sent == [] && x.result == Success(None)
  {
    if Truthy(id) then
      var x := Fetch(base, session, ProjectPath(id, None, id, None), NoParams);
      Exchange(x.sent, if x.result.Success? then Success(None) else Failure(x.result.error))
    else if Truthy(name) then
      var listing := ProjectsCall(base, session, true);
      Exchange(listing.sent, ProjectFromListing(listing.result, name.value))
    else Exchange([], Success(None))
  }

  /** `get_project_id`: the "id" of the project found by name. */
  function ProjectIdCall(base: string, session: Session, name: Option<string>): (x: Exchange<Result<Option<string>, Failure>>)
    ensures Truthy(name) ==> x.sent == [ShowallRequest(base)]
    ensures !Truthy(name) ==> x.sent == [] && x.result == Failure(InvalidProject(InvalidProjectPrefix))
  {
    var x := ProjectCall(base, session, None, name);
    match x.result
    case Failure(e) => Exchange(x.sent, Failure(e))
    case Success(project) =>
      if project.Some? && project.value != map[] then
        Exchange(x.sent, Success(if "id" in project.value then Some(project.value["id"]) else None))
      else Exchange(x.sent, Failure(InvalidProject(InvalidProjectMessage(None, name))))
  }

  /** `_fetch_project_resource`: look the id up by name only when no id was
      given, then fetch the composed path with the query payload. */
  function ProjectResourceCall(base: string, session: Session, id: Option<string>, name: Option<string>,
                               resource: Option<string>, filter: Option<string>, filterVal: Option<Value>)
    : (x: Exchange<Result<Json, Failure>>)
    ensures 1 <= |x.sent| <= 2
    ensures id.Some? || !Truthy(name) ==> |x.sent| == 1
    ensures |x.sent| == 2 ==> x.sent[0] == ShowallRequest(base)
  {
    if Truthy(name) && id.None? then
      var lookup := ProjectIdCall(base, session, name);
      match lookup.result
      case Failure(e) => Exchange(lookup.sent, Failure(e))
      case Success(pId) =>
        var x := Fetch(base, session, ProjectPath(id, name, pId, resource), QueryPayload(filter, filterVal));
        Exchange(lookup.sent + x.sent, x.result)
    else
      Fetch(base, session, ProjectPath(id, name, id, resource), QueryPayload(filter, filterVal))
  }

  /** `_fetch_project_resource` when the lookup by name fails: the failure
      is passed on after the lookup's requests, and nothing else is sent. */
  lemma ProjectResourceLookupFails(base: string, session: Session, id: Option<string>, name: Option<string>,
                                   resource: Option<string>, filter: Option<string>, filterVal: Option<Value>)
    requires Truthy(name) && id.None?
    requires ProjectIdCall(base, session, name).result.Failure?
    ensures var lookup := ProjectIdCall(base, session, name);
      ProjectResourceCall(base, session, id, name, resource, filter, filterVal)
        == Exchange(lookup.sent, Failure(lookup.result.error))
  {
  }

  /** `_fetch_project_resource` once the id is settled: the lookup's
      requests, if a lookup was made, then the fetch of the composed path. */
  lemma ProjectResourceAfterLookup(base: string, session: Session, id: Option<string>, name: Option<string>,
                                   resource: Option<string>, filter: Option<string>, filterVal: Option<Value>,
                                   pId: Option<string>, looked: seq<Request>)
    requires Truthy(name) && id.None? ==>
      ProjectIdCall(base, session, name) == Exchange(looked, Success(pId))
    requires !(Truthy(name) && id.None?) ==> pId == id && looked == []
    ensures var f := Fetch(base, session, ProjectPath(id, name, pId, resource), QueryPayload(filter, filterVal));
      ProjectResourceCall(base, session, id, name, resource, filter, filterVal) == Exchange(looked + f.sent, f.result)
  {
    var f := Fetch(base, session, ProjectPath(id, name, pId, resource), QueryPayload(filter, filterVal));
    var x := ProjectResourceCall(base, session, id, name, resource, filter, filterVal);
    if Truthy(name) && id.None? {
      assert ProjectIdCall(base, session, name).result == Success(pId);
      assert x == Exchange(looked + f.sent, f.result);
    } else {
      assert x == f;
      assert looked + f.sent == f.sent;
    }
  }

  /** One `if part: path += f"{part}/"` step of `_fetch_project_resource`
      appends exactly the part's segment. */
  lemma SegmentStep(path: string, part: Option<string>)
    ensures (if Truthy(part) then path + (part.value + "/") else path) == path + Segment(part)
  {
    if !Truthy(part) {
      assert path + [] == path;
    }
  }

  // ---------------------------------------------------------------- properties of the exchanges

  /** A found record is never empty, so `if project:` accepts it. */
  lemma FoundRecordIsTruthy(key: string, val: string, items: seq<Record>)
    ensures FirstMatch(key, val, items).Some? ==> FirstMatch(key, val, items).value != map[]
  {
    if FirstMatch(key, val, items).Some? {
      assert key in FirstMatch(key, val, items).value;
    }
  }

  /** `get_project(name=...)` without a truthy id is the showall listing
      followed by the search of its results. */
  lemma ProjectByNameUnfolds(base: string, session: Session, id: Option<string>, name: string)
    requires !Truthy(id) && name != ""
    ensures var req := ShowallRequest(base);
      ProjectCall(base, session, id, Some(name))
        == Exchange([req], ProjectFromListing(ClassifyStatus(session(req), "projects"), name))
  {
    var listing := ProjectsCall(base, session, true);
    assert ProjectCall(base, session, id, Some(name)) == Exchange(listing.sent, ProjectFromListing(listing.result, name));
  }

  /** What the search makes of the showall reply: the first project of that
      name when the reply is a 200 listing holding one, else a failure. */
  lemma ListingOutcome(resp: Response, name: string)
    requires name != ""
    ensures var r := ProjectFromListing(ClassifyStatus(resp, "projects"), name);
      && (r.Success? <==> resp.status == HttpOk && resp.body.Listing? && FirstMatch("name", name, resp.body.results).Some?)
      && (r.Success? ==> r.value == FirstMatch("name", name, resp.body.results))
      && (resp.status == HttpOk && resp.body.Listing? && FirstMatch("name", name, resp.body.results).None? ==>
            r == Failure(InvalidProject("Invalid Project id:None name:" + name)))
  {
    var r := ProjectFromListing(ClassifyStatus(resp, "projects"), name);
    if resp.status == HttpOk && resp.body.Listing? {
      var found := FirstMatch("name", name, resp.body.results);
      if found.Some? {
        FoundRecordIsTruthy("name", name, resp.body.results);
        assert r == Success(found);
      } else {
        NameOnlyMessage(None, name);
      }
    }
  }

  /** `get_project(name=...)` without a truthy id: one showall request, then
      the first listed project of that name, or InvalidProject. */
  lemma ProjectByName(base: string, session: Session, id: Option<string>, name: string)
    requires !Truthy(id) && name != ""
    ensures var x := ProjectCall(base, session, id, Some(name));
      var resp := session(ShowallRequest(base));
      && x.sent == [ShowallRequest(base)]
      && (x.result.Success? <==>
            resp.status == HttpOk && resp.body.Listing? && FirstMatch("name", name, resp.body.results).Some?)
      && (x.result.Success? ==> x.result.value == FirstMatch("name", name, resp.body.results))
      && (resp.status == HttpOk && resp.body.Listing? && FirstMatch("name", name, resp.body.results).None? ==>
            x.result == Failure(InvalidProject("Invalid Project id:None name:" + name)))
  {
    ProjectByNameUnfolds(base, session, id, name);
    ListingOutcome(session(ShowallRequest(base)), name);
  }

  /** `get_project(id=...)` fetches "projects/{id}" and, even when that
      succeeds, returns None; the name is ignored. */
  lemma ProjectById(base: string, session: Session, id: string, name: Option<string>)
    requires id != "" && !IsStripChar(id[|id| - 1])
    ensures var x := ProjectCall(base, session, Some(id), name);
      var req := Request(base + "/" + ("projects/" + id), NoParams);
      && x.sent == [req]
      && (x.result.Success? <==> session(req).status == HttpOk)
      && (x.result.Success? ==> x.result.value == None)
  {
    var path := "projects/" + id;
    var p := ProjectPath(Some(id), None, Some(id), None);
    assert p == path + "/" by { ProjectPathOfId(id, None, None); }
    assert Strip(p) == path by {
      assert path[|path| - 1] == id[|id| - 1];
      StripOneSlash(path);
    }
    var req := Request(base + "/" + path, NoParams);
    FetchStripped(base, session, p, path, NoParams);
    var y := ProjectResourceCall(base, session, Some(id), None, None, None, None);
    assert y == Fetch(base, session, p, NoParams);
    assert y.sent == [req];
    assert y.result.Success? <==> session(req).status == HttpOk;
    assert ProjectCall(base, session, Some(id), name)
        == Exchange(y.sent, if y.result.Success? then Success(None) else Failure(y.result.error));
  }

  /** `get_project_id` returns the "id" of the project `get_project` found
      by name, and fails InvalidProject when there is no name. */
  lemma ProjectIdOfFound(base: string, session: Session, name: Option<string>)
    ensures var x := ProjectIdCall(base, session, name);
      var p := ProjectCall(base, session, None, name);
      && x.sent == p.sent
      && (p.result.Failure? ==> x.result == Failure(p.result.error))
      && (p.result.Success? && p.result.value.Some? && "id" in p.result.value.value ==>
            x.result == Success(Some(p.result.value.value["id"])))
      && (!Truthy(name) ==> x.sent == [] && x.result == Failure(InvalidProject(InvalidProjectPrefix)))
  {
    var p := ProjectCall(base, session, None, name);
    if p.result.Success? && p.result.value.Some? && "id" in p.result.value.value {
      assert p.result.value.value != map[];
    }
  }

  /** A truthy id always wins: the name is neither looked up nor used, and
      exactly one request is sent. */
  lemma IdWins(base: string, session: Session, id: Option<string>, name: Option<string>,
               resource: Option<string>, filter: Option<string>, filterVal: Option<Value>)
    requires Truthy(id)
    ensures ProjectResourceCall(base, session, id, name, resource, filter, filterVal)
         == ProjectResourceCall(base, session, id, None, resource, filter, filterVal)
         == Fetch(base, session, ProjectPath(id, None, id, resource), QueryPayload(filter, filterVal))
  {
  }

  /** With an id and a resource the request goes to
      "{base}/projects/{id}/{resource}" with the query payload. */
  lemma ResourceById(base: string, session: Session, id: string, name: Option<string>,
                     resource: string, filter: Option<string>, filterVal: Option<Value>)
    requires id != "" && resource != "" && !IsStripChar(resource[|resource| - 1])
    ensures var x := ProjectResourceCall(base, session, Some(id), name, Some(resource), filter, filterVal);
      var path := "projects/" + id + "/" + resource;
      var req := Request(base + "/" + path, QueryPayload(filter, filterVal));
      && x.sent == [req]
      && x.result == ClassifyStatus(session(req), path)
  {
    var path := "projects/" + id + "/" + resource;
    var p := ProjectPath(Some(id), None, Some(id), Some(resource));
    assert p == path + "/" by {
      ProjectPathOfId(id, None, Some(resource));
      assert "projects/" + id + "/" + (resource + "/") == path + "/";
    }
    assert Strip(p) == path by {
      assert path[|path| - 1] == resource[|resource| - 1];
      StripOneSlash(path);
    }
    var payload := QueryPayload(filter, filterVal);
    var req := Request(base + "/" + path, payload);
    IdWins(base, session, Some(id), name, Some(resource), filter, filterVal);
    FetchStripped(base, session, p, path, payload);
    var x := ProjectResourceCall(base, session, Some(id), name, Some(resource), filter, filterVal);
    assert x == Exchange([req], ClassifyStatus(session(req), path));
  }

  /** A project given by name only is resolved first; once resolved to a
      truthy id, the rest is exactly the exchange for that id. */
  lemma NameResolvesToId(base: string, session: Session, name: string, pId: string,
                         resource: Option<string>, filter: Option<string>, filterVal: Option<Value>)
    requires name != "" && pId != ""
    requires ProjectIdCall(base, session, Some(name)).result == Success(Some(pId))
    ensures var byName := ProjectResourceCall(base, session, None, Some(name), resource, filter, filterVal);
      var byId := ProjectResourceCall(base, session, Some(pId), None, resource, filter, filterVal);
      byName == Exchange(ProjectIdCall(base, session, Some(name)).sent + byId.sent, byId.result)
  {
    assert ProjectPath(None, Some(name), Some(pId), resource) == ProjectPath(Some(pId), None, Some(pId), resource);
  }

  /** An empty-string id is not None, so no lookup happens, but it is falsy:
      whether "projects/" is prepended then depends on the name. */
  lemma EmptyIdKeepsName(base: string, session: Session)
    ensures ProjectPath(Some(""), Some("reef"), Some(""), Some("sites")) == "projects/sites/"
    ensures ProjectPath(Some(""), None, Some(""), Some("sites")) == "sites/"
    ensures |ProjectResourceCall(base, session, Some(""), Some("reef"), Some("sites"), None, None).sent| == 1
  {
    assert Segment(Some("")) == [] && Segment(Some("sites")) == "sites/";
    assert "projects/" + [] + "sites/" == "projects/sites/";
    assert [] + [] + "sites/" == "sites/";
  }
}
