/** The Client class of mermaid_py/client.py. The HTTP session is the
    `session` oracle; `sent` records every request the client sends, so that
    the contracts can say how many requests a call makes and which. */
module MermaidClient {
  import opened Values
  import opened Utilities
  import opened Transport
  import opened Exceptions
  import opened Resolver

  class Client {
    const url: string
    const token: Option<string>
    var authenticated: bool
    const session: Session
    /** Every request sent so far, oldest first. */
    ghost var sent: seq<Request>

    /** A client is authenticated exactly when its token is truthy. */
    constructor (token: Option<string>, url: string, session: Session)
      ensures this.url == url && this.token == token && this.session == session
      ensures authenticated <==> Truthy(token)
      ensures sent == []
    {
      this.url := url;
      this.token := token;
      this.authenticated := false;
      if Truthy(token) {
        this.authenticated := true;
      }
      this.session := session;
      this.sent := [];
    }

    /** `_fetch_resource`: one request to the base URL, '/', and the path
        with '/' and ' ' trimmed from both ends; the reply's status decides
        between the body and a failure. */
    method FetchResource(resource: string, parameters: Payload) returns (r: Result<Json, Failure>)
      modifies this`sent
      ensures var x := Fetch(url, session, resource, parameters); sent == old(sent) + x.sent && r == x.result
    {
      var trimmed := Strip(resource);
      var prepUrl := url + "/" + trimmed;
      var req := Request(prepUrl, parameters);
      sent := sent + [req];
      var resp := session(req);
      if resp.status == HttpOk {
        r := Success(resp.body);
      } else if resp.status == HttpUnauthorized {
        var e := new UnauthorizedClientException(None);
        r := Failure(Unauthorized(e.message));
      } else if resp.status == HttpNotFound {
        var e := new InvalidResourceException(trimmed, None);
        r := Failure(InvalidResource(e.message));
      } else {
        r := Failure(StatusError(resp.status));
      }
    }

    /** `_fetch_project_resource`: builds the path step by step, resolving
        the id from the name only when no id was given, then the payload,
        then fetches. */
    method FetchProjectResource(id: Option<string>, name: Option<string>, resource: Option<string>,
                                filter: Option<string>, filterVal: Option<Value>) returns (r: Result<Json, Failure>)
      modifies this`sent
      ensures var x := ProjectResourceCall(url, session, id, name, resource, filter, filterVal);
        sent == old(sent) + x.sent && r == x.result
      decreases 2
    {
      ghost var before := sent;
      ghost var looked: seq<Request> := [];
      var path := "";
      if Truthy(id) || Truthy(name) {
        path := "projects/";
      }
      assert path == PathPrefix(id, name);
      var pId := id;
      if Truthy(name) && pId.None? {
        var lookup := GetProjectId(name);
        if lookup.Failure? {
          ProjectResourceLookupFails(url, session, id, name, resource, filter, filterVal);
          return Failure(lookup.error);
        }
        pId := lookup.value;
        looked := ProjectIdCall(url, session, name).sent;
      }
      assert sent == before + looked;
      ghost var prefix := path;
      if Truthy(pId) {
        path := path + (pId.value + "/");
      }
      SegmentStep(prefix, pId);
      ghost var withId := path;
      if Truthy(resource) {
        path := path + (resource.value + "/");
      }
      SegmentStep(withId, resource);
      assert path == ProjectPath(id, name, pId, resource);

      var payload := NoParams;
      if Truthy(filter) {
        payload := Flag(filter.value);
      }
      if Truthy(filter) && ValueTruthy(filterVal) {
        payload := KeyVal(filter.value, filterVal.value);
      }
      assert payload == QueryPayload(filter, filterVal);
      ProjectResourceAfterLookup(url, session, id, name, resource, filter, filterVal, pId, looked);
      ghost var fetched := Fetch(url, session, path, payload);
      r := FetchResource(path, payload);
      assert sent == before + looked + fetched.sent && r == fetched.result;
      AppendAssociative(before, looked, fetched.sent);
    }

    /** `get_info`: "me" without authentication fails Unauthorized before
        anything else; a name outside the non-project vocabulary fails
        InvalidResource; neither sends a request. A member name is fetched
        with exactly one request. */
    method GetInfo(info: string) returns (r: Result<Json, Failure>)
      modifies this`sent
      ensures InfoCheck(info, authenticated).Fail? ==>
                sent == old(sent) && r == Failure(InfoCheck(info, authenticated).error)
      ensures InfoCheck(info, authenticated).Pass? ==>
                var req := Request(url + "/" + info, NoParams);
                sent == old(sent) + [req] && r == ClassifyStatus(session(req), info)
    {
      if info == "me" && !authenticated {
        var e := new UnauthorizedClientException(Some(MeRequiresToken));
        return Failure(Unauthorized(e.message));
      }
      if info in NonProjectResources {
        NonProjectSentAsIs(info);
        r := FetchResource(info, NoParams);
      } else {
        var e := new InvalidResourceException(info, None);
        r := Failure(InvalidResource(e.message));
      }
    }

    /** `get_projects`: one request for "projects", carrying the bare flag
        "showall" exactly when asked. */
    method GetProjects(showall: bool) returns (r: Result<Json, Failure>)
      modifies this`sent
      ensures sent == old(sent) + [Request(url + "/projects", if showall then Flag("showall") else NoParams)]
      ensures var x := ProjectsCall(url, session, showall); sent == old(sent) + x.sent && r == x.result
    {
      ghost var x := ProjectsCall(url, session, showall);
      if showall {
        var payload := Flag("showall");
        r := FetchResource("projects", payload);
      } else {
        r := FetchResource("projects", NoParams);
      }
      assert x == Fetch(url, session, "projects", if showall then Flag("showall") else NoParams);
    }

    /** `get_project`: by id the project is fetched and None returned; by
        name, the first project of that name in the full listing. */
    method GetProject(id: Option<string>, name: Option<string>) returns (r: Result<Option<Record>, Failure>)
      modifies this`sent
      ensures var x := ProjectCall(url, session, id, name); sent == old(sent) + x.sent && r == x.result
      decreases if Truthy(id) then 3 else 0
    {
      if Truthy(id) {
        var fetched := FetchProjectResource(id, None, None, None, None);
        if fetched.Failure? {
          return Failure(fetched.error);
        }
        return Success(None);
      } else if Truthy(name) {
        var projects := GetProjects(true);
        if projects.Failure? {
          return Failure(projects.error);
        }
        if !projects.value.Listing? {
          return Failure(MissingResults);
        }
        var project := GetDictByKeyval("name", name.value, projects.value.results);
        if project.Some? && project.value != map[] {
          return Success(project);
        }
        var e := new InvalidProjectException(None, name);
        return Failure(InvalidProject(e.message));
      }
      return Success(None);
    }

    /** `get_project_id`: the "id" of the project found by name. */
    method GetProjectId(name: Option<string>) returns (r: Result<Option<string>, Failure>)
      modifies this`sent
      ensures var x := ProjectIdCall(url, session, name); sent == old(sent) + x.sent && r == x.result
      decreases 1
    {
      var project := GetProject(None, name);
      if project.Failure? {
        return Failure(project.error);
      }
      if project.value.Some? && project.value.value != map[] {
        var p := project.value.value;
        return Success(if "id" in p then Some(p["id"]) else None);
      }
      var e := new InvalidProjectException(None, name);
      return Failure(InvalidProject(e.message));
    }

    /** `get_project_resource`: the resource must be a project resource;
        otherwise InvalidResource and no request. */
    method GetProjectResource(resource: string, id: Option<string>, name: Option<string>)
      returns (r: Result<Json, Failure>)
      modifies this`sent
      ensures ProjectResourceCheck(resource).Fail? ==>
                sent == old(sent) && r == Failure(ProjectResourceCheck(resource).error)
      ensures ProjectResourceCheck(resource).Pass? ==>
                var x := ProjectResourceCall(url, session, id, name, Some(resource), None, None);
                sent == old(sent) + x.sent && r == x.result
    {
      if resource !in ProjectResources {
        var e := new InvalidResourceException(resource, None);
        return Failure(InvalidResource(e.message));
      }
      r := FetchProjectResource(id, name, Some(resource), None, None);
    }

    /** `get_observations`: kind and filter are checked against the filter
        table before any request. */
    method GetObservations(observation: string, id: Option<string>, name: Option<string>,
                           filter: Option<string>, filterVal: Option<Value>) returns (r: Result<Json, Failure>)
      modifies this`sent
      ensures ObservationCheck(observation, filter).Fail? ==>
                sent == old(sent) && r == Failure(ObservationCheck(observation, filter).error)
      ensures ObservationCheck(observation, filter).Pass? ==>
                var x := ProjectResourceCall(url, session, id, name, Some(observation), filter, filterVal);
                sent == old(sent) + x.sent && r == x.result
    {
      if observation !in ObservationFilters {
        var e := new InvalidResourceException("Invalid observation:" + observation, None);
        return Failure(InvalidResource(e.message));
      }
      if filter.None? || filter.value !in ObservationFilters[observation] {
        var e := new InvalidResourceException("Invalid observation filter:" + Show(filter), None);
        return Failure(InvalidResource(e.message));
      }
      r := FetchProjectResource(id, name, Some(observation), filter, filterVal);
    }

    /** `get_sample_units`: the unit must be a sample unit or method, and a
        non-empty filter one of the two length filters. */
    method GetSampleUnits(unit: string, id: Option<string>, name: Option<string>,
                          filter: Option<string>, filterVal: Option<Value>) returns (r: Result<Json, Failure>)
      modifies this`sent
      ensures SampleUnitCheck(unit, filter).Fail? ==>
                sent == old(sent) && r == Failure(SampleUnitCheck(unit, filter).error)
      ensures SampleUnitCheck(unit, filter).Pass? ==>
                var x := ProjectResourceCall(url, session, id, name, Some(unit), filter, filterVal);
                sent == old(sent) + x.sent && r == x.result
    {
      if unit !in ProjectSampleUnitsMethods {
        var e := new InvalidResourceException("Invalid unit:" + unit, None);
        return Failure(InvalidResource(e.message));
      }
      if Truthy(filter) && filter.value !in UnitFilters {
        var e := new InvalidResourceException("Invalid unit filter:" + filter.value, None);
        return Failure(InvalidResource(e.message));
      }
      r := FetchProjectResource(id, name, Some(unit), filter, filterVal);
    }

    /** `get_sample_methods`: the method must be a sample unit or method. */
    method GetSampleMethods(method_: string, id: Option<string>, name: Option<string>)
      returns (r: Result<Json, Failure>)
      modifies this`sent
      ensures SampleMethodCheck(method_).Fail? ==>
                sent == old(sent) && r == Failure(SampleMethodCheck(method_).error)
      ensures SampleMethodCheck(method_).Pass? ==>
                var x := ProjectResourceCall(url, session, id, name, Some(method_), None, None);
                sent == old(sent) + x.sent && r == x.result
    {
      if method_ !in ProjectSampleUnitsMethods {
        var e := new InvalidResourceException("Invalid sample methods:" + method_, None);
        return Failure(InvalidResource(e.message));
      }
      r := FetchProjectResource(id, name, Some(method_), None, None);
    }

    /** `get_sample_events`: a non-empty filter must be one of the two date
        filters; the resource is always "sampleevents". */
    method GetSampleEvents(id: Option<string>, name: Option<string>, filter: Option<string>, filterVal: Option<Value>)
      returns (r: Result<Json, Failure>)
      modifies this`sent
      ensures SampleEventCheck(filter).Fail? ==>
                sent == old(sent) && r == Failure(SampleEventCheck(filter).error)
      ensures SampleEventCheck(filter).Pass? ==>
                var x := ProjectResourceCall(url, session, id, name, Some(SampleEvents), filter, filterVal);
                sent == old(sent) + x.sent && r == x.result
    {
      if Truthy(filter) && filter.value !in EventFilters {
        var e := new InvalidResourceException("Invalid event filter:" + filter.value, None);
        return Failure(InvalidResource(e.message));
      }
      r := FetchProjectResource(id, name, Some(SampleEvents), filter, filterVal);
    }
  }
}
