# mermaid-py client, modelled in Dafny

mermaid-py is a small Python client for the MERMAID coral-reef monitoring
API. A `Client` holds a service root URL, an optional bearer token and an
HTTP session. The `get_*` calls build a resource path and send GET
requests. Only `get_info`, `get_project_resource`, `get_observations` and
the `get_sample_*` calls first check their arguments, against fixed
vocabularies and filter tables; `get_projects`, `get_project`,
`get_project_id`, `get_choices` and the constant fetchers check nothing.
A call sends at most two requests. It sends none when validation fails.
`get_project(name=...)` and `get_project_id` with a truthy name send
one, the listing of all projects. A project resource asked for by name
rather than id takes two when the name resolves: that listing, then the
resource itself. When the lookup fails, only the listing is sent and its
failure is raised. A call that names no project
mostly raises nothing on that account: `get_project()` returns None with
nothing sent, and the `_fetch_project_resource` callers fetch "{resource}"
at the root, with no "projects/" prefix. The exception is `get_project_id`:
without a truthy name it sends nothing and raises InvalidProject with the
message "Invalid Project ". Bad arguments, a 401 reply and a 404
reply end in one of three exception classes. Any other non-200 status
raises a plain `Exception`. A listing without "results" raises KeyError.

The project models:

- `mermaid_py/client.py`: the newer client. The vocabularies, the
  validators, the `_fetch_resource` request/status logic, and the path and
  payload building of `_fetch_project_resource`. Also the project lookup
  by name (`get_project`, `get_project_id`) and the public getters built on
  them.
- `mermaid_py/exceptions.py`: how each exception builds its message.
- `mermaid_py/utilities.py` and `src/utilities.py`: the first-match search
  over a list of records, and the older project path builder.
- `src/client.py`: the older client. It returns None or a bare status code
  where the newer one raises.

Modules:

- `Values`: Option/Result, and Python truthiness of an optional string.
- `Utilities`: `get_dict_by_keyval`.
- `Transport`: requests, responses and the session.
- `Exceptions`: the exception classes and the `Failure` a call ends in.
- `Resolver`: specification functions for the newer client.
- `MermaidClient`: the newer `Client` class.
- `LegacyUtilities` and `LegacyClient`: the older code.

The HTTP session is a function from request to response handed to the
constructor. Each client class keeps a ghost log `sent` of every request it
sends. Each method's contract states the exact requests it appends to that
log and the result it returns, as a function of the arguments and the
session's answers. Lemmas then state what those functions promise: how many
requests are sent, which URL is requested, that an id wins over a name, and
how the two client versions differ. Optional arguments are `Option` values,
so `None` and the empty string stay distinct, as they are in the source.

## Model

| member | source | states |
|---|---|---|
| Utilities.MatchIndex | mermaid_py/utilities.py:11-14 | the position of the first record holding `key` with value `val`, or the list length when none does; no earlier record matches |
| Utilities.FirstMatch | mermaid_py/utilities.py:1-14 | None exactly when no record matches; otherwise a record of the list that has `key` = `val`, namely the first one |
| Utilities.GetDictByKeyval | mermaid_py/utilities.py:11-14 | the loop returns the first record with `key` = `val`, or None when there is none; records without the key are skipped |
| Exceptions.UnauthorizedMessage | mermaid_py/exceptions.py:4-7 | a truthy message replaces the default text "Unauthorized Client -- Attempt Token Refresh"; the result is never empty |
| Exceptions.InvalidResourceMessage | mermaid_py/exceptions.py:14-17 | "Invalid Resource:" followed by the resource, unless a truthy message replaces it |
| Exceptions.InvalidProjectMessage | mermaid_py/exceptions.py:24-35 | starts "Invalid Project "; is exactly that prefix iff neither id nor name is truthy; an id alone gives "id:{id}"; a name always gives "id:{id} name:{name}", with a missing id shown as "None" |
| Exceptions.NameOnlyMessage | mermaid_py/exceptions.py:34-35 | a name-only message reads "Invalid Project id:None name:{name}" (or "id: name:" for an empty id) and ends with the name |
| Exceptions.UnauthorizedClientException.constructor | mermaid_py/exceptions.py:4-8 | the new exception's message is the default, replaced by a truthy message |
| Exceptions.InvalidResourceException.constructor | mermaid_py/exceptions.py:14-18 | the new exception's message is "Invalid Resource:{resource}", replaced by a truthy message |
| Exceptions.InvalidProjectException.constructor | mermaid_py/exceptions.py:24-36 | the message is built by appending to "Invalid Project " as the three branches do |
| Resolver.StripLeading | mermaid_py/client.py:106 | the result is no longer than the input and does not start with '/' or ' ' |
| Resolver.StripTrailing | mermaid_py/client.py:106 | the result is no longer than the input, keeps its first character, and does not end with '/' or ' ' |
| Resolver.StripLeadingDrops | mermaid_py/client.py:106 | the front strip keeps a suffix of the input and drops only '/' and ' ' characters before it |
| Resolver.StripTrailingDrops | mermaid_py/client.py:106 | the back strip keeps a prefix of the input and drops only '/' and ' ' characters after it |
| Resolver.Strip | mermaid_py/client.py:106 | `strip("/ ")` yields a string that neither starts nor ends with '/' or ' ' and is no longer than the input |
| Resolver.StripLeadingPast | mermaid_py/client.py:106 | stripping the front of (strip characters + t) gives t when t does not start with one |
| Resolver.StripTrailingPast | mermaid_py/client.py:106 | stripping the back of (t + strip characters) gives t when t does not end with one |
| Resolver.StripSurrounding | mermaid_py/client.py:106 | a clean string wrapped in any strip characters is recovered exactly by strip |
| Resolver.StripClean | mermaid_py/client.py:106 | strip leaves a clean string unchanged |
| Resolver.StripIdempotent | mermaid_py/client.py:106 | stripping twice is the same as stripping once |
| Resolver.StripOneSlash | mermaid_py/client.py:106 | a clean path with one trailing '/' is requested without that '/' |
| Resolver.VocabulariesClean | mermaid_py/client.py:17-64 | no entry of any vocabulary (project attributes included), nor "sampleevents" or "projects", starts or ends with '/' or ' ', so strip never alters them |
| Resolver.NonProjectSentAsIs | mermaid_py/client.py:187-188 | a non-project resource name is requested exactly as given |
| Resolver.ClassifyStatus | mermaid_py/client.py:115-122 | success iff status 200, carrying the body; 401 gives Unauthorized with the default message; 404 gives InvalidResource naming the trimmed resource; every failure records the status it came from |
| Resolver.FetchUrl | mermaid_py/client.py:107 | the URL is the base, one '/', then a string that neither starts nor ends with '/' or ' '; a path that needs no trimming is appended unchanged |
| Resolver.Fetch | mermaid_py/client.py:106-122 | exactly one request, to `FetchUrl` with the given payload; success iff its reply is 200, carrying the body; a failure records the reply's status |
| Resolver.FetchStripped | mermaid_py/client.py:106-112 | a path whose trimmed form is known is sent as base + "/" + that form, in one request |
| Resolver.InfoCheck | mermaid_py/client.py:182-190 | passes iff the name is a non-project resource and is not "me" on an unauthenticated client; "me" without a token fails Unauthorized with the "me" message first; any other unknown name fails InvalidResource |
| Resolver.ProjectResourceCheck | mermaid_py/client.py:325-326 | passes iff the resource is a project resource; otherwise InvalidResource naming it |
| Resolver.ObservationCheck | mermaid_py/client.py:359-397 | passes iff the kind has a filter table and a filter is given that is in that kind's own table; an unknown kind and a bad or missing filter fail with their own messages, a missing filter shown as "None" |
| Resolver.SampleUnitCheck | mermaid_py/client.py:429-434 | passes iff the unit is a sample unit or method and the filter is falsy or a length filter; each failure has its own message |
| Resolver.SampleMethodCheck | mermaid_py/client.py:456-457 | passes iff the method is a sample unit or method; otherwise InvalidResource with the "Invalid sample methods:" message |
| Resolver.SampleEventCheck | mermaid_py/client.py:482-484 | passes iff the filter is falsy or one of the two date filters; otherwise InvalidResource with the "Invalid event filter:" message |
| Resolver.UnfilteredObservationKinds | mermaid_py/client.py:359-394 | obscoloniesbleached and obsquadratbenthicpercent are listed observation kinds with no filter table, so every call for them fails; the table's kinds are a strict subset of the listed ones |
| Resolver.ScoreOnlyForHabitatComplexity | mermaid_py/client.py:386-396 | the filter "score" passes for exactly one kind, habitat complexity |
| Resolver.BenthicLitTransectFilter | mermaid_py/client.py:370-378 | the benthic LIT table accepts "benthicpit__transect" and rejects "benthiclit__transect" |
| Resolver.PathPrefix | mermaid_py/client.py:152-153 | "projects/" or nothing, and nothing exactly when neither id nor name is truthy |
| Resolver.Segment | mermaid_py/client.py:158-161 | empty iff the part is falsy; otherwise the part followed by one '/' |
| Resolver.ProjectPath | mermaid_py/client.py:150-161 | the built path is empty or ends in '/', and starts "projects/" whenever a truthy id or name was given |
| Resolver.QueryPayload | mermaid_py/client.py:163-167 | no payload iff the filter is falsy; a key/value payload iff filter and value are both truthy; otherwise the bare filter name |
| Resolver.ProjectPathOfId | mermaid_py/client.py:150-161 | with a truthy id the path is "projects/{id}/" followed by the resource segment, whatever the name |
| Resolver.ProjectPathWithoutProject | mermaid_py/client.py:150-161 | with neither a truthy id nor a truthy name the path is the resource segment alone, with no "projects/" prefix |
| Resolver.ProjectsCall | mermaid_py/client.py:268-272 | `get_projects` sends one request to base + "/projects", with the flag "showall" exactly when asked, and classifies its reply |
| Resolver.ProjectFromListing | mermaid_py/client.py:288-293 | a failed listing is passed on; success iff the listing is a results list holding a project of that name, and then it is the first one; no match fails InvalidProject with the name-only message |
| Resolver.ProjectCall | mermaid_py/client.py:285-293 | at most one request; with a truthy id one request and None on success; else with a truthy name exactly the showall request; with neither, nothing sent and None |
| Resolver.ProjectIdCall | mermaid_py/client.py:303-308 | with a truthy name exactly the showall request; without one nothing is sent and it fails with the bare "Invalid Project " message |
| Resolver.ProjectResourceCall | mermaid_py/client.py:150-168 | one or two requests; when two, the first is the showall lookup; with an id given (even empty) or no truthy name, exactly one |
| Resolver.ProjectResourceLookupFails | mermaid_py/client.py:154-157 | when the lookup by name fails, its requests are all that is sent and its failure is returned |
| Resolver.ProjectResourceAfterLookup | mermaid_py/client.py:154-168 | once the id is settled, the exchange is the lookup's requests (none without a lookup) followed by one fetch of the composed path with the query payload |
| Resolver.SegmentStep | mermaid_py/client.py:158-161 | one `if part: path += f"{part}/"` step appends exactly the part's segment |
| Resolver.FoundRecordIsTruthy | mermaid_py/client.py:289-290 | a record found by the search is non-empty, so `if project:` accepts it |
| Resolver.ProjectByNameUnfolds | mermaid_py/client.py:287-293 | without a truthy id, `get_project(name=...)` is the showall request followed by the search of the classified reply |
| Resolver.ListingOutcome | mermaid_py/client.py:288-293 | success iff the reply is 200 with a results list holding a project of that name, and then the first such; a 200 listing without one fails "Invalid Project id:None name:{name}" |
| Resolver.ProjectByName | mermaid_py/client.py:287-293 | by name: exactly one showall request; success iff the reply is 200 with a results list holding a project of that name, and then it is the first such; no match fails InvalidProject "Invalid Project id:None name:{name}" |
| Resolver.ProjectById | mermaid_py/client.py:285-286 | for a non-empty id that does not end in '/' or ' ': one request to base + "/projects/{id}"; the call succeeds iff the reply is 200, and then returns None |
| Resolver.ProjectIdOfFound | mermaid_py/client.py:303-308 | `get_project_id` sends what `get_project` sends, passes on its failure, returns the found project's "id", and fails with the bare "Invalid Project " message without a name |
| Resolver.IdWins | mermaid_py/client.py:152-159 | with a truthy id the name is ignored and one fetch of the id's path is made |
| Resolver.ResourceById | mermaid_py/client.py:150-168 | for a non-empty id and a non-empty resource that does not end in '/' or ' ': exactly one request to base + "/projects/{id}/{resource}" with the query payload, classified by its status; every resource the callers pass is a non-empty vocabulary entry, which `VocabulariesClean` shows meets that condition |
| Resolver.NameResolvesToId | mermaid_py/client.py:154-161 | a name that resolves to id p gives the lookup's requests followed by exactly the exchange for id p |
| Resolver.EmptyIdKeepsName | mermaid_py/client.py:152-160 | an empty id blocks the lookup by name but adds no segment: with a name the path is "projects/sites/", without one "sites/" |
| MermaidClient.Client.constructor | mermaid_py/client.py:66-84 | the client keeps url, token and session, is authenticated iff the token is truthy, and has sent nothing |
| MermaidClient.Client.FetchResource | mermaid_py/client.py:95-122 | appends the one request `Fetch` specifies and returns `Fetch`'s classification of its reply |
| MermaidClient.Client.FetchProjectResource | mermaid_py/client.py:124-168 | builds the path and payload step by step, looking the id up only when a truthy name comes with no id; log and result agree with `ProjectResourceCall` |
| MermaidClient.Client.GetInfo | mermaid_py/client.py:171-190 | on a failed check nothing is sent and the check's failure is returned; otherwise one request for url + "/" + the name, classified |
| MermaidClient.Client.GetProjects | mermaid_py/client.py:258-272 | one request for url + "/projects", with the "showall" flag exactly when asked |
| MermaidClient.Client.GetProject | mermaid_py/client.py:274-293 | log and result agree with `ProjectCall`: fetch by id and return None, or look up by name, or return None with nothing sent |
| MermaidClient.Client.GetProjectId | mermaid_py/client.py:295-308 | log and result agree with `ProjectIdCall` |
| MermaidClient.Client.GetProjectResource | mermaid_py/client.py:310-328 | an unknown resource fails with nothing sent; otherwise the project-resource exchange with no filter |
| MermaidClient.Client.GetObservations | mermaid_py/client.py:330-402 | a failed kind or filter check sends nothing; otherwise the project-resource exchange for that kind, filter and value |
| MermaidClient.Client.GetSampleUnits | mermaid_py/client.py:404-439 | a failed unit or filter check sends nothing; otherwise the exchange for that unit |
| MermaidClient.Client.GetSampleMethods | mermaid_py/client.py:441-459 | an unknown method sends nothing; otherwise the exchange for that method with no filter |
| MermaidClient.Client.GetSampleEvents | mermaid_py/client.py:461-492 | a bad filter sends nothing; otherwise the exchange for "sampleevents" |
| LegacyUtilities.Lookup | src/utilities.py:1-14 | the loop returns the first record with `key` = `val`, or None when there is none |
| LegacyUtilities.ProjectsPath | src/utilities.py:17-27 | "projects/{id}/" then "{filter}/" for any filter that is not None, the empty one included; always ends in '/' |
| LegacyUtilities.AgreesWithProjectPath | src/utilities.py:24-27 | for a non-empty id and an absent or non-empty filter, the older path equals the one the newer client builds for that id |
| LegacyUtilities.EmptyFilterDiffers | src/utilities.py:27 | an empty filter gives "projects/{id}//" in the older builder, but "projects/{id}/" in the newer client |
| LegacyClient.RootUrl | src/client.py:62 | the root followed by the subdirectory, with no separator added or removed |
| LegacyClient.ReplyOf | src/client.py:69-72 | the decoded body iff status 200; otherwise the status code itself |
| LegacyClient.InfoTarget | src/client.py:84-88 | nothing is requested iff the name is "me" and the client is unauthenticated; any other name is requested unchecked |
| LegacyClient.AttributeTarget | src/client.py:111-113 | requested iff the name is in the attribute list |
| LegacyClient.ProjectsParams | src/client.py:125-129 | no payload iff showall is false; otherwise the bare flag "showall" |
| LegacyClient.NprEndpointsAsWritten | src/client.py:15 | the missing comma leaves seven entries: "meprofiles" is one, "me" and "profiles" are not; splitting it gives the newer client's list |
| LegacyClient.ReplyAgreesWithClassify | src/client.py:69-72 | the older client returns a body exactly when the newer one succeeds, the same body, and its status code is the one the newer failure records |
| LegacyClient.SameUrlAsNewerClient | src/client.py:62 | with root = base + "/", a path that needs no trimming gets the URL the newer client requests |
| LegacyClient.RootsAgree | src/client.py:4-6 | the older roots are the newer client's roots with a trailing '/' |
| LegacyClient.Client.constructor | src/client.py:19-39 | authenticated iff a token is given, even an empty one (`is not None`), unlike the newer client's truthiness test |
| LegacyClient.Client.ApiRoot | src/client.py:49-72 | appends one request for url + subdirectory, with no separator added, and returns `ReplyOf` its reply |
| LegacyClient.Client.GetInfo | src/client.py:74-88 | "me" without authentication returns None with nothing sent; any other name is one request |
| LegacyClient.Client.GetAttribute | src/client.py:101-113 | a name outside the attribute list returns None with nothing sent; otherwise one request |
| LegacyClient.Client.GetProjects | src/client.py:115-129 | one request for url + "projects", with the "showall" flag exactly when asked |

## Left out

- The HTTP layer is left out: `requests.Session`, the content-type and bearer headers, the 10-second timeout and connection errors. The session is a function from request to response, so the model's session always answers the same request the same way.
- Query-string rendering is not modelled. A payload is `NoParams`, a bare flag, or one key/value pair.
- JSON decoding is not modelled. A body is either opaque or a `results` list of records. Records map strings to strings, so a project's "id" is a string.
- Filter values are integers or strings. Other Python values are not modelled.
- `projects["results"]` on a body without that list raises KeyError or TypeError in Python. The model returns `MissingResults` instead.
- For a status other than 200, 401 and 404, the source raises a plain `Exception` with a formatted message. The model returns `StatusError(status)` and does not model that message text.
- Each exception's `super().__init__` call and Python's exception chaining are left out. Only the `message` attribute is modelled.
- The one-line fixed-name fetchers are left out: `get_choices` and `get_benthic_attributes` through `get_fish_sizes` in mermaid_py/client.py (lines 192-256), and `get_choices` in src/client.py. Each one is one `_fetch_resource` or `api_root` call on a constant path, which `FetchResource` and `ApiRoot` already cover.
- Pagination is left out because the source itself marks it as TODO.
- LegacyClient.Client.ApiRoot: the `method` and `data` arguments are left out. Every caller in the source uses GET without data.
- Python default arguments are left out. Callers pass `None` explicitly as `Option` values.
- Exceptions propagate in Python. In the model, a failure is a `Failure` value that each caller returns unchanged, which is the same control flow.
- setup.py and the test suites are not part of this model.
