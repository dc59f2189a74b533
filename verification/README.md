# Eventline Terraform provider, modelled in Dafny

This project models the decision layer of the Terraform provider for the
Eventline automation service. It covers four parts:

- the provider's API client (`evcli`): how a request is built and how a
  response becomes an outcome, the cursor pagination of the listings, and the
  JSON envelope of identities;
- the `eventline_project` and `eventline_identity` resources: which
  ids are checked, which API errors are absorbed, which server fields are
  adopted, and the parsing of import identifiers;
- the `eventline_projects`, `eventline_identities` and `eventline_jobs`
  data sources: the project scoping of the client, and the index-by-index
  copy of the fetched lists into Terraform state.

Modules, one per file:

| file | module | models |
|---|---|---|
| `common.dfy` | `Common` | `Option`, `Result`, byte strings |
| `eventline.dfy` | `Eventline` | KSUID identifiers, cursors and pages, projects, job specifications |
| `identities.dfy` | `EvcliIdentities` | `Identity`, `SortKey`, `MarshalJSON`, `UnmarshalJSON` |
| `client.dfy` | `EvcliClient` | `Client`: `SendRequest`, the pagination loop, every client call the provider uses |
| `framework.dfy` | `Framework` | diagnostics, state writes, plan/state/config reads |
| `project_resource.dfy` | `ProviderProjectResource` | the project resource |
| `identity_resource.dfy` | `ProviderIdentityResource` | the identity resource and its import identifier |
| `projects_data_source.dfy` | `ProviderProjectsDataSource` | the projects data source |
| `identities_data_source.dfy` | `ProviderIdentitiesDataSource` | the identities data source |
| `jobs_data_source.dfy` | `ProviderJobsDataSource` | the jobs data source |

How the model stands in for what it cannot see:

- **JSON.** The JSON library is a set of uninterpreted functions, gathered
  in `EvcliClient.Codec` and `EvcliIdentities.IdentityCodec`. Each returns
  `None` where Go's encoder or decoder returns an error.
- **The network.** Each request's fate is an `Exchange` parameter: the
  send failed, the body could not be read, or a status and body arrived. A
  listing takes one `Exchange` per page.
- **Requests on the wire.** The client keeps a ghost log, `sent`, of every
  request it issues. That log is how the contracts say "no request was
  made" and "the project header was set before the call".
- **Destination pointers.** `SendRequest` writes through its destination
  pointer. The model returns that write as a value instead: a decoded value,
  the raw body, or nothing for a nil destination.
- **The shared client.** The client's mutable `APIKey` and `ProjectId` are
  fields of the `Client` class. The resources and data sources hold that one
  client and assign `projectId` before the calls they scope.
- **Framework reads and writes.** Reading the plan, state or configuration
  gives `Got` (a value) or `GetFailed` (the framework's diagnostics). Each
  operation returns its diagnostics and what it does to the state: leaves
  it, sets it, or removes the resource.

The identity envelope is modelled as written. `MarshalJSON` emits the
encoding of the typed payload `Data` in place of `RawData`, but the
identity resource only ever fills `RawData`. As a result, the data an
identity is created or updated with is sent as the encoding of nil.
`RawOnlyIdentityLosesData` and `CreateSendsEncodingOfNil` prove this. They
assume only that the record actually marshalled decodes back to itself
(`RoundTripsAt`). That record's `data` is the output of `json.Marshal`,
which is already compact JSON, so Go's encoder meets the assumption there.
It is not assumed for every record: Go compacts and HTML-escapes raw JSON
fields when it encodes them, so an arbitrary raw `data` need not read back
unchanged.

## Model

| member | source | states |
|---|---|---|
| Eventline.ParseId | internal/provider/project_resource.go:82-86 | an id is accepted exactly when it is a 27-character base-62 KSUID, and is then kept as given |
| EvcliIdentities.SortKey | external/evcli/identities.go:36-47 | "id" gives the identity's id, "name" its name; any other key is refused (the source panics) |
| EvcliIdentities.Marshal | external/evcli/identities.go:49-61 | fails with "cannot encode data" exactly when the typed payload cannot be encoded; when it can, succeeds exactly when the record with its raw data replaced by the payload's encoding encodes, and the bytes are that encoding |
| EvcliIdentities.Unmarshal | external/evcli/identities.go:63-73 | fails exactly when the record does not decode, and then leaves the receiver unchanged; the typed payload always keeps its prior value; on success every JSON field comes from the bytes |
| EvcliIdentities.MarshalIgnoresRawData | external/evcli/identities.go:49-61 | the marshalled bytes do not depend on the raw data the identity held |
| EvcliIdentities.ReadBackAfterMarshal | external/evcli/identities.go:49-73 | provided the marshalled record itself round-trips, a fresh reader of a marshalled identity gets every field, with raw data equal to the encoding of the typed payload and no typed payload |
| EvcliIdentities.RawDataSurvivesIff | external/evcli/identities.go:49-73 | provided the marshalled record itself round-trips, raw data survives marshal then unmarshal if and only if it already was the encoding of the typed payload |
| EvcliIdentities.RawOnlyIdentityLosesData | external/evcli/identities.go:53-58 | provided the marshalled record itself round-trips, an identity with raw data but no typed payload reads back with `data` equal to "null", not its own raw data |
| EvcliClient.RequestHeaders | external/evcli/client.go:64-70 | `Authorization: Bearer <key>` is present iff the key is non-empty; `X-Eventline-Project-Id` is present iff a project is set, and carries it; no other header |
| EvcliClient.Issued | external/evcli/client.go:45-70 | no request is issued exactly when the body cannot be encoded; otherwise one request with the verb, path, query and headers, carrying no body, the stream as given, or the encoding |
| EvcliClient.Interpret | external/evcli/client.go:83-109 | a non-2xx status gives the decoded API error or, failing that, a status error with the raw body; on 2xx a nil destination succeeds whatever the body, a byte sink receives the body verbatim, and a value destination fails on an empty body, fails on undecodable JSON, else gets the decoded value |
| EvcliClient.Receive | external/evcli/client.go:72-109 | a failed send and a failed body read give their own errors; otherwise the response is interpreted |
| EvcliClient.Send | external/evcli/client.go:42-110 | a body that cannot be encoded fails with "cannot encode body" before anything is sent; a value destination that succeeds is always decoded |
| EvcliClient.Fetched | external/evcli/client.go:95-109 | the value left behind a destination pointer: success exactly when the call decodes a value, and that value |
| EvcliClient.Completed | external/evcli/client.go:95-109 | the outcome of a call with a nil destination: success exactly when the call succeeds |
| EvcliClient.DiscardIgnoresBody | external/evcli/client.go:95-97 | with a nil destination, a 2xx outcome is the same whatever the response body |
| EvcliClient.IdentityBody | external/evcli/identities.go:49-61 | an identity body encodes exactly when `MarshalJSON` succeeds, as its bytes |
| EvcliClient.IdentityDecoder | external/evcli/client.go:103 | decoding into an identity goes through `UnmarshalJSON`: it succeeds exactly when the record decodes, and keeps the prior typed payload |
| EvcliClient.Collected | external/evcli/client.go:112-138 | a listing succeeds exactly when the stopping answer is a page; a failure is that answer's error; a success is every earlier page's elements in order, followed by the last page's |
| EvcliClient.Answers | external/evcli/client.go:117-126 | each page reply is decoded into a fresh empty page |
| EvcliClient.StopIndex | external/evcli/client.go:124-132 | the loop stops at the first error or the first page without `Next`, and at no answer before |
| EvcliClient.PageRequests | external/evcli/client.go:115-123 | one GET per answer up to the stopping one, the first with the cursor of size 20 |
| EvcliClient.GatheredTail | external/evcli/client.go:128 | gathering from the second page on is gathering all pages less the first page's elements |
| EvcliClient.TraverseIsCollected | external/evcli/client.go:112-138 | the closed-form result of a listing equals the page-by-page reference definition |
| EvcliClient.ListingSucceedsIff | external/evcli/client.go:124-126 | a listing succeeds iff no page up to the last one fails; a failure is the stopping page's error, and earlier elements are discarded |
| EvcliClient.GatheredPrefix | external/evcli/client.go:128 | appending pages never disturbs earlier elements: order is preserved |
| EvcliClient.Client.constructor | external/evcli/client.go:23-40 | a new client has the configured key, no project and has sent nothing |
| EvcliClient.Client.SendRequest | external/evcli/client.go:42-110 | sends exactly the request `Issued` describes (none if encoding fails) and returns `Send`'s outcome; key and project unchanged |
| EvcliClient.Client.SendInto | external/evcli/client.go:95-109 | a call with a value destination returns the decoded value |
| EvcliClient.Client.SendDiscarding | external/evcli/client.go:95 | a call with a nil destination returns only the outcome |
| EvcliClient.Client.Paginate | external/evcli/client.go:112-138 | the listing loop returns the concatenation of every page's elements in order, or the stopping error, and issues exactly the page requests with the cursors followed |
| EvcliClient.Client.FetchProjects | external/evcli/client.go:112-138 | lists `projects` by pagination |
| EvcliClient.Client.FetchProjectById | external/evcli/client.go:140-151 | GET `projects/id/<id>`, decoded into an empty project |
| EvcliClient.Client.FetchProjectByName | external/evcli/client.go:153-164 | GET `projects/name/<name>`, decoded into an empty project |
| EvcliClient.Client.CreateProject | external/evcli/client.go:166-170 | POST of the project, whose answer is decoded over the project sent |
| EvcliClient.Client.DeleteProject | external/evcli/client.go:172-176 | DELETE with a nil destination |
| EvcliClient.Client.UpdateProject | external/evcli/client.go:178-182 | PUT of the project with a nil destination: nothing is written back |
| EvcliClient.Client.CreateIdentity | external/evcli/client.go:184-188 | POST of the marshalled identity, whose answer is unmarshalled over the identity sent |
| EvcliClient.Client.FetchIdentities | external/evcli/client.go:190-216 | lists `identities` by pagination |
| EvcliClient.Client.FetchIdentityById | external/evcli/client.go:218-229 | GET `identities/id/<id>`, unmarshalled into a zero identity |
| EvcliClient.Client.UpdateIdentity | external/evcli/client.go:231-235 | PUT of the marshalled identity whose answer is written back, unlike `UpdateProject` |
| EvcliClient.Client.DeleteIdentity | external/evcli/client.go:237-241 | DELETE with a nil destination |
| EvcliClient.Client.FetchJobByName | external/evcli/client.go:256-267 | GET `jobs/name/<name>`, decoded into a zero job |
| EvcliClient.Client.FetchJobs | external/evcli/client.go:269-295 | lists `jobs` by pagination |
| EvcliClient.Client.DeployJob | external/evcli/client.go:297-322 | a dry run adds the `dry-run` query, discards the answer and yields no job; otherwise the decoded job |
| EvcliClient.Client.DeleteJob | external/evcli/client.go:350-354 | DELETE with a nil destination |
| ProviderProjectResource.ProjectResource.constructor | internal/provider/project_resource.go:57-59 | the resource works through the given client |
| ProviderProjectResource.ProjectResource.Create | internal/provider/project_resource.go:61-74 | sends a project with only the planned name; on success the state is the plan with the server's id; on error it is reported and no state is set |
| ProviderProjectResource.ProjectResource.Read | internal/provider/project_resource.go:76-100 | a malformed id is reported with no request; `unknown_project` removes the resource without error; other errors are reported; on success id and name come from the server |
| ProviderProjectResource.ProjectResource.Update | internal/provider/project_resource.go:102-120 | sends `{parsed id, planned name}`; on success the state is the plan, with no write-back; on error it is reported |
| Framework.HasCode | internal/provider/project_resource.go:90 | an error has a code only if it is a structured API error, and then exactly when its code is the one asked for |
| ProviderProjectResource.ProjectResource.Delete | internal/provider/project_resource.go:122-141 | `unknown_project` counts as success; other errors are reported; state is never written |
| ProviderProjectResource.ProjectResource.ImportState | internal/provider/project_resource.go:143-145 | the whole import identifier becomes `id`, unsplit |
| ProviderIdentityResource.Split | internal/provider/identity_resource.go:220 | at least one part, no part contains the separator, and the parts joined by it give the input back |
| ProviderIdentityResource.SplitAfterPiece | internal/provider/identity_resource.go:220 | a separator-free piece followed by the separator splits off as the first part |
| ProviderIdentityResource.SplitWhole | internal/provider/identity_resource.go:220 | a separator-free string is a single part |
| ProviderIdentityResource.ParseImportKey | internal/provider/identity_resource.go:220-221 | an accepted identifier gives two non-empty parts free of `/`; one without `/` is refused |
| ProviderIdentityResource.PlannedIdentity | internal/provider/identity_resource.go:100-106 | the identity sent carries the given ids, the planned name, connector, type and raw data, no typed payload and no status |
| ProviderIdentityResource.ImportKeyIff | internal/provider/identity_resource.go:219-230 | an import identifier parses to `(p, i)` iff it is `p/i` with both non-empty and free of `/` |
| ProviderIdentityResource.ImportKeyNeedsOneSlash | internal/provider/identity_resource.go:220-221 | an accepted identifier is its two parts around a single `/` |
| ProviderIdentityResource.ImportKeyExamples | internal/provider/identity_resource.go:219-230 | `p1/i1` is accepted; `p1`, `/i1`, `p1/` and `p1/i1/x` are refused |
| ProviderIdentityResource.CreateSendsEncodingOfNil | internal/provider/identity_resource.go:100-106 | provided the record sent round-trips, the identity Create sends carries `data` equal to "null", not the planned raw data |
| ProviderIdentityResource.IdentityResource.constructor | internal/provider/identity_resource.go:84-86 | the resource works through the given client and raw-data comparison |
| ProviderIdentityResource.IdentityResource.Create | internal/provider/identity_resource.go:88-114 | a malformed project id is reported with no request and no scoping; otherwise the client is scoped, the planned identity sent, and id and status adopted from the server; an error is reported with no state |
| ProviderIdentityResource.IdentityResource.Read | internal/provider/identity_resource.go:116-157 | the project id is checked and the client scoped before the identity id is checked; `unknown_identity` removes the resource; other errors are reported; connector, id, name, status and type come from the server; `data` is replaced only when the comparison says it differs; a comparison error aborts |
| ProviderIdentityResource.IdentityResource.Update | internal/provider/identity_resource.go:159-190 | sends the identity built from both parsed ids and the plan; on success only the status is adopted |
| ProviderIdentityResource.IdentityResource.Delete | internal/provider/identity_resource.go:192-217 | `unknown_identity` counts as success; other errors are reported; state is never written |
| ProviderIdentityResource.IdentityResource.ImportState | internal/provider/identity_resource.go:219-230 | an accepted identifier sets `project_id` and `id`; any other is reported with nothing set |
| ProviderProjectsDataSource.ProjectRows | internal/provider/projects_data_source.go:69-73 | one element per project, same length and order, with that project's id and name |
| ProviderProjectsDataSource.ProjectsDataSource.constructor | internal/provider/projects_data_source.go:54-56 | the data source works through the given client |
| ProviderProjectsDataSource.ProjectsDataSource.Read | internal/provider/projects_data_source.go:58-75 | a configuration error returns before any request; a listing error is reported with no state; otherwise the elements are the listed projects in order |
| ProviderIdentitiesDataSource.IdentityRows | internal/provider/identities_data_source.go:106-117 | one element per identity, same length and order, each field copied and `data` verbatim |
| ProviderIdentitiesDataSource.ListingIsScoped | internal/provider/identities_data_source.go:100-101 | once the client is scoped, every page request of a listing carries the project header |
| ProviderIdentitiesDataSource.IdentitiesDataSource.constructor | internal/provider/identities_data_source.go:85-87 | the data source works through the given client |
| ProviderIdentitiesDataSource.IdentitiesDataSource.Read | internal/provider/identities_data_source.go:89-119 | a malformed project id is reported with no request; otherwise the client is scoped before listing; a listing error is reported with no state; otherwise the elements show the listed identities in order |
| ProviderJobsDataSource.JobRow | internal/provider/jobs_data_source.go:266-329 | a job's element has its id, disabled flag and name; runner, trigger, and each step's command and script are present iff present remotely; parameters and steps keep their count; identities keep their members |
| ProviderJobsDataSource.ParameterRows | internal/provider/jobs_data_source.go:282-293 | one element per parameter, in order |
| ProviderJobsDataSource.StepRows | internal/provider/jobs_data_source.go:300-322 | one element per step, in order, with command and script blocks only where the step has them |
| ProviderJobsDataSource.JobRows | internal/provider/jobs_data_source.go:266-329 | one element per job, in listing order, each the job's element |
| ProviderJobsDataSource.ParameterRowsInjective | internal/provider/jobs_data_source.go:282-293 | the parameter elements determine the parameters |
| ProviderJobsDataSource.StepRowsInjective | internal/provider/jobs_data_source.go:300-322 | the step elements determine the steps |
| ProviderJobsDataSource.JobRowIff | internal/provider/jobs_data_source.go:266-281 | two jobs show alike iff they agree on everything but identities, and those name the same set: only their order and repetitions are lost |
| ProviderJobsDataSource.JobsDataSource.constructor | internal/provider/jobs_data_source.go:245-247 | the data source works through the given client |
| ProviderJobsDataSource.JobsDataSource.Read | internal/provider/jobs_data_source.go:249-332 | a malformed project id is reported with no request; otherwise the client is scoped before listing; a listing error is reported with no state; otherwise the elements are the listed jobs' elements in order |

## Left out

- HTTP transport is abstracted into the `Exchange` parameter: URL resolution, `NewURL`, the 30-second timeout, `NewClient`'s base-URI parsing and `http.go`.
- The "cannot create request" error of `SendRequest` (client.go:59-62) is not modelled, because it only arises from a malformed URL, which the model does not build.
- JSON encoding and decoding and `JSONRawDataEqual` are uninterpreted functions. A trigger's event is kept as the text of its event reference (`Trigger.event`), and its formatting is left out. Go's decoder can also partly fill a destination before it fails; for a `dest` pointer the model keeps no such partial write.
- KSUID parsing is approximated as "27 base-62 characters". The check that the value fits in 160 bits is left out, and ids are kept as their textual form.
- Timestamps are left out, and the previous-page cursor of a page is carried but never followed, as in the source.
- `Schema`, `Metadata` and `Configure` are framework declarations with no behaviour. `Configure` appears only as each class's constructor.
- `provider.go` is not part of this model; it builds the client and registers the resources. `project_data_source.go` is not part of this model either; it wraps `FetchProjectByName`, which is modelled.
- `ReplayEvent`, `ExecuteJob` and the job-execution calls are one-line request wrappers that the provider does not call.
- `DeployJobs` (client.go:324-348) has the same dry-run branch as `DeployJob` but sends and decodes a list of jobs. It is left out because the provider never calls it.
- Terraform's null and unknown values, the diagnostics `State.Set` may add, and the detail text of diagnostics are left out. A diagnostic keeps its summary and the client error it wraps.
- The destination pointer of `SendRequest` and the in-place overwrite of the receiver in `UnmarshalJSON` are modelled as returned values, not as writes through aliases.
- ProviderIdentityResource.IdentityResource.Create and ProviderIdentityResource.IdentityResource.Update: in the source, the identity sent holds the very pointer the client's `ProjectId` is set to (identity_resource.go:99-103 and 170-180). Decoding the server's answer into the identity therefore also writes the answer's `project_id` into the client's scope. The model promises `client.projectId == Some(pid)` after the call and does not capture this aliased write.
- Concurrent use of the shared client's `ProjectId` is left out. It is only a field assigned before each scoped call.
- A listing takes as a precondition that the server's answers end (`Ends`). The model cannot state a listing that never ends, which the source would loop on forever.
- Server-side promises, such as the number of pages for a given collection size and distinct ids for created objects, are outside the provider's code.
- EvcliClient.Client.SendRequest: the destination kind is chosen by the caller as a `Dest` value. Go's dynamic type switch on `dest` (nil, `*[]byte`, anything else) is reduced to those three cases.
