/** The `eventline_project` resource
    (`internal/provider/project_resource.go`): create, read, update, delete
    and import of one project, and what each leaves in Terraform's state. */
module ProviderProjectResource {
  import opened Common
  import opened Eventline
  import opened EvcliClient
  import opened Framework

  /** `ProjectResourceModel`, the state of one project resource. */
  datatype ProjectResourceModel = ProjectResourceModel(id: string, name: string)

  const UnknownProject := "unknown_project"

  class ProjectResource {
    const client: Client

    /** `Configure`: the resource works through the provider's client. */
    constructor (client: Client)
      ensures this.client == client
    {
      this.client := client;
    }

    /** `Create`: sends a project holding only the planned name and adopts
        the id the server assigned; on error nothing is written. */
    method Create(plan: Got<ProjectResourceModel>, reply: Exchange) returns (resp: Response<ProjectResourceModel>)
      modifies client
      ensures client.apiKey == old(client.apiKey) && client.projectId == old(client.projectId)
      ensures plan.GetFailed? ==> resp == Response(plan.diagnostics, Untouched) && client.sent == old(client.sent)
      ensures plan.Got? ==>
        var project := Project(NilId, plan.value.name);
        var body := Value(client.codec.encodeProject(project));
        && client.sent == old(client.sent) + Issued(client.apiKey, client.projectId, "POST", ["projects"], NoQuery, body)
        && match Fetched(client.codec, body, project, client.codec.decodeProject, reply)
           case Failure(e) => resp == Response([Diagnostic("CreateProject", Some(e))], Untouched)
           case Success(created) => resp == Response([], Set(plan.value.(id := created.id)))
    {
      if plan.GetFailed? {
        return Response(plan.diagnostics, Untouched);
      }
      var data := plan.value;
      var project := Project(NilId, data.name);
      var created := client.CreateProject(project, reply);
      if created.Failure? {
        return Response([Diagnostic("CreateProject", Some(created.error))], Untouched);
      }
      data := data.(id := created.value.id);
      resp := Response([], Set(data));
    }

    /** `Read`: a malformed id stops before any call; an `unknown_project`
        error removes the resource; any other error is reported and the
        state left alone; otherwise id and name come from the server. */
    method Read(state: Got<ProjectResourceModel>, reply: Exchange) returns (resp: Response<ProjectResourceModel>)
      modifies client
      ensures client.apiKey == old(client.apiKey) && client.projectId == old(client.projectId)
      ensures state.GetFailed? ==> resp == Response(state.diagnostics, Untouched) && client.sent == old(client.sent)
      ensures state.Got? && ParseId(state.value.id).None? ==>
        resp == Response([Diagnostic(KsuidParse, None)], Untouched) && client.sent == old(client.sent)
      ensures state.Got? && ParseId(state.value.id).Some? ==>
        var id := ParseId(state.value.id).value;
        && client.sent == old(client.sent) + Issued(client.apiKey, client.projectId, "GET", ["projects", "id", id], NoQuery, NoBody)
        && match Fetched(client.codec, NoBody, Project(NilId, ""), client.codec.decodeProject, reply)
           case Failure(e) =>
             if HasCode(e, UnknownProject) then resp == Response([], Removed)
             else resp == Response([Diagnostic("FetchProjectById", Some(e))], Untouched)
           case Success(project) => resp == Response([], Set(ProjectResourceModel(project.id, project.name)))
    {
      if state.GetFailed? {
        return Response(state.diagnostics, Untouched);
      }
      var data := state.value;
      var parsed := ParseId(data.id);
      if parsed.None? {
        return Response([Diagnostic(KsuidParse, None)], Untouched);
      }
      var id := parsed.value;
      var project := client.FetchProjectById(id, reply);
      if project.Failure? {
        if HasCode(project.error, UnknownProject) {
          return Response([], Removed);
        }
        return Response([Diagnostic("FetchProjectById", Some(project.error))], Untouched);
      }
      data := data.(id := project.value.id);
      data := data.(name := project.value.name);
      resp := Response([], Set(data));
    }

    /** `Update`: sends `{id, planned name}` as a whole replacement; nothing
        is written back, so the state is the plan itself. */
    method Update(plan: Got<ProjectResourceModel>, reply: Exchange) returns (resp: Response<ProjectResourceModel>)
      modifies client
      ensures client.apiKey == old(client.apiKey) && client.projectId == old(client.projectId)
      ensures plan.GetFailed? ==> resp == Response(plan.diagnostics, Untouched) && client.sent == old(client.sent)
      ensures plan.Got? && ParseId(plan.value.id).None? ==>
        resp == Response([Diagnostic(KsuidParse, None)], Untouched) && client.sent == old(client.sent)
      ensures plan.Got? && ParseId(plan.value.id).Some? ==>
        var project := Project(ParseId(plan.value.id).value, plan.value.name);
        var body := Value(client.codec.encodeProject(project));
        && client.sent == old(client.sent) + Issued(client.apiKey, client.projectId, "PUT", ["projects", "id", project.id], NoQuery, body)
        && match Completed(client.codec, body, reply)
           case Fail(e) => resp == Response([Diagnostic("UpdateProject", Some(e))], Untouched)
           case Pass => resp == Response([], Set(plan.value))
    {
      if plan.GetFailed? {
        return Response(plan.diagnostics, Untouched);
      }
      var data := plan.value;
      var parsed := ParseId(data.id);
      if parsed.None? {
        return Response([Diagnostic(KsuidParse, None)], Untouched);
      }
      var project := Project(parsed.value, data.name);
      var out := client.UpdateProject(project, reply);
      if out.Fail? {
        return Response([Diagnostic("UpdateProject", Some(out.error))], Untouched);
      }
      data := data.(id := project.id);
      resp := Response([], Set(data));
    }

    /** `Delete`: an `unknown_project` error counts as success (the project
        is already gone); any other error is reported. */
    method Delete(state: Got<ProjectResourceModel>, reply: Exchange) returns (resp: Response<ProjectResourceModel>)
      modifies client
      ensures client.apiKey == old(client.apiKey) && client.projectId == old(client.projectId)
      ensures resp.state == Untouched
      ensures state.GetFailed? ==> resp.diagnostics == state.diagnostics && client.sent == old(client.sent)
      ensures state.Got? && ParseId(state.value.id).None? ==>
        resp.diagnostics == [Diagnostic(KsuidParse, None)] && client.sent == old(client.sent)
      ensures state.Got? && ParseId(state.value.id).Some? ==>
        var id := ParseId(state.value.id).value;
        && client.sent == old(client.sent) + Issued(client.apiKey, client.projectId, "DELETE", ["projects", "id", id], NoQuery, NoBody)
        && match Completed(client.codec, NoBody, reply)
           case Pass => resp.diagnostics == []
           case Fail(e) =>
             resp.diagnostics == if HasCode(e, UnknownProject) then [] else [Diagnostic("DeleteProject", Some(e))]
    {
      if state.GetFailed? {
        return Response(state.diagnostics, Untouched);
      }
      var parsed := ParseId(state.value.id);
      if parsed.None? {
        return Response([Diagnostic(KsuidParse, None)], Untouched);
      }
      var out := client.DeleteProject(parsed.value, reply);
      if out.Fail? {
        if HasCode(out.error, UnknownProject) {
          return Response([], Untouched);
        }
        return Response([Diagnostic("DeleteProject", Some(out.error))], Untouched);
      }
      resp := Response([], Untouched);
    }

    /** `ImportState`: the whole import identifier becomes the id. */
    method ImportState(key: string) returns (resp: ImportResponse)
      ensures resp == ImportResponse([], map["id" := key])
    {
      resp := ImportResponse([], map["id" := key]);
    }
  }
}
