/** The `eventline_projects` data source
    (`internal/provider/projects_data_source.go`): every project the API key
    can see, in listing order. */
module ProviderProjectsDataSource {
  import opened Common
  import opened Eventline
  import opened EvcliClient
  import opened Framework

  datatype ProjectModel = ProjectModel(id: string, name: string)

  datatype ProjectsModel = ProjectsModel(elements: seq<ProjectModel>)

  /** The conversion loop of `Read`: one element per project, in the order
      of the listing, holding that project's id and name. */
  method ProjectRows(projects: seq<Project>) returns (rows: seq<ProjectModel>)
    ensures |rows| == |projects|
    ensures forall i :: 0 <= i < |projects| ==> rows[i].id == projects[i].id && rows[i].name == projects[i].name
  {
    var list := new ProjectModel[|projects|](_ => ProjectModel("", ""));
    for i := 0 to |projects|
      invariant forall j :: 0 <= j < i ==> list[j].id == projects[j].id && list[j].name == projects[j].name
    {
      list[i] := ProjectModel(projects[i].id, projects[i].name);
    }
    rows := list[..];
  }

  class ProjectsDataSource {
    const client: Client

    /** `Configure`. */
    constructor (client: Client)
      ensures this.client == client
    {
      this.client := client;
    }

    /** `Read`: lists every project and replaces the elements with them; a
        failed listing is reported and nothing is written. The listing is
        not scoped to a project: whatever scope the client holds is sent. */
    method Read(config: Got<ProjectsModel>, replies: seq<Exchange>) returns (resp: Response<ProjectsModel>)
      requires Ends(Answers(client.codec, client.codec.decodeProjectPage, replies))
      modifies client
      ensures client.apiKey == old(client.apiKey) && client.projectId == old(client.projectId)
      ensures config.GetFailed? ==> resp == Response(config.diagnostics, Untouched) && client.sent == old(client.sent)
      ensures config.Got? ==>
        var answers := Answers(client.codec, client.codec.decodeProjectPage, replies);
        && client.sent == old(client.sent) + PageRequests(client.apiKey, client.projectId, "projects", answers)
        && match Collected(answers)
           case Failure(e) => resp == Response([Diagnostic("FetchProjects", Some(e))], Untouched)
           case Success(projects) =>
             && resp.diagnostics == [] && resp.state.Set?
             && |resp.state.value.elements| == |projects|
             && forall i :: 0 <= i < |projects| ==>
                  resp.state.value.elements[i] == ProjectModel(projects[i].id, projects[i].name)
    {
      if config.GetFailed? {
        return Response(config.diagnostics, Untouched);
      }
      var data := config.value;
      var projects := client.FetchProjects(replies);
      if projects.Failure? {
        return Response([Diagnostic("FetchProjects", Some(projects.error))], Untouched);
      }
      var projectList := ProjectRows(projects.value);
      data := data.(elements := projectList);
      resp := Response([], Set(data));
    }
  }
}
