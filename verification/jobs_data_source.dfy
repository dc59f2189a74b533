/** The `eventline_jobs` data source
    (`internal/provider/jobs_data_source.go`): every job of one project, each
    specification converted attribute by attribute. */
module ProviderJobsDataSource {
  import opened Common
  import opened Eventline
  import opened EvcliClient
  import opened Framework

  datatype ParameterModel = ParameterModel(
    description: string, environment: string, name: string, kind: string, values: seq<string>)

  datatype RunnerModel = RunnerModel(name: string, identity: string)

  datatype StepCommandModel = StepCommandModel(arguments: seq<string>, name: string)

  datatype StepScriptModel = StepScriptModel(arguments: seq<string>, content: string, path: string)

  datatype StepModel = StepModel(
    code: string, command: Option<StepCommandModel>, stepLabel: string, script: Option<StepScriptModel>)

  datatype TriggerModel = TriggerModel(event: string, identity: string)

  /** The specification of a job as the data source shows it; `identities`
      is a Terraform set. */
  datatype JobSpecModel = JobSpecModel(
    concurrent: bool,
    description: string,
    environment: map<string, string>,
    identities: set<string>,
    name: string,
    parameters: seq<ParameterModel>,
    retention: int,
    runner: Option<RunnerModel>,
    trigger: Option<TriggerModel>,
    steps: seq<StepModel>)

  datatype JobModel = JobModel(disabled: bool, id: string, spec: JobSpecModel)

  datatype JobsModel = JobsModel(elements: seq<JobModel>, projectId: string)

  // ----- what each element shows -----

  function ParameterRow(p: Parameter): ParameterModel {
    ParameterModel(p.description, p.environment, p.name, p.kind, p.values)
  }

  function ParameterRowsOf(parameters: seq<Parameter>): seq<ParameterModel> {
    seq(|parameters|, j requires 0 <= j < |parameters| => ParameterRow(parameters[j]))
  }

  /** A step shows its command and its script exactly when it has them. */
  function StepRow(s: Step): StepModel {
    StepModel(
      s.code,
      if s.command.Some? then Some(StepCommandModel(s.command.value.arguments, s.command.value.name)) else None,
      s.stepLabel,
      if s.script.Some? then Some(StepScriptModel(s.script.value.arguments, s.script.value.content, s.script.value.path)) else None)
  }

  function StepRowsOf(steps: seq<Step>): seq<StepModel> {
    seq(|steps|, j requires 0 <= j < |steps| => StepRow(steps[j]))
  }

  /** A job shows every attribute of its specification; its identities lose
      their order and repetitions. */
  function JobRow(job: Job): (row: JobModel)
    ensures row.id == job.id && row.disabled == job.disabled && row.spec.name == job.spec.name
    ensures row.spec.runner.Some? <==> job.spec.runner.Some?
    ensures row.spec.trigger.Some? <==> job.spec.trigger.Some?
    ensures |row.spec.parameters| == |job.spec.parameters| && |row.spec.steps| == |job.spec.steps|
    ensures forall j :: 0 <= j < |job.spec.steps| ==>
      (row.spec.steps[j].command.Some? <==> job.spec.steps[j].command.Some?)
      && (row.spec.steps[j].script.Some? <==> job.spec.steps[j].script.Some?)
    ensures forall x :: x in row.spec.identities <==> x in job.spec.identities
  {
    var spec := job.spec;
    JobModel(job.disabled, job.id, JobSpecModel(
      spec.concurrent,
      spec.description,
      spec.environment,
      (set x | x in spec.identities),
      spec.name,
      ParameterRowsOf(spec.parameters),
      spec.retention,
      if spec.runner.Some? then Some(RunnerModel(spec.runner.value.name, spec.runner.value.identity)) else None,
      if spec.trigger.Some? then Some(TriggerModel(spec.trigger.value.event, spec.trigger.value.identity)) else None,
      StepRowsOf(spec.steps)))
  }

  // ----- the conversion loops of Read -----

  /** The parameter loop: one element per parameter, in order. */
  method ParameterRows(parameters: seq<Parameter>) returns (rows: seq<ParameterModel>)
    ensures rows == ParameterRowsOf(parameters)
  {
    var list := new ParameterModel[|parameters|](_ => ParameterModel("", "", "", "", []));
    for j := 0 to |parameters|
      invariant forall k :: 0 <= k < j ==> list[k] == ParameterRow(parameters[k])
    {
      var parameter := parameters[j];
      list[j] := ParameterModel(parameter.description, parameter.environment, parameter.name, parameter.kind, parameter.values);
    }
    rows := list[..];
  }

  /** The step loop: one element per step, in order, with a command and a
      script block only where the step has one. */
  method StepRows(steps: seq<Step>) returns (rows: seq<StepModel>)
    ensures rows == StepRowsOf(steps)
  {
    var list := new StepModel[|steps|](_ => StepModel("", None, "", None));
    for j := 0 to |steps|
      invariant forall k :: 0 <= k < j ==> list[k] == StepRow(steps[k])
    {
      var step := steps[j];
      var row := StepModel(step.code, None, step.stepLabel, None);
      if step.command.Some? {
        row := row.(command := Some(StepCommandModel(step.command.value.arguments, step.command.value.name)));
      }
      if step.script.Some? {
        row := row.(script := Some(StepScriptModel(step.script.value.arguments, step.script.value.content, step.script.value.path)));
      }
      list[j] := row;
    }
    rows := list[..];
  }

  /** The job loop: one element per job, in listing order; the spec is
      filled in the source's order (scalars, parameters, runner, steps,
      trigger). */
  method JobRows(jobs: seq<Job>) returns (rows: seq<JobModel>)
    ensures |rows| == |jobs|
    ensures forall i :: 0 <= i < |jobs| ==> rows[i] == JobRow(jobs[i])
  {
    var list := new JobModel[|jobs|](_ => JobModel(false, "", JobSpecModel(false, "", map[], {}, "", [], 0, None, None, [])));
    for i := 0 to |jobs|
      invariant forall k :: 0 <= k < i ==> list[k] == JobRow(jobs[k])
    {
      var job := jobs[i];
      var spec := job.spec;
      var row := JobModel(job.disabled, job.id, JobSpecModel(
        spec.concurrent, spec.description, spec.environment, (set x | x in spec.identities), spec.name,
        [], spec.retention, None, None, []));
      var parameters := ParameterRows(spec.parameters);
      row := row.(spec := row.spec.(parameters := parameters));
      if spec.runner.Some? {
        row := row.(spec := row.spec.(runner := Some(RunnerModel(spec.runner.value.name, spec.runner.value.identity))));
      }
      var steps := StepRows(spec.steps);
      row := row.(spec := row.spec.(steps := steps));
      if spec.trigger.Some? {
        row := row.(spec := row.spec.(trigger := Some(TriggerModel(spec.trigger.value.event, spec.trigger.value.identity))));
      }
      list[i] := row;
    }
    rows := list[..];
  }

  // ----- what the conversion keeps -----

  /** A job with its identities cleared, the part the conversion keeps
      exactly. */
  function WithoutIdentities(job: Job): Job {
    job.(spec := job.spec.(identities := []))
  }

  lemma {:induction false} ParameterRowsInjective(a: seq<Parameter>, b: seq<Parameter>)
    requires ParameterRowsOf(a) == ParameterRowsOf(b)
    ensures a == b
  {
    assert |a| == |ParameterRowsOf(a)| == |ParameterRowsOf(b)| == |b|;
    forall j | 0 <= j < |a|
      ensures a[j] == b[j]
    {
      assert ParameterRow(a[j]) == ParameterRowsOf(a)[j] == ParameterRowsOf(b)[j] == ParameterRow(b[j]);
    }
  }

  lemma {:induction false} StepRowsInjective(a: seq<Step>, b: seq<Step>)
    requires StepRowsOf(a) == StepRowsOf(b)
    ensures a == b
  {
    assert |a| == |StepRowsOf(a)| == |StepRowsOf(b)| == |b|;
    forall j | 0 <= j < |a|
      ensures a[j] == b[j]
    {
      assert StepRow(a[j]) == StepRowsOf(a)[j] == StepRowsOf(b)[j] == StepRow(b[j]);
    }
  }

  /** Two jobs are shown alike exactly when they agree on everything but
      their identities, and those name the same set: the conversion loses
      only the order and the repetitions of the identities. */
  lemma JobRowIff(a: Job, b: Job)
    ensures JobRow(a) == JobRow(b) <==>
      WithoutIdentities(a) == WithoutIdentities(b)
      && (set x | x in a.spec.identities) == (set x | x in b.spec.identities)
  {
    if JobRow(a) == JobRow(b) {
      ParameterRowsInjective(a.spec.parameters, b.spec.parameters);
      StepRowsInjective(a.spec.steps, b.spec.steps);
    }
  }

  class JobsDataSource {
    const client: Client

    /** `Configure`. */
    constructor (client: Client)
      ensures this.client == client
    {
      this.client := client;
    }

    /** `Read`: a malformed project id stops before any call; otherwise the
        client is scoped to the project, every job of it is listed and the
        elements replaced with them; a failed listing is reported. */
    method Read(config: Got<JobsModel>, replies: seq<Exchange>) returns (resp: Response<JobsModel>)
      requires Ends(Answers(client.codec, client.codec.decodeJobPage, replies))
      modifies client
      ensures client.apiKey == old(client.apiKey)
      ensures config.GetFailed? ==>
        resp == Response(config.diagnostics, Untouched)
        && client.sent == old(client.sent) && client.projectId == old(client.projectId)
      ensures config.Got? && ParseId(config.value.projectId).None? ==>
        resp == Response([Diagnostic(KsuidParse, None)], Untouched)
        && client.sent == old(client.sent) && client.projectId == old(client.projectId)
      ensures config.Got? && ParseId(config.value.projectId).Some? ==>
        var answers := Answers(client.codec, client.codec.decodeJobPage, replies);
        && client.projectId == Some(ParseId(config.value.projectId).value)
        && client.sent == old(client.sent) + PageRequests(client.apiKey, client.projectId, "jobs", answers)
        && match Collected(answers)
           case Failure(e) => resp == Response([Diagnostic("FetchJobs", Some(e))], Untouched)
           case Success(jobs) =>
             && resp.diagnostics == [] && resp.state.Set?
             && resp.state.value.projectId == config.value.projectId
             && |resp.state.value.elements| == |jobs|
             && forall i :: 0 <= i < |jobs| ==> resp.state.value.elements[i] == JobRow(jobs[i])
    {
      if config.GetFailed? {
        return Response(config.diagnostics, Untouched);
      }
      var data := config.value;
      var id := ParseId(data.projectId);
      if id.None? {
        return Response([Diagnostic(KsuidParse, None)], Untouched);
      }
      client.projectId := Some(id.value);
      var jobs := client.FetchJobs(replies);
      if jobs.Failure? {
        return Response([Diagnostic("FetchJobs", Some(jobs.error))], Untouched);
      }
      var jobList := JobRows(jobs.value);
      data := data.(elements := jobList);
      resp := Response([], Set(data));
    }
  }
}
