/** The value types of the Eventline library that the client and the
    provider exchange: identifiers, cursors, pages, projects and jobs.
    Only the fields the core reads or writes are kept. */
module Eventline {
  import opened Common

  /** A KSUID in its textual form: 27 characters of the base-62 alphabet. */
  const KsuidLength := 27

  predicate IsBase62(c: char) {
    '0' <= c <= '9' || 'A' <= c <= 'Z' || 'a' <= c <= 'z'
  }

  predicate IsKsuid(s: string) {
    |s| == KsuidLength && forall i :: 0 <= i < |s| ==> IsBase62(s[i])
  }

  /** An identifier, kept in its textual form, so that `id.String()` is the
      value itself. */
  type Id = s: string | IsKsuid(s) witness "000000000000000000000000000"

  /** The zero KSUID, the value of an `Id` field nobody has assigned. */
  const NilId: Id := "000000000000000000000000000"

  /** `ksuid.Parse`: accepts exactly the well-formed identifiers, and
      printing what it parsed gives back the input. */
  function ParseId(s: string): (r: Option<Id>)
    ensures r.Some? <==> IsKsuid(s)
    ensures r.Some? ==> r.value == s
  {
    if IsKsuid(s) then Some(s) else None
  }

  /** A pagination cursor: a page size and an opaque position. */
  datatype Cursor = Cursor(size: int, position: string)

  /** The first cursor of every listing: `eventline.Cursor{Size: 20}`. */
  const FirstCursor := Cursor(20, "")

  datatype Page<T> = Page(elements: seq<T>, previous: Option<Cursor>, next: Option<Cursor>)

  /** The zero page a listing decodes each response into. */
  function EmptyPage<T>(): Page<T> {
    Page([], None, None)
  }

  datatype Project = Project(id: Id, name: string)

  datatype Parameter = Parameter(
    name: string, description: string, kind: string, values: seq<string>, environment: string)

  datatype Runner = Runner(name: string, identity: string)

  /** `event` is the textual form of the trigger's event reference. */
  datatype Trigger = Trigger(event: string, identity: string)

  datatype StepCommand = StepCommand(name: string, arguments: seq<string>)

  datatype StepScript = StepScript(path: string, content: string, arguments: seq<string>)

  datatype Step = Step(stepLabel: string, code: string, command: Option<StepCommand>, script: Option<StepScript>)

  datatype JobSpec = JobSpec(
    name: string,
    description: string,
    trigger: Option<Trigger>,
    parameters: seq<Parameter>,
    runner: Option<Runner>,
    concurrent: bool,
    retention: int,
    environment: map<string, string>,
    identities: seq<string>,
    steps: seq<Step>)

  datatype Job = Job(id: Id, disabled: bool, spec: JobSpec)

  /** The zero job a single-job response is decoded into. */
  const ZeroJob := Job(NilId, false, JobSpec("", "", None, [], None, false, 0, map[], [], []))
}
