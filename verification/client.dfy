/** The Eventline API client (`external/evcli/client.go`): how a request is
    built, how a response becomes an outcome, the cursor pagination loop
    and the per-resource calls built on them. HTTP itself is abstract: the
    answer the network gives to a request is a parameter (`Exchange`). */
module EvcliClient {
  import opened Common
  import opened Eventline
  import opened EvcliIdentities

  /** The structured error body `{code, message}` of a rejected request. */
  datatype APIError = APIError(code: string, message: string)

  /** The errors `SendRequest` returns, one per `return` of the source. */
  datatype Error =
    | CannotEncodeBody
    | CannotSendRequest
    | CannotReadResponseBody
    | Api(apiError: APIError)
    | RequestFailed(status: int, body: Bytes)
    | EmptyResponseBody
    | CannotDecodeResponseBody

  /** A Go `error` result on its own: nil or an error. */
  datatype Outcome = Pass | Fail(error: Error)

  /** The `body` argument: nil, an `io.Reader` sent as it is, or any other
      value, given by what `json.Marshal` makes of it (None: it failed). */
  datatype Body = NoBody | Stream(content: Bytes) | Value(encoding: Option<Bytes>)

  /** The query string of the request URI. */
  datatype Query = NoQuery | CursorQuery(cursor: Cursor) | DryRun

  /** A request as it goes on the wire; `path` is the list of segments given
      to `NewURL`. */
  datatype Request = Request(
    verb: string, path: seq<string>, query: Query, headers: map<string, string>, payload: Option<Bytes>)

  /** What the network does with one request: the send fails, the body
      cannot be read, or a status and a complete body come back. */
  datatype Exchange = SendFailed | ReadFailed | Received(status: int, body: Bytes)

  /** The `dest` argument: nil, a `*[]byte` raw sink, or a pointer to a
      value that the response is decoded over. */
  datatype Dest<!T> = Discard | RawSink | Into(prior: T, decode: (T, Bytes) -> Option<T>)

  /** What a successful call leaves in its destination. */
  datatype Delivered<T> = Discarded | RawBody(bytes: Bytes) | Decoded(value: T)

  /** The JSON library, left uninterpreted: a decoder for API errors and an
      encoder or decoder per type the client sends or receives. */
  datatype Codec = Codec(
    decodeApiError: Bytes -> Option<APIError>,
    encodeProject: Project -> Option<Bytes>,
    decodeProject: (Project, Bytes) -> Option<Project>,
    decodeProjectPage: (Page<Project>, Bytes) -> Option<Page<Project>>,
    identity: IdentityCodec,
    decodeIdentityPage: (Page<Identity>, Bytes) -> Option<Page<Identity>>,
    encodeJobSpec: JobSpec -> Option<Bytes>,
    decodeJob: (Job, Bytes) -> Option<Job>,
    decodeJobPage: (Page<Job>, Bytes) -> Option<Page<Job>>)

  const AuthorizationHeader := "Authorization"
  const ProjectIdHeader := "X-Eventline-Project-Id"

  /** The headers of every request: a bearer token exactly when an API key
      is configured, the project scope exactly when one is set. */
  function RequestHeaders(apiKey: string, projectId: Option<Id>): (h: map<string, string>)
    ensures AuthorizationHeader in h <==> apiKey != ""
    ensures AuthorizationHeader in h ==> h[AuthorizationHeader] == "Bearer " + apiKey
    ensures ProjectIdHeader in h <==> projectId.Some?
    ensures ProjectIdHeader in h ==> h[ProjectIdHeader] == projectId.value
    ensures h.Keys <= {AuthorizationHeader, ProjectIdHeader}
  {
    var auth := if apiKey != "" then map[AuthorizationHeader := "Bearer " + apiKey] else map[];
    if projectId.Some? then auth[ProjectIdHeader := projectId.value] else auth
  }

  /** Whether the body stops the call before any request is created. */
  predicate EncodeFails(body: Body) {
    body.Value? && body.encoding.None?
  }

  /** The requests a call puts on the wire: none when its body cannot be
      encoded, otherwise one, carrying the body as given or as encoded. */
  function Issued(apiKey: string, projectId: Option<Id>, verb: string, path: seq<string>, query: Query, body: Body)
    : (r: seq<Request>)
    ensures r == [] <==> EncodeFails(body)
    ensures |r| <= 1
    ensures r != [] ==> r[0].verb == verb && r[0].path == path && r[0].query == query
    ensures r != [] ==> r[0].headers == RequestHeaders(apiKey, projectId)
    ensures body.NoBody? ==> r != [] && r[0].payload == None
    ensures body.Stream? ==> r != [] && r[0].payload == Some(body.content)
    ensures body.Value? && r != [] ==> r[0].payload == body.encoding
  {
    match body
    case NoBody => [Request(verb, path, query, RequestHeaders(apiKey, projectId), None)]
    case Stream(content) => [Request(verb, path, query, RequestHeaders(apiKey, projectId), Some(content))]
    case Value(None) => []
    case Value(Some(bytes)) => [Request(verb, path, query, RequestHeaders(apiKey, projectId), Some(bytes))]
  }

  predicate IsSuccessStatus(status: int) {
    200 <= status < 300
  }

  /** How a complete response becomes an outcome. Outside [200, 300) the
      body is first tried as a structured API error; inside it, the
      destination decides. */
  function Interpret<T>(codec: Codec, status: int, body: Bytes, dest: Dest<T>): (r: Result<Delivered<T>, Error>)
    ensures r.Success? ==> IsSuccessStatus(status)
    ensures !IsSuccessStatus(status) && codec.decodeApiError(body).Some? ==>
      r == Failure(Api(codec.decodeApiError(body).value))
    ensures !IsSuccessStatus(status) && codec.decodeApiError(body).None? ==>
      r == Failure(RequestFailed(status, body))
    ensures IsSuccessStatus(status) && dest.Discard? ==> r == Success(Discarded)
    ensures IsSuccessStatus(status) && dest.RawSink? ==> r == Success(RawBody(body))
    ensures IsSuccessStatus(status) && dest.Into? && body == [] ==> r == Failure(EmptyResponseBody)
    ensures IsSuccessStatus(status) && dest.Into? && body != [] ==>
      (r.Success? <==> dest.decode(dest.prior, body).Some?)
      && (r.Success? ==> r == Success(Decoded(dest.decode(dest.prior, body).value)))
      && (r.Failure? ==> r.error == CannotDecodeResponseBody)
  {
    if !IsSuccessStatus(status) then
      match codec.decodeApiError(body)
      case Some(apiError) => Failure(Api(apiError))
      case None => Failure(RequestFailed(status, body))
    else
      match dest
      case Discard => Success(Discarded)
      case RawSink => Success(RawBody(body))
      case Into(prior, decode) =>
        if |body| == 0 then Failure(EmptyResponseBody)
        else
          match decode(prior, body)
          case None => Failure(CannotDecodeResponseBody)
          case Some(v) => Success(Decoded(v))
  }

  /** The outcome of a call whose request was issued. */
  function Receive<T>(codec: Codec, reply: Exchange, dest: Dest<T>): (r: Result<Delivered<T>, Error>)
    ensures reply.SendFailed? ==> r == Failure(CannotSendRequest)
    ensures reply.ReadFailed? ==> r == Failure(CannotReadResponseBody)
    ensures reply.Received? ==> r == Interpret(codec, reply.status, reply.body, dest)
  {
    match reply
    case SendFailed => Failure(CannotSendRequest)
    case ReadFailed => Failure(CannotReadResponseBody)
    case Received(status, body) => Interpret(codec, status, body, dest)
  }

  /** The outcome of `SendRequest`. */
  function Send<T>(codec: Codec, body: Body, dest: Dest<T>, reply: Exchange): (r: Result<Delivered<T>, Error>)
    ensures EncodeFails(body) ==> r == Failure(CannotEncodeBody)
    ensures !EncodeFails(body) ==> r == Receive(codec, reply, dest)
    ensures dest.Into? && r.Success? ==> r.value.Decoded?
  {
    if EncodeFails(body) then Failure(CannotEncodeBody) else Receive(codec, reply, dest)
  }

  /** The value a call leaves behind its destination pointer. */
  function Fetched<T>(codec: Codec, body: Body, prior: T, decode: (T, Bytes) -> Option<T>, reply: Exchange)
    : (r: Result<T, Error>)
    ensures r.Success? <==> Send(codec, body, Into(prior, decode), reply).Success?
    ensures r.Success? ==> Send(codec, body, Into(prior, decode), reply) == Success(Decoded(r.value))
    ensures r.Failure? ==> Send(codec, body, Into(prior, decode), reply) == Failure(r.error)
  {
    match Send(codec, body, Into(prior, decode), reply)
    case Failure(e) => Failure(e)
    case Success(Decoded(v)) => Success(v)
    case Success(_) => assert false; Failure(CannotDecodeResponseBody)
  }

  /** The error of a call with a nil destination. */
  function Completed(codec: Codec, body: Body, reply: Exchange): (r: Outcome)
    ensures r.Pass? <==> Send<bool>(codec, body, Discard, reply).Success?
    ensures r.Fail? ==> Send<bool>(codec, body, Discard, reply) == Failure(r.error)
  {
    match Send<bool>(codec, body, Discard, reply)
    case Failure(e) => Fail(e)
    case Success(_) => Pass
  }

  /** A nil destination makes a call's outcome independent of the response
      body, whatever its content. */
  lemma DiscardIgnoresBody(codec: Codec, body: Body, status: int, b1: Bytes, b2: Bytes)
    requires IsSuccessStatus(status)
    ensures Completed(codec, body, Received(status, b1)) == Completed(codec, body, Received(status, b2))
  {
  }

  // ----- the identity envelope on the wire -----

  /** An identity as a request body: encoded by `MarshalJSON`. */
  function IdentityBody(codec: Codec, identity: Identity): (b: Body)
    ensures b.Value?
    ensures b.encoding.Some? <==> Marshal(codec.identity, identity).Success?
    ensures b.encoding.Some? ==> b.encoding.value == Marshal(codec.identity, identity).value
  {
    Value(match Marshal(codec.identity, identity) case Success(bytes) => Some(bytes) case Failure(_) => None)
  }

  /** Decoding into an identity goes through `UnmarshalJSON`. */
  function IdentityDecoder(codec: Codec): (decode: (Identity, Bytes) -> Option<Identity>)
    ensures forall prior, bytes :: decode(prior, bytes).Some? <==> codec.identity.decodeRecord(prior, bytes).Some?
    ensures forall prior, bytes :: decode(prior, bytes).Some? ==> decode(prior, bytes).value.data == prior.data
  {
    (prior: Identity, bytes: Bytes) =>
      var u := Unmarshal(codec.identity, prior, bytes);
      if u.failed then None else Some(u.receiver)
  }

  // ----- cursor pagination -----

  /** What the client makes of each reply of a listing: a page or an error. */
  function Answers<T>(codec: Codec, decodePage: (Page<T>, Bytes) -> Option<Page<T>>, replies: seq<Exchange>)
    : (a: seq<Result<Page<T>, Error>>)
    ensures |a| == |replies|
    ensures forall k :: 0 <= k < |replies| ==> a[k] == Fetched(codec, NoBody, EmptyPage(), decodePage, replies[k])
  {
    seq(|replies|, k requires 0 <= k < |replies| => Fetched(codec, NoBody, EmptyPage(), decodePage, replies[k]))
  }

  /** An answer after which the loop stops: an error, or the last page. */
  predicate Stops<T>(a: Result<Page<T>, Error>) {
    a.Failure? || a.value.next.None?
  }

  /** The server's collection is finite: some answer stops the loop. */
  predicate Ends<T>(answers: seq<Result<Page<T>, Error>>) {
    |answers| > 0 && (Stops(answers[0]) || Ends(answers[1..]))
  }

  /** The index of the answer that stops the loop: every answer before it
      is a page with a next cursor. */
  function StopIndex<T>(answers: seq<Result<Page<T>, Error>>): (n: nat)
    requires Ends(answers)
    ensures n < |answers| && Stops(answers[n])
    ensures forall j :: 0 <= j < n ==> !Stops(answers[j])
  {
    if Stops(answers[0]) then 0
    else
      var n := 1 + StopIndex(answers[1..]);
      assert forall j :: 1 <= j < n ==> answers[j] == answers[1..][j - 1];
      n
  }

  /** The elements of the first `k` answers, all pages, in page order. */
  function Gathered<T>(answers: seq<Result<Page<T>, Error>>, k: nat): seq<T>
    requires k <= |answers|
    requires forall j :: 0 <= j < k ==> answers[j].Success?
  {
    if k == 0 then [] else Gathered(answers, k - 1) + answers[k - 1].value.elements
  }

  /** The result of a listing: the concatenation of every page up to the
      last one, or the first error, which discards what came before. */
  function Collected<T>(answers: seq<Result<Page<T>, Error>>): (r: Result<seq<T>, Error>)
    requires Ends(answers)
    ensures r.Success? <==> answers[StopIndex(answers)].Success?
    ensures r.Failure? ==> r.error == answers[StopIndex(answers)].error
    ensures r.Success? ==>
      r.value == Gathered(answers, StopIndex(answers)) + answers[StopIndex(answers)].value.elements
  {
    var n := StopIndex(answers);
    if answers[n].Failure? then Failure(answers[n].error) else Success(Gathered(answers, n + 1))
  }

  /** The cursor the `k`-th page request carries: the first cursor, then the
      next cursor of the page before. */
  function CursorAt<T>(answers: seq<Result<Page<T>, Error>>, k: nat): Cursor
    requires Ends(answers) && k <= StopIndex(answers)
  {
    if k == 0 then FirstCursor else answers[k - 1].value.next.value
  }

  /** The page requests a listing issues: one per answer up to the one that
      stops it, each a GET of the collection with the matching cursor. */
  function PageRequests<T>(apiKey: string, projectId: Option<Id>, collection: string,
                           answers: seq<Result<Page<T>, Error>>): (r: seq<Request>)
    requires Ends(answers)
    ensures |r| == StopIndex(answers) + 1
    ensures r[0].query == CursorQuery(FirstCursor)
  {
    seq(StopIndex(answers) + 1, k requires 0 <= k <= StopIndex(answers) =>
      Request("GET", [collection], CursorQuery(CursorAt(answers, k)), RequestHeaders(apiKey, projectId), None))
  }

  /** A reference definition of the listing, following the pages one by one. */
  function Traverse<T>(answers: seq<Result<Page<T>, Error>>): Result<seq<T>, Error>
    requires Ends(answers)
    decreases |answers|
  {
    match answers[0]
    case Failure(e) => Failure(e)
    case Success(page) =>
      if page.next.None? then Success(page.elements)
      else
        match Traverse(answers[1..])
        case Failure(e) => Failure(e)
        case Success(rest) => Success(page.elements + rest)
  }

  /** Gathering from the second answer on is gathering all and dropping the
      first page's elements. */
  lemma {:induction false} GatheredTail<T>(answers: seq<Result<Page<T>, Error>>, k: nat)
    requires 0 < k <= |answers|
    requires forall j :: 0 <= j < k ==> answers[j].Success?
    ensures Gathered(answers, k) == answers[0].value.elements + Gathered(answers[1..], k - 1)
  {
    if k > 1 {
      GatheredTail(answers, k - 1);
      assert answers[1..][k - 2] == answers[k - 1];
    }
  }

  /** The page-by-page definition and the closed form agree on every
      sequence of answers. */
  lemma {:induction false} TraverseIsCollected<T>(answers: seq<Result<Page<T>, Error>>)
    requires Ends(answers)
    ensures Traverse(answers) == Collected(answers)
    decreases |answers|
  {
    if Stops(answers[0]) {
      if answers[0].Success? {
        assert Gathered(answers, 1) == answers[0].value.elements;
      }
    } else {
      var tail := answers[1..];
      TraverseIsCollected(tail);
      var n := StopIndex(answers);
      assert n == 1 + StopIndex(tail);
      assert tail[n - 1] == answers[n];
      if answers[n].Success? {
        GatheredTail(answers, n + 1);
      }
    }
  }

  /** A listing succeeds exactly when no page fails before the last one; a
      failure is the error of the answer that stopped it. */
  lemma ListingSucceedsIff<T>(answers: seq<Result<Page<T>, Error>>)
    requires Ends(answers)
    ensures Collected(answers).Success? <==> forall j :: 0 <= j <= StopIndex(answers) ==> answers[j].Success?
    ensures Collected(answers).Failure? ==> Collected(answers).error == answers[StopIndex(answers)].error
  {
  }

  /** Appending a page never disturbs the elements gathered before it: the
      elements of the first `j` pages are a prefix of those of the first `k`. */
  lemma {:induction false} GatheredPrefix<T>(answers: seq<Result<Page<T>, Error>>, j: nat, k: nat)
    requires j <= k <= |answers|
    requires forall i :: 0 <= i < k ==> answers[i].Success?
    ensures Gathered(answers, j) <= Gathered(answers, k)
    decreases k
  {
    if j < k {
      GatheredPrefix(answers, j, k - 1);
    }
  }

  /** The API client. `sent` records every request put on the wire. */
  class Client {
    const codec: Codec
    var apiKey: string
    var projectId: Option<Id>
    ghost var sent: seq<Request>

    /** `NewClient`, for its fields: the configured key and no project. */
    constructor (codec: Codec, apiKey: string)
      ensures this.codec == codec && this.apiKey == apiKey && projectId == None && sent == []
    {
      this.codec := codec;
      this.apiKey := apiKey;
      projectId := None;
      sent := [];
    }

    /** `SendRequest`. */
    method SendRequest<T>(verb: string, path: seq<string>, query: Query, body: Body, dest: Dest<T>, reply: Exchange)
      returns (r: Result<Delivered<T>, Error>)
      modifies this
      ensures apiKey == old(apiKey) && projectId == old(projectId)
      ensures sent == old(sent) + Issued(apiKey, projectId, verb, path, query, body)
      ensures r == Send(codec, body, dest, reply)
    {
      var payload: Option<Bytes>;
      match body {
        case NoBody => payload := None;
        case Stream(content) => payload := Some(content);
        case Value(encoding) =>
          if encoding.None? {
            return Failure(CannotEncodeBody);
          }
          payload := encoding;
      }
      var headers: map<string, string> := map[];
      if apiKey != "" {
        headers := headers[AuthorizationHeader := "Bearer " + apiKey];
      }
      if projectId.Some? {
        headers := headers[ProjectIdHeader := projectId.value];
      }
      assert headers == RequestHeaders(apiKey, projectId);
      sent := sent + [Request(verb, path, query, headers, payload)];
      match reply {
        case SendFailed => return Failure(CannotSendRequest);
        case ReadFailed => return Failure(CannotReadResponseBody);
        case Received(status, resBody) =>
          if !IsSuccessStatus(status) {
            match codec.decodeApiError(resBody) {
              case Some(apiError) => return Failure(Api(apiError));
              case None => return Failure(RequestFailed(status, resBody));
            }
          }
          match dest {
            case Discard => r := Success(Discarded);
            case RawSink => r := Success(RawBody(resBody));
            case Into(prior, decode) =>
              if |resBody| == 0 {
                return Failure(EmptyResponseBody);
              }
              match decode(prior, resBody) {
                case None => return Failure(CannotDecodeResponseBody);
                case Some(v) => r := Success(Decoded(v));
              }
          }
      }
    }

    /** `SendRequest` with a value destination, giving the value written. */
    method SendInto<T>(verb: string, path: seq<string>, query: Query, body: Body,
                       prior: T, decode: (T, Bytes) -> Option<T>, reply: Exchange)
      returns (r: Result<T, Error>)
      modifies this
      ensures apiKey == old(apiKey) && projectId == old(projectId)
      ensures sent == old(sent) + Issued(apiKey, projectId, verb, path, query, body)
      ensures r == Fetched(codec, body, prior, decode, reply)
    {
      var out := SendRequest(verb, path, query, body, Into(prior, decode), reply);
      match out {
        case Failure(e) => r := Failure(e);
        case Success(delivered) =>
          match delivered {
            case Decoded(v) => r := Success(v);
            case Discarded => assert false;
            case RawBody(_) => assert false;
          }
      }
    }

    /** `SendRequest` with a nil destination. */
    method SendDiscarding(verb: string, path: seq<string>, query: Query, body: Body, reply: Exchange)
      returns (r: Outcome)
      modifies this
      ensures apiKey == old(apiKey) && projectId == old(projectId)
      ensures sent == old(sent) + Issued(apiKey, projectId, verb, path, query, body)
      ensures r == Completed(codec, body, reply)
    {
      var out := SendRequest<bool>(verb, path, query, body, Discard, reply);
      r := if out.Failure? then Fail(out.error) else Pass;
    }

    /** The loop shared by `FetchProjects`, `FetchIdentities` and
        `FetchJobs`: request pages from the first cursor on, append each
        page's elements, follow `Next` until it is absent. */
    method Paginate<T>(collection: string, decodePage: (Page<T>, Bytes) -> Option<Page<T>>, replies: seq<Exchange>)
      returns (r: Result<seq<T>, Error>)
      requires Ends(Answers(codec, decodePage, replies))
      modifies this
      ensures apiKey == old(apiKey) && projectId == old(projectId)
      ensures r == Collected(Answers(codec, decodePage, replies))
      ensures sent == old(sent) + PageRequests(apiKey, projectId, collection, Answers(codec, decodePage, replies))
    {
      ghost var answers := Answers(codec, decodePage, replies);
      ghost var n := StopIndex(answers);
      ghost var requests := PageRequests(apiKey, projectId, collection, answers);
      var items: seq<T> := [];
      var cursor := FirstCursor;
      var k := 0;
      while true
        invariant 0 <= k <= n
        invariant apiKey == old(apiKey) && projectId == old(projectId)
        invariant items == Gathered(answers, k)
        invariant cursor == CursorAt(answers, k)
        invariant sent == old(sent) + requests[..k]
        decreases n - k
      {
        var page := SendInto("GET", [collection], CursorQuery(cursor), NoBody, EmptyPage(), decodePage, replies[k]);
        assert requests[k] == Request("GET", [collection], CursorQuery(cursor), RequestHeaders(apiKey, projectId), None);
        assert requests[..k + 1] == requests[..k] + [requests[k]];
        if page.Failure? {
          assert sent == old(sent) + requests;
          return Failure(page.error);
        }
        items := items + page.value.elements;
        if page.value.next.None? {
          assert sent == old(sent) + requests;
          break;
        }
        cursor := page.value.next.value;
        k := k + 1;
      }
      r := Success(items);
    }

    method FetchProjects(replies: seq<Exchange>) returns (r: Result<seq<Project>, Error>)
      requires Ends(Answers(codec, codec.decodeProjectPage, replies))
      modifies this
      ensures apiKey == old(apiKey) && projectId == old(projectId)
      ensures r == Collected(Answers(codec, codec.decodeProjectPage, replies))
      ensures sent == old(sent) + PageRequests(apiKey, projectId, "projects", Answers(codec, codec.decodeProjectPage, replies))
    {
      r := Paginate("projects", codec.decodeProjectPage, replies);
    }

    method FetchProjectById(id: Id, reply: Exchange) returns (r: Result<Project, Error>)
      modifies this
      ensures apiKey == old(apiKey) && projectId == old(projectId)
      ensures sent == old(sent) + Issued(apiKey, projectId, "GET", ["projects", "id", id], NoQuery, NoBody)
      ensures r == Fetched(codec, NoBody, Project(NilId, ""), codec.decodeProject, reply)
    {
      r := SendInto("GET", ["projects", "id", id], NoQuery, NoBody, Project(NilId, ""), codec.decodeProject, reply);
    }

    method FetchProjectByName(name: string, reply: Exchange) returns (r: Result<Project, Error>)
      modifies this
      ensures apiKey == old(apiKey) && projectId == old(projectId)
      ensures sent == old(sent) + Issued(apiKey, projectId, "GET", ["projects", "name", name], NoQuery, NoBody)
      ensures r == Fetched(codec, NoBody, Project(NilId, ""), codec.decodeProject, reply)
    {
      r := SendInto("GET", ["projects", "name", name], NoQuery, NoBody, Project(NilId, ""), codec.decodeProject, reply);
    }

    /** `CreateProject`: the project is both the body and the destination,
        so the server's answer is decoded over what was sent. */
    method CreateProject(project: Project, reply: Exchange) returns (r: Result<Project, Error>)
      modifies this
      ensures apiKey == old(apiKey) && projectId == old(projectId)
      ensures sent == old(sent) + Issued(apiKey, projectId, "POST", ["projects"], NoQuery, Value(codec.encodeProject(project)))
      ensures r == Fetched(codec, Value(codec.encodeProject(project)), project, codec.decodeProject, reply)
    {
      r := SendInto("POST", ["projects"], NoQuery, Value(codec.encodeProject(project)), project, codec.decodeProject, reply);
    }

    method DeleteProject(id: Id, reply: Exchange) returns (r: Outcome)
      modifies this
      ensures apiKey == old(apiKey) && projectId == old(projectId)
      ensures sent == old(sent) + Issued(apiKey, projectId, "DELETE", ["projects", "id", id], NoQuery, NoBody)
      ensures r == Completed(codec, NoBody, reply)
    {
      r := SendDiscarding("DELETE", ["projects", "id", id], NoQuery, NoBody, reply);
    }

    /** `UpdateProject`: a nil destination, so nothing is written back. */
    method UpdateProject(project: Project, reply: Exchange) returns (r: Outcome)
      modifies this
      ensures apiKey == old(apiKey) && projectId == old(projectId)
      ensures sent == old(sent) + Issued(apiKey, projectId, "PUT", ["projects", "id", project.id], NoQuery, Value(codec.encodeProject(project)))
      ensures r == Completed(codec, Value(codec.encodeProject(project)), reply)
    {
      r := SendDiscarding("PUT", ["projects", "id", project.id], NoQuery, Value(codec.encodeProject(project)), reply);
    }

    method CreateIdentity(identity: Identity, reply: Exchange) returns (r: Result<Identity, Error>)
      modifies this
      ensures apiKey == old(apiKey) && projectId == old(projectId)
      ensures sent == old(sent) + Issued(apiKey, projectId, "POST", ["identities"], NoQuery, IdentityBody(codec, identity))
      ensures r == Fetched(codec, IdentityBody(codec, identity), identity, IdentityDecoder(codec), reply)
    {
      r := SendInto("POST", ["identities"], NoQuery, IdentityBody(codec, identity), identity, IdentityDecoder(codec), reply);
    }

    method FetchIdentities(replies: seq<Exchange>) returns (r: Result<seq<Identity>, Error>)
      requires Ends(Answers(codec, codec.decodeIdentityPage, replies))
      modifies this
      ensures apiKey == old(apiKey) && projectId == old(projectId)
      ensures r == Collected(Answers(codec, codec.decodeIdentityPage, replies))
      ensures sent == old(sent) + PageRequests(apiKey, projectId, "identities", Answers(codec, codec.decodeIdentityPage, replies))
    {
      r := Paginate("identities", codec.decodeIdentityPage, replies);
    }

    method FetchIdentityById(id: Id, reply: Exchange) returns (r: Result<Identity, Error>)
      modifies this
      ensures apiKey == old(apiKey) && projectId == old(projectId)
      ensures sent == old(sent) + Issued(apiKey, projectId, "GET", ["identities", "id", id], NoQuery, NoBody)
      ensures r == Fetched(codec, NoBody, ZeroIdentity, IdentityDecoder(codec), reply)
    {
      r := SendInto("GET", ["identities", "id", id], NoQuery, NoBody, ZeroIdentity, IdentityDecoder(codec), reply);
    }

    /** `UpdateIdentity`: unlike `UpdateProject`, the identity is also the
        destination, so the server's answer is written back. */
    method UpdateIdentity(identity: Identity, reply: Exchange) returns (r: Result<Identity, Error>)
      modifies this
      ensures apiKey == old(apiKey) && projectId == old(projectId)
      ensures sent == old(sent) + Issued(apiKey, projectId, "PUT", ["identities", "id", identity.id], NoQuery, IdentityBody(codec, identity))
      ensures r == Fetched(codec, IdentityBody(codec, identity), identity, IdentityDecoder(codec), reply)
    {
      r := SendInto("PUT", ["identities", "id", identity.id], NoQuery, IdentityBody(codec, identity), identity, IdentityDecoder(codec), reply);
    }

    method DeleteIdentity(id: Id, reply: Exchange) returns (r: Outcome)
      modifies this
      ensures apiKey == old(apiKey) && projectId == old(projectId)
      ensures sent == old(sent) + Issued(apiKey, projectId, "DELETE", ["identities", "id", id], NoQuery, NoBody)
      ensures r == Completed(codec, NoBody, reply)
    {
      r := SendDiscarding("DELETE", ["identities", "id", id], NoQuery, NoBody, reply);
    }

    method FetchJobByName(name: string, reply: Exchange) returns (r: Result<Job, Error>)
      modifies this
      ensures apiKey == old(apiKey) && projectId == old(projectId)
      ensures sent == old(sent) + Issued(apiKey, projectId, "GET", ["jobs", "name", name], NoQuery, NoBody)
      ensures r == Fetched(codec, NoBody, ZeroJob, codec.decodeJob, reply)
    {
      r := SendInto("GET", ["jobs", "name", name], NoQuery, NoBody, ZeroJob, codec.decodeJob, reply);
    }

    method FetchJobs(replies: seq<Exchange>) returns (r: Result<seq<Job>, Error>)
      requires Ends(Answers(codec, codec.decodeJobPage, replies))
      modifies this
      ensures apiKey == old(apiKey) && projectId == old(projectId)
      ensures r == Collected(Answers(codec, codec.decodeJobPage, replies))
      ensures sent == old(sent) + PageRequests(apiKey, projectId, "jobs", Answers(codec, codec.decodeJobPage, replies))
    {
      r := Paginate("jobs", codec.decodeJobPage, replies);
    }

    /** `DeployJob`: a dry run adds the `dry-run` query, discards the
        response and yields no job; otherwise the resulting job is decoded. */
    method DeployJob(spec: JobSpec, dryRun: bool, reply: Exchange) returns (r: Result<Option<Job>, Error>)
      modifies this
      ensures apiKey == old(apiKey) && projectId == old(projectId)
      ensures sent == old(sent) + Issued(apiKey, projectId, "PUT", ["jobs", "name", spec.name],
                                         if dryRun then DryRun else NoQuery, Value(codec.encodeJobSpec(spec)))
      ensures dryRun ==> match Completed(codec, Value(codec.encodeJobSpec(spec)), reply)
                         case Pass => r == Success(None)
                         case Fail(e) => r == Failure(e)
      ensures !dryRun ==> match Fetched(codec, Value(codec.encodeJobSpec(spec)), ZeroJob, codec.decodeJob, reply)
                          case Success(job) => r == Success(Some(job))
                          case Failure(e) => r == Failure(e)
    {
      var query := if dryRun then DryRun else NoQuery;
      if dryRun {
        var out := SendDiscarding("PUT", ["jobs", "name", spec.name], query, Value(codec.encodeJobSpec(spec)), reply);
        if out.Fail? {
          return Failure(out.error);
        }
        return Success(None);
      } else {
        var job := SendInto("PUT", ["jobs", "name", spec.name], query, Value(codec.encodeJobSpec(spec)), ZeroJob, codec.decodeJob, reply);
        if job.Failure? {
          return Failure(job.error);
        }
        return Success(Some(job.value));
      }
    }

    method DeleteJob(id: string, reply: Exchange) returns (r: Outcome)
      modifies this
      ensures apiKey == old(apiKey) && projectId == old(projectId)
      ensures sent == old(sent) + Issued(apiKey, projectId, "DELETE", ["jobs", "id", id], NoQuery, NoBody)
      ensures r == Completed(codec, NoBody, reply)
    {
      r := SendDiscarding("DELETE", ["jobs", "id", id], NoQuery, NoBody, reply);
    }
  }
}
