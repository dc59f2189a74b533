/** The `eventline_identities` data source
    (`internal/provider/identities_data_source.go`): every identity of one
    project, with its connector payload as the raw JSON the server sent. */
module ProviderIdentitiesDataSource {
  import opened Common
  import opened Eventline
  import opened EvcliIdentities
  import opened EvcliClient
  import opened Framework

  datatype IdentityModel = IdentityModel(
    connector: string, id: string, name: string, rawData: string, status: string, kind: string)

  datatype IdentitiesModel = IdentitiesModel(elements: seq<IdentityModel>, projectId: string)

  /** The attributes an identity shows: every field the server sent, its
      `data` verbatim. */
  predicate Shows(row: IdentityModel, identity: Identity) {
    && row.connector == identity.connector && row.id == identity.id && row.name == identity.name
    && row.rawData == identity.rawData && row.status == identity.status && row.kind == identity.kind
  }

  /** The conversion loop of `Read`: one element per identity, in listing
      order, each showing that identity. */
  method IdentityRows(identities: seq<Identity>) returns (rows: seq<IdentityModel>)
    ensures |rows| == |identities|
    ensures forall i :: 0 <= i < |identities| ==> Shows(rows[i], identities[i])
  {
    var list := new IdentityModel[|identities|](_ => IdentityModel("", "", "", "", "", ""));
    for i := 0 to |identities|
      invariant forall j :: 0 <= j < i ==> Shows(list[j], identities[j])
    {
      var identity := identities[i];
      list[i] := IdentityModel(identity.connector, identity.id, identity.name, identity.rawData, identity.status, identity.kind);
    }
    rows := list[..];
  }

  /** A listing issued for the project `pid` carries its scope on every page
      request. */
  lemma {:induction false} ListingIsScoped<T>(apiKey: string, pid: Id, collection: string,
                                               answers: seq<Result<Page<T>, Error>>)
    requires Ends(answers)
    ensures forall r :: r in PageRequests(apiKey, Some(pid), collection, answers) ==>
      ProjectIdHeader in r.headers && r.headers[ProjectIdHeader] == pid
  {
    var rs := PageRequests(apiKey, Some(pid), collection, answers);
    forall r | r in rs
      ensures ProjectIdHeader in r.headers && r.headers[ProjectIdHeader] == pid
    {
      var k :| 0 <= k < |rs| && rs[k] == r;
      assert r.headers == RequestHeaders(apiKey, Some(pid));
    }
  }

  class IdentitiesDataSource {
    const client: Client

    /** `Configure`. */
    constructor (client: Client)
      ensures this.client == client
    {
      this.client := client;
    }

    /** `Read`: a malformed project id stops before any call; otherwise the
        client is scoped to the project, every identity of it is listed and
        the elements replaced with them; a failed listing is reported. */
    method Read(config: Got<IdentitiesModel>, replies: seq<Exchange>) returns (resp: Response<IdentitiesModel>)
      requires Ends(Answers(client.codec, client.codec.decodeIdentityPage, replies))
      modifies client
      ensures client.apiKey == old(client.apiKey)
      ensures config.GetFailed? ==>
        resp == Response(config.diagnostics, Untouched)
        && client.sent == old(client.sent) && client.projectId == old(client.projectId)
      ensures config.Got? && ParseId(config.value.projectId).None? ==>
        resp == Response([Diagnostic(KsuidParse, None)], Untouched)
        && client.sent == old(client.sent) && client.projectId == old(client.projectId)
      ensures config.Got? && ParseId(config.value.projectId).Some? ==>
        var answers := Answers(client.codec, client.codec.decodeIdentityPage, replies);
        && client.projectId == Some(ParseId(config.value.projectId).value)
        && client.sent == old(client.sent) + PageRequests(client.apiKey, client.projectId, "identities", answers)
        && match Collected(answers)
           case Failure(e) => resp == Response([Diagnostic("FetchIdentities", Some(e))], Untouched)
           case Success(identities) =>
             && resp.diagnostics == [] && resp.state.Set?
             && resp.state.value.projectId == config.value.projectId
             && |resp.state.value.elements| == |identities|
             && forall i :: 0 <= i < |identities| ==> Shows(resp.state.value.elements[i], identities[i])
    {
      if config.GetFailed? {
        return Response(config.diagnostics, Untouched);
      }
      var data := config.value;
      var id := ParseId(data.projectId);
      if id.None? {
        return Response([Diagnostic(KsuidParse, None)], Untouched);
      }
      client.projectId := Some(id.value);
      var identities := client.FetchIdentities(replies);
      if identities.Failure? {
        return Response([Diagnostic("FetchIdentities", Some(identities.error))], Untouched);
      }
      var identityList := IdentityRows(identities.value);
      data := data.(elements := identityList);
      resp := Response([], Set(data));
    }
  }
}
