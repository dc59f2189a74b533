/** The `eventline_identity` resource
    (`internal/provider/identity_resource.go`): every operation scopes the
    shared client to the identity's project before calling it, and Read
    only rewrites the opaque `data` attribute when it differs as JSON. */
module ProviderIdentityResource {
  import opened Common
  import opened Eventline
  import opened EvcliIdentities
  import opened EvcliClient
  import opened Framework

  /** `IdentityResourceModel`, the state of one identity resource. */
  datatype IdentityResourceModel = IdentityResourceModel(
    connector: string, id: string, name: string, projectId: string, rawData: string, status: string, kind: string)

  const UnknownIdentity := "unknown_identity"

  /** The identity a Create or Update sends: the planned attributes, raw
      data as planned, no typed payload, no status. */
  function PlannedIdentity(id: Id, projectId: Id, data: IdentityResourceModel): (i: Identity)
    ensures i.id == id && i.projectId == Some(projectId)
    ensures i.name == data.name && i.connector == data.connector && i.kind == data.kind
    ensures i.data == NilData && i.rawData == data.rawData
    ensures i.status == "" && i.errorMessage == ""
  {
    Identity(id, Some(projectId), data.name, "", "", data.connector, data.kind, NilData, data.rawData)
  }

  // ----- the import identifier -----

  /** `strings.Join`. */
  function Join(parts: seq<string>, sep: char): string
    requires |parts| > 0
  {
    if |parts| == 1 then parts[0] else parts[0] + [sep] + Join(parts[1..], sep)
  }

  /** `strings.Split` on a one-character separator: the pieces between the
      separators, none of which contains it, which join back to the input. */
  function Split(s: string, sep: char): (parts: seq<string>)
    ensures |parts| > 0
    ensures forall i :: 0 <= i < |parts| ==> sep !in parts[i]
    ensures Join(parts, sep) == s
  {
    if |s| == 0 then [""]
    else
      var rest := Split(s[1..], sep);
      if s[0] == sep then [""] + rest
      else
        assert Join([[s[0]] + rest[0]] + rest[1..], sep) == [s[0]] + Join(rest, sep);
        [[s[0]] + rest[0]] + rest[1..]
  }

  /** A piece without the separator in front of the rest splits off. */
  lemma {:induction false} SplitAfterPiece(p: string, sep: char, rest: string)
    requires sep !in p
    ensures Split(p + [sep] + rest, sep) == [p] + Split(rest, sep)
    decreases |p|
  {
    var s := p + [sep] + rest;
    if |p| > 0 {
      assert s[0] == p[0] && s[0] != sep;
      assert s[1..] == p[1..] + [sep] + rest;
      SplitAfterPiece(p[1..], sep, rest);
      var tail := Split(s[1..], sep);
      assert tail == [p[1..]] + Split(rest, sep);
      assert Split(s, sep) == [[s[0]] + tail[0]] + tail[1..];
      assert [s[0]] + tail[0] == p;
    } else {
      assert p + [sep] + rest == [sep] + rest;
    }
  }

  /** A string without the separator is a single piece. */
  lemma {:induction false} SplitWhole(p: string, sep: char)
    requires sep !in p
    ensures Split(p, sep) == [p]
    decreases |p|
  {
    if |p| > 0 {
      SplitWhole(p[1..], sep);
      assert [p[0]] + p[1..] == p;
    }
  }

  /** The check of `ImportState`: exactly two non-empty parts around `/`,
      the project id first. */
  function ParseImportKey(key: string): (r: Option<(string, string)>)
    ensures r.Some? ==> r.value.0 != "" && r.value.1 != ""
    ensures r.Some? ==> '/' !in r.value.0 && '/' !in r.value.1
    ensures '/' !in key ==> r.None?
  {
    var parts := Split(key, '/');
    if |parts| != 2 || parts[0] == "" || parts[1] == "" then None else Some((parts[0], parts[1]))
  }

  /** The import identifier is accepted exactly when it is
      `<project>/<identity>` with both parts non-empty and free of `/`. */
  lemma ImportKeyIff(key: string, project: string, identity: string)
    ensures ParseImportKey(key) == Some((project, identity)) <==>
      && key == project + "/" + identity
      && project != "" && identity != ""
      && '/' !in project && '/' !in identity
  {
    var parts := Split(key, '/');
    if ParseImportKey(key) == Some((project, identity)) {
      assert parts == [project, identity];
      assert Join(parts, '/') == project + "/" + identity;
    }
    if key == project + "/" + identity && '/' !in project && '/' !in identity {
      SplitAfterPiece(project, '/', identity);
      SplitWhole(identity, '/');
      assert parts == [project, identity];
    }
  }

  /** An accepted identifier has exactly one `/`; anything with none, or with
      more than one, is refused. */
  lemma ImportKeyNeedsOneSlash(key: string)
    requires ParseImportKey(key).Some?
    ensures key == ParseImportKey(key).value.0 + "/" + ParseImportKey(key).value.1
    ensures |ParseImportKey(key).value.0| + 1 + |ParseImportKey(key).value.1| == |key|
  {
    var parts := Split(key, '/');
    assert Join(parts, '/') == parts[0] + "/" + parts[1];
  }

  /** The identifiers the resource's documentation gives as examples. */
  lemma ImportKeyExamples()
    ensures ParseImportKey("p1/i1") == Some(("p1", "i1"))
    ensures ParseImportKey("p1") == None
    ensures ParseImportKey("/i1") == None
    ensures ParseImportKey("p1/") == None
    ensures ParseImportKey("p1/i1/x") == None
  {
    ImportKeyIff("p1/i1", "p1", "i1");
    SplitWhole("p1", '/');
    SplitAfterPiece("", '/', "i1");
    SplitWhole("i1", '/');
    SplitAfterPiece("p1", '/', "");
    SplitWhole("", '/');
    SplitAfterPiece("p1", '/', "i1/x");
    SplitAfterPiece("i1", '/', "x");
    SplitWhole("x", '/');
    assert "p1/" == "p1" + ['/'] + "";
    assert "/i1" == "" + ['/'] + "i1";
    assert "p1/i1/x" == "p1" + ['/'] + "i1/x";
    assert "i1/x" == "i1" + ['/'] + "x";
  }

  class IdentityResource {
    const client: Client
    /** `JSONRawDataEqual`: whether two raw JSON payloads are equivalent, or
        None when they cannot be compared. */
    const rawDataEqual: (Bytes, Bytes) -> Option<bool>

    /** `Configure`. */
    constructor (client: Client, rawDataEqual: (Bytes, Bytes) -> Option<bool>)
      ensures this.client == client && this.rawDataEqual == rawDataEqual
    {
      this.client := client;
      this.rawDataEqual := rawDataEqual;
    }

    /** `Create`: a malformed project id stops before any call and before the
        client is scoped; otherwise the client is scoped to the project, the
        planned identity is sent, and id and status come from the server. */
    method Create(plan: Got<IdentityResourceModel>, reply: Exchange) returns (resp: Response<IdentityResourceModel>)
      modifies client
      ensures client.apiKey == old(client.apiKey)
      ensures plan.GetFailed? ==>
        resp == Response(plan.diagnostics, Untouched)
        && client.sent == old(client.sent) && client.projectId == old(client.projectId)
      ensures plan.Got? && ParseId(plan.value.projectId).None? ==>
        resp == Response([Diagnostic(KsuidParse, None)], Untouched)
        && client.sent == old(client.sent) && client.projectId == old(client.projectId)
      ensures plan.Got? && ParseId(plan.value.projectId).Some? ==>
        var pid := ParseId(plan.value.projectId).value;
        var identity := PlannedIdentity(NilId, pid, plan.value);
        && client.projectId == Some(pid)
        && client.sent == old(client.sent)
             + Issued(client.apiKey, Some(pid), "POST", ["identities"], NoQuery, IdentityBody(client.codec, identity))
        && match Fetched(client.codec, IdentityBody(client.codec, identity), identity, IdentityDecoder(client.codec), reply)
           case Failure(e) => resp == Response([Diagnostic("CreateIdentity", Some(e))], Untouched)
           case Success(created) =>
             resp == Response([], Set(plan.value.(id := created.id, status := created.status)))
    {
      if plan.GetFailed? {
        return Response(plan.diagnostics, Untouched);
      }
      var data := plan.value;
      var parsed := ParseId(data.projectId);
      if parsed.None? {
        return Response([Diagnostic(KsuidParse, None)], Untouched);
      }
      var id := parsed.value;
      client.projectId := Some(id);
      var identity := Identity(NilId, Some(id), data.name, "", "", data.connector, data.kind, NilData, data.rawData);
      var created := client.CreateIdentity(identity, reply);
      if created.Failure? {
        return Response([Diagnostic("CreateIdentity", Some(created.error))], Untouched);
      }
      data := data.(id := created.value.id);
      data := data.(status := created.value.status);
      resp := Response([], Set(data));
    }

    /** `Read`: the project id is checked and the client scoped before the
        identity id is checked; `unknown_identity` removes the resource; on
        success every attribute comes from the server except `data`, which
        is replaced only when it differs as JSON. */
    method Read(state: Got<IdentityResourceModel>, reply: Exchange) returns (resp: Response<IdentityResourceModel>)
      modifies client
      ensures client.apiKey == old(client.apiKey)
      ensures state.GetFailed? ==>
        resp == Response(state.diagnostics, Untouched)
        && client.sent == old(client.sent) && client.projectId == old(client.projectId)
      ensures state.Got? && ParseId(state.value.projectId).None? ==>
        resp == Response([Diagnostic(KsuidParse, None)], Untouched)
        && client.sent == old(client.sent) && client.projectId == old(client.projectId)
      ensures state.Got? && ParseId(state.value.projectId).Some? ==>
        client.projectId == Some(ParseId(state.value.projectId).value)
      ensures state.Got? && ParseId(state.value.projectId).Some? && ParseId(state.value.id).None? ==>
        resp == Response([Diagnostic(KsuidParse, None)], Untouched) && client.sent == old(client.sent)
      ensures state.Got? && ParseId(state.value.projectId).Some? && ParseId(state.value.id).Some? ==>
        var data := state.value;
        var id := ParseId(data.id).value;
        && client.sent == old(client.sent)
             + Issued(client.apiKey, client.projectId, "GET", ["identities", "id", id], NoQuery, NoBody)
        && match Fetched(client.codec, NoBody, ZeroIdentity, IdentityDecoder(client.codec), reply)
           case Failure(e) =>
             if HasCode(e, UnknownIdentity) then resp == Response([], Removed)
             else resp == Response([Diagnostic("FetchIdentityById", Some(e))], Untouched)
           case Success(identity) =>
             match rawDataEqual(identity.rawData, data.rawData)
             case None => resp == Response([Diagnostic("JSONRawDataequal", None)], Untouched)
             case Some(same) =>
               resp == Response([], Set(IdentityResourceModel(
                 identity.connector, identity.id, identity.name, data.projectId,
                 if same then data.rawData else identity.rawData,
                 identity.status, identity.kind)))
    {
      if state.GetFailed? {
        return Response(state.diagnostics, Untouched);
      }
      var data := state.value;
      var parsedProject := ParseId(data.projectId);
      if parsedProject.None? {
        return Response([Diagnostic(KsuidParse, None)], Untouched);
      }
      client.projectId := Some(parsedProject.value);
      var parsed := ParseId(data.id);
      if parsed.None? {
        return Response([Diagnostic(KsuidParse, None)], Untouched);
      }
      var fetched := client.FetchIdentityById(parsed.value, reply);
      if fetched.Failure? {
        if HasCode(fetched.error, UnknownIdentity) {
          return Response([], Removed);
        }
        return Response([Diagnostic("FetchIdentityById", Some(fetched.error))], Untouched);
      }
      var identity := fetched.value;
      data := data.(connector := identity.connector);
      data := data.(id := identity.id);
      data := data.(name := identity.name);
      var rawDataEquals := rawDataEqual(identity.rawData, data.rawData);
      if rawDataEquals.None? {
        return Response([Diagnostic("JSONRawDataequal", None)], Untouched);
      }
      if !rawDataEquals.value {
        data := data.(rawData := identity.rawData);
      }
      data := data.(status := identity.status);
      data := data.(kind := identity.kind);
      resp := Response([], Set(data));
    }

    /** `Update`: sends the whole identity built from the parsed ids and the
        plan; on success only the status is adopted. */
    method Update(plan: Got<IdentityResourceModel>, reply: Exchange) returns (resp: Response<IdentityResourceModel>)
      modifies client
      ensures client.apiKey == old(client.apiKey)
      ensures plan.GetFailed? ==>
        resp == Response(plan.diagnostics, Untouched)
        && client.sent == old(client.sent) && client.projectId == old(client.projectId)
      ensures plan.Got? && ParseId(plan.value.projectId).None? ==>
        resp == Response([Diagnostic(KsuidParse, None)], Untouched)
        && client.sent == old(client.sent) && client.projectId == old(client.projectId)
      ensures plan.Got? && ParseId(plan.value.projectId).Some? ==>
        client.projectId == Some(ParseId(plan.value.projectId).value)
      ensures plan.Got? && ParseId(plan.value.projectId).Some? && ParseId(plan.value.id).None? ==>
        resp == Response([Diagnostic(KsuidParse, None)], Untouched) && client.sent == old(client.sent)
      ensures plan.Got? && ParseId(plan.value.projectId).Some? && ParseId(plan.value.id).Some? ==>
        var id := ParseId(plan.value.id).value;
        var identity := PlannedIdentity(id, ParseId(plan.value.projectId).value, plan.value);
        && client.sent == old(client.sent)
             + Issued(client.apiKey, client.projectId, "PUT", ["identities", "id", id], NoQuery, IdentityBody(client.codec, identity))
        && match Fetched(client.codec, IdentityBody(client.codec, identity), identity, IdentityDecoder(client.codec), reply)
           case Failure(e) => resp == Response([Diagnostic("UpdateIdentity", Some(e))], Untouched)
           case Success(updated) => resp == Response([], Set(plan.value.(status := updated.status)))
    {
      if plan.GetFailed? {
        return Response(plan.diagnostics, Untouched);
      }
      var data := plan.value;
      var parsedProject := ParseId(data.projectId);
      if parsedProject.None? {
        return Response([Diagnostic(KsuidParse, None)], Untouched);
      }
      var pid := parsedProject.value;
      client.projectId := Some(pid);
      var parsed := ParseId(data.id);
      if parsed.None? {
        return Response([Diagnostic(KsuidParse, None)], Untouched);
      }
      var identity := Identity(parsed.value, Some(pid), data.name, "", "", data.connector, data.kind, NilData, data.rawData);
      var updated := client.UpdateIdentity(identity, reply);
      if updated.Failure? {
        return Response([Diagnostic("UpdateIdentity", Some(updated.error))], Untouched);
      }
      data := data.(status := updated.value.status);
      resp := Response([], Set(data));
    }

    /** `Delete`: `unknown_identity` counts as success; any other error is
        reported. */
    method Delete(state: Got<IdentityResourceModel>, reply: Exchange) returns (resp: Response<IdentityResourceModel>)
      modifies client
      ensures client.apiKey == old(client.apiKey)
      ensures resp.state == Untouched
      ensures state.GetFailed? ==>
        resp.diagnostics == state.diagnostics
        && client.sent == old(client.sent) && client.projectId == old(client.projectId)
      ensures state.Got? && ParseId(state.value.projectId).None? ==>
        resp.diagnostics == [Diagnostic(KsuidParse, None)]
        && client.sent == old(client.sent) && client.projectId == old(client.projectId)
      ensures state.Got? && ParseId(state.value.projectId).Some? ==>
        client.projectId == Some(ParseId(state.value.projectId).value)
      ensures state.Got? && ParseId(state.value.projectId).Some? && ParseId(state.value.id).None? ==>
        resp.diagnostics == [Diagnostic(KsuidParse, None)] && client.sent == old(client.sent)
      ensures state.Got? && ParseId(state.value.projectId).Some? && ParseId(state.value.id).Some? ==>
        var id := ParseId(state.value.id).value;
        && client.sent == old(client.sent)
             + Issued(client.apiKey, client.projectId, "DELETE", ["identities", "id", id], NoQuery, NoBody)
        && match Completed(client.codec, NoBody, reply)
           case Pass => resp.diagnostics == []
           case Fail(e) =>
             resp.diagnostics == if HasCode(e, UnknownIdentity) then [] else [Diagnostic("DeleteIdentity", Some(e))]
    {
      if state.GetFailed? {
        return Response(state.diagnostics, Untouched);
      }
      var parsedProject := ParseId(state.value.projectId);
      if parsedProject.None? {
        return Response([Diagnostic(KsuidParse, None)], Untouched);
      }
      client.projectId := Some(parsedProject.value);
      var parsed := ParseId(state.value.id);
      if parsed.None? {
        return Response([Diagnostic(KsuidParse, None)], Untouched);
      }
      var out := client.DeleteIdentity(parsed.value, reply);
      if out.Fail? {
        if HasCode(out.error, UnknownIdentity) {
          return Response([], Untouched);
        }
        return Response([Diagnostic("DeleteIdentity", Some(out.error))], Untouched);
      }
      resp := Response([], Untouched);
    }

    /** `ImportState`: `<project>/<identity>` seeds `project_id` and `id`;
        any other shape is refused with no attribute set. */
    method ImportState(key: string) returns (resp: ImportResponse)
      ensures ParseImportKey(key).None? ==>
        resp == ImportResponse([Diagnostic("Unexpected Import Identifier", None)], map[])
      ensures ParseImportKey(key).Some? ==>
        resp.diagnostics == []
        && resp.attributes == map["project_id" := ParseImportKey(key).value.0, "id" := ParseImportKey(key).value.1]
    {
      var idParts := Split(key, '/');
      if |idParts| != 2 || idParts[0] == "" || idParts[1] == "" {
        return ImportResponse([Diagnostic("Unexpected Import Identifier", None)], map[]);
      }
      resp := ImportResponse([], map["project_id" := idParts[0], "id" := idParts[1]]);
    }
  }

  /** The identity a Create sends carries the planned raw data but no typed
      payload, so with the as-written `MarshalJSON` the `data` field sent is
      the encoding of nil, and the planned data never reaches the server. */
  lemma CreateSendsEncodingOfNil(codec: Codec, pid: Id, plan: IdentityResourceModel)
    requires codec.identity.encodeData(NilData) == Some("null")
    requires plan.rawData != "null"
    requires Marshal(codec.identity, PlannedIdentity(NilId, pid, plan)).Success?
    requires RoundTripsAt(codec.identity, PlannedIdentity(NilId, pid, plan).(rawData := "null"))
    ensures var sent := Marshal(codec.identity, PlannedIdentity(NilId, pid, plan)).value;
      && Unmarshal(codec.identity, ZeroIdentity, sent).receiver.rawData == "null"
      && Unmarshal(codec.identity, ZeroIdentity, sent).receiver.rawData != plan.rawData
  {
    RawOnlyIdentityLosesData(codec.identity, PlannedIdentity(NilId, pid, plan));
  }
}
