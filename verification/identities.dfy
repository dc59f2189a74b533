/** The identity record of the API client (`external/evcli/identities.go`):
    its shape, its sort keys and its JSON envelope, in which the opaque
    connector payload travels as raw bytes in the `data` field. */
module EvcliIdentities {
  import opened Common
  import opened Eventline

  /** The typed connector payload (`eventline.IdentityData`, an interface
      value). `NilData` is the nil interface; `Typed` stands for a value of
      some connector-specific type, which this core never interprets. */
  datatype IdentityData = NilData | Typed(value: string)

  /** `Identity`. `data` is the typed payload, which JSON never carries
      (`json:"-"`); `rawData` is the `data` field of the JSON record. The
      timestamps are left out. */
  datatype Identity = Identity(
    id: Id,
    projectId: Option<Id>,
    name: string,
    status: string,
    errorMessage: string,
    connector: string,
    kind: string,
    data: IdentityData,
    rawData: Bytes)

  /** The zero `Identity`, which a fetched identity is decoded into. */
  const ZeroIdentity := Identity(NilId, None, "", "", "", "", "", NilData, "")

  /** The JSON library as seen by this file, left uninterpreted:
      `encodeData` is `json.Marshal` of the typed payload, `encodeRecord`
      the default encoding of every field but `data` (whose `data` field is
      `rawData`), and `decodeRecord` the default decoding into a record that
      already holds a value. */
  datatype IdentityCodec = IdentityCodec(
    encodeData: IdentityData -> Option<Bytes>,
    encodeRecord: Identity -> Option<Bytes>,
    decodeRecord: (Identity, Bytes) -> Option<Identity>)

  /** `SortKey`: "id" gives the textual identifier, "name" the name; the
      source panics on any other key, modelled here as `None`. */
  function SortKey(i: Identity, sort: string): (key: Option<string>)
    ensures key.Some? <==> sort == "id" || sort == "name"
    ensures sort == "id" ==> key == Some(i.id)
    ensures sort == "name" ==> key == Some(i.name)
  {
    match sort
    case "id" => Some(i.id)
    case "name" => Some(i.name)
    case _ => None
  }

  datatype MarshalError = CannotEncodeData | CannotEncodeRecord

  /** `MarshalJSON`: encodes a copy of the identity whose raw `data` is
      replaced by the encoding of the typed payload. */
  function Marshal(codec: IdentityCodec, i: Identity): (r: Result<Bytes, MarshalError>)
    ensures r == Failure(CannotEncodeData) <==> codec.encodeData(i.data).None?
    ensures codec.encodeData(i.data).Some? ==>
      (r.Success? <==> codec.encodeRecord(i.(rawData := codec.encodeData(i.data).value)).Some?)
    ensures r.Success? ==>
      && codec.encodeData(i.data).Some?
      && codec.encodeRecord(i.(rawData := codec.encodeData(i.data).value)) == Some(r.value)
  {
    match codec.encodeData(i.data)
    case None => Failure(CannotEncodeData)
    case Some(data) =>
      match codec.encodeRecord(i.(rawData := data))
      case None => Failure(CannotEncodeRecord)
      case Some(bytes) => Success(bytes)
  }

  /** The receiver after `UnmarshalJSON`, and whether it returned an error. */
  datatype Unmarshalled = Unmarshalled(receiver: Identity, failed: bool)

  /** `UnmarshalJSON`: decodes over a copy of the receiver and overwrites the
      receiver only on success; the typed payload is never written. */
  function Unmarshal(codec: IdentityCodec, receiver: Identity, bytes: Bytes): (r: Unmarshalled)
    ensures r.failed <==> codec.decodeRecord(receiver, bytes).None?
    ensures r.failed ==> r.receiver == receiver
    ensures r.receiver.data == receiver.data
    ensures !r.failed ==> r.receiver == codec.decodeRecord(receiver, bytes).value.(data := receiver.data)
  {
    match codec.decodeRecord(receiver, bytes)
    case None => Unmarshalled(receiver, true)
    case Some(decoded) => Unmarshalled(decoded.(data := receiver.data), false)
  }

  /** The marshalled bytes never depend on the raw data the identity held. */
  lemma MarshalIgnoresRawData(codec: IdentityCodec, i: Identity, raw: Bytes)
    ensures Marshal(codec, i.(rawData := raw)) == Marshal(codec, i)
  {
  }

  /** The default record codec is faithful at `x`: decoding its encoding
      into the zero identity gives every JSON field back (and no typed
      payload). This holds when `x`'s raw data is already compact JSON, as
      the output of `json.Marshal` is; it does not hold for every record. */
  ghost predicate RoundTripsAt(codec: IdentityCodec, x: Identity) {
    codec.encodeRecord(x).Some? ==>
      codec.decodeRecord(ZeroIdentity, codec.encodeRecord(x).value) == Some(x.(data := NilData))
  }

  /** The record `MarshalJSON` hands to the default encoder. */
  function Marshalled(codec: IdentityCodec, i: Identity): Identity
    requires codec.encodeData(i.data).Some?
  {
    i.(rawData := codec.encodeData(i.data).value)
  }

  /** What a fresh reader makes of a marshalled identity: every field, with
      the raw data replaced by the encoding of the typed payload. */
  lemma ReadBackAfterMarshal(codec: IdentityCodec, i: Identity)
    requires Marshal(codec, i).Success?
    requires RoundTripsAt(codec, Marshalled(codec, i))
    ensures Unmarshal(codec, ZeroIdentity, Marshal(codec, i).value)
         == Unmarshalled(i.(rawData := codec.encodeData(i.data).value, data := NilData), false)
  {
  }

  /** The raw data survives an encode/decode cycle exactly when it already
      was the encoding of the typed payload. */
  lemma RawDataSurvivesIff(codec: IdentityCodec, i: Identity)
    requires Marshal(codec, i).Success?
    requires RoundTripsAt(codec, Marshalled(codec, i))
    ensures Unmarshal(codec, ZeroIdentity, Marshal(codec, i).value).receiver.rawData == i.rawData
        <==> codec.encodeData(i.data) == Some(i.rawData)
  {
    ReadBackAfterMarshal(codec, i);
  }

  /** An identity that only holds raw data (no typed payload), as the
      provider builds them, is sent with `data` set to the encoding of nil,
      so whatever raw data it held does not reach the server. */
  lemma RawOnlyIdentityLosesData(codec: IdentityCodec, i: Identity)
    requires i.data == NilData && codec.encodeData(NilData) == Some("null")
    requires i.rawData != "null"
    requires Marshal(codec, i).Success?
    requires RoundTripsAt(codec, Marshalled(codec, i))
    ensures Unmarshal(codec, ZeroIdentity, Marshal(codec, i).value).receiver.rawData == "null"
    ensures Unmarshal(codec, ZeroIdentity, Marshal(codec, i).value).receiver.rawData != i.rawData
  {
    RawDataSurvivesIff(codec, i);
    ReadBackAfterMarshal(codec, i);
  }
}
