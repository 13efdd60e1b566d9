/**
 * The client helpers of lib/client-helpers.js meet the service of lib/service.js:
 * what the helpers send is what the service's checks accept, and it addresses the
 * object the caller named, with the bytes and the content type of the blob.
 */
module Relay {
  import opened Wrappers
  import opened Base64
  import opened Values
  import opened Transport
  import opened Transfer
  import opened S3Service
  import opened Protocol

  /** The text a blob is relayed as is empty exactly when the blob is. */
  lemma EncodedEmpty(bytes: seq<byte>)
    ensures Encode(bytes) == "" <==> bytes == []
  {
    NodeRoundTrip(bytes);
    if bytes == [] {
      assert EncodeBare(bytes) == [];
    }
  }

  /**
   * A relayed single-part upload (lib/client-helpers.js:86-93) processed by
   * `putObject` or, for a part, by `uploadPart` (lib/service.js:177-215): a
   * non-empty blob is stored under the key of its id, with its own bytes as the
   * body and its type as the content type; an empty blob is refused, since its
   * base64 text is the empty string, which the service takes for a missing buffer.
   */
  lemma RelayedUpload(s: Service, id: Value, blob: Blob, options: Obj, part: bool)
    requires Truthy(id) && blob.mime != ""
    requires "id" !in options && "buffer" !in options && "type" !in options
    requires part ==> Truthy(Prop(options, "UploadId")) && Truthy(Prop(options, "PartNumber"))
    ensures blob.bytes == [] ==> s.StoreParams(RelayData(id, blob, options), part) == Err(BadRequest("data.buffer"))
    ensures blob.bytes != [] ==> s.StoreParams(RelayData(id, blob, options), part).Ok?
    ensures blob.bytes != [] ==>
      var input := s.StoreParams(RelayData(id, blob, options), part).value;
      && input["Key"] == s.GetKey(id) && input["Bucket"] == Str(s.bucket)
      && input["Body"] == Bin(blob.bytes) && input["ContentType"] == Str(blob.mime)
  {
    var data := RelayData(id, blob, options);
    assert data["id"] == id && data["type"] == Str(blob.mime);
    EncodedEmpty(blob.bytes);
    NodeRoundTrip(blob.bytes);
  }

  /**
   * A relayed part of a multipart upload (lib/client-helpers.js:59-60) with a
   * session id and a part number from 1 on is accepted by `uploadPart`, and
   * reaches `UploadPart` with the session id and the part number the client gave it.
   */
  lemma RelayedPart(s: Service, id: Value, blob: Blob, options: Obj, uploadId: Value, number: nat)
    requires Truthy(id) && blob.mime != "" && blob.bytes != []
    requires "id" !in options && "buffer" !in options && "type" !in options
    requires Truthy(uploadId) && number >= 1
    ensures s.StoreParams(RelayData(id, blob, PartOptions(options, uploadId, number)), true).Ok?
    ensures var input := s.StoreParams(RelayData(id, blob, PartOptions(options, uploadId, number)), true).value;
      && "UploadId" in input && input["UploadId"] == uploadId
      && "PartNumber" in input && input["PartNumber"] == Num(number)
  {
    var opts := PartOptions(options, uploadId, number);
    var data := RelayData(id, blob, opts);
    assert Prop(opts, "UploadId") == uploadId && Prop(opts, "PartNumber") == Num(number);
    RelayedUpload(s, id, blob, opts, true);
    var input := s.StoreParams(data, true).value;
    assert "id" in data && "type" in data;
    var body := Body(Prop(data, "buffer")).value;
    assert input == s.StoreInput(data, body);
    assert data["UploadId"] == uploadId && data["PartNumber"] == Num(number);
    s.StoreKeeps(data, body, "UploadId");
    s.StoreKeeps(data, body, "PartNumber");
  }

  /**
   * The presign request of a direct transfer (lib/client-helpers.js:96 and 126) is
   * accepted by `create` (lib/service.js:79-106) for the command it names, on the
   * key of its id; `UploadPart` also needs the session id and part number among
   * the options, which the part loop always sets.
   */
  lemma PresignedCommand(s: Service, command: string, id: Value, options: Obj)
    requires Truthy(id) && "id" !in options && "command" !in options
    requires command in {"PutObject", "GetObject", "UploadPart"}
    requires command == "UploadPart" ==> Truthy(Prop(options, "UploadId")) && Truthy(Prop(options, "PartNumber"))
    ensures s.CreateCommand(map["command" := Str(command), "id" := id] + options).Ok?
    ensures
      var c := s.CreateCommand(map["command" := Str(command), "id" := id] + options).value;
      && c.kind == (if command == "PutObject" then CommandKind.PutObject else if command == "GetObject" then GetObject else CommandKind.UploadPart)
      && c.input["Key"] == s.GetKey(id) && c.input["Bucket"] == Str(s.bucket)
  {
    var data := map["command" := Str(command), "id" := id] + options;
    assert data["command"] == Str(command) && data["id"] == id;
  }

  /** The download's presign request names `GetObject` and is accepted as such. */
  lemma PresignedDownload(s: Service, id: Value, options: Obj)
    requires Truthy(id) && "id" !in options && "command" !in options
    ensures s.CreateCommand(map["id" := id, "command" := Str("GetObject")] + options).Ok?
    ensures s.CreateCommand(map["id" := id, "command" := Str("GetObject")] + options).value
         == Command(GetObject, s.CreateCommand(map["id" := id, "command" := Str("GetObject")] + options).value.input)
    ensures s.CreateCommand(map["id" := id, "command" := Str("GetObject")] + options).value.input["Key"] == s.GetKey(id)
  {
    assert map["id" := id, "command" := Str("GetObject")] == map["command" := Str("GetObject"), "id" := id];
    PresignedCommand(s, "GetObject", id, options);
  }

  /**
   * The initiate call of `multipartUpload` (lib/client-helpers.js:53) passes the
   * checks of `createMultipartUpload` and asks for the key of its id and the type
   * of its blob.
   */
  lemma InitiateAccepted(s: Service, id: Value, blob: Blob)
    requires Truthy(id) && blob.mime != ""
    ensures s.InitiateParams(InitiateCall(id, blob).data).Ok?
    ensures
      var input := s.InitiateParams(InitiateCall(id, blob).data).value;
      input["Key"] == s.GetKey(id) && input["ContentType"] == Str(blob.mime)
  {
    var data := InitiateCall(id, blob).data;
    assert data["id"] == id && data["type"] == Str(blob.mime);
  }

  /**
   * The complete call of `multipartUpload` (lib/client-helpers.js:76) passes the
   * checks of `completeMultipartUpload` exactly when the session id the service
   * answered is set, and hands over the recorded parts unchanged.
   */
  lemma CompleteAccepted(s: Service, id: Value, uploadId: Value, parts: seq<Part>)
    requires Truthy(id)
    ensures s.CompleteParams(CompleteCall(id, uploadId, parts).data).Ok? <==> Truthy(uploadId)
    ensures Truthy(uploadId) ==>
      var input := s.CompleteParams(CompleteCall(id, uploadId, parts).data).value;
      input["Key"] == s.GetKey(id) && input["MultipartUpload"] == Object(map["Parts" := PartList(parts)])
  {
    var data := CompleteCall(id, uploadId, parts).data;
    assert data["id"] == id && data["UploadId"] == uploadId && data["parts"] == PartList(parts);
    assert "uploadId" !in data;
  }

  /**
   * A relayed download (lib/client-helpers.js:116-120) answered by `get`
   * (lib/service.js:111-126) hands back the UTF-8 encoding of the text the
   * service read from S3; the bytes of the object come back unchanged only when
   * that text is their UTF-8 decoding.
   */
  lemma ServedDownload(s: Service, env: Env, trace: seq<Call>, id: Value, options: Obj, text: string, contentType: Value)
    requires Truthy(id)
    requires env.service(trace, GetById(id)) == Ok(s.GetResult(id, text, contentType))
    ensures DownloadRun(env, true, trace, id, options).result.Ok?
    ensures DownloadRun(env, true, trace, id, options).result.value["buffer"] == Bin(Utf8(text))
  {
    var reply := s.GetResult(id, text, contentType);
    DownloadRelayed(env, trace, id, options, reply, Utf8(text));
  }

  /**
   * So an object made of the single byte 0xFF never comes back intact from a
   * relayed download, whatever text S3 reads it as.
   */
  lemma RelayedDownloadLossy(s: Service, env: Env, trace: seq<Call>, id: Value, options: Obj, text: string, contentType: Value)
    requires Truthy(id)
    requires env.service(trace, GetById(id)) == Ok(s.GetResult(id, text, contentType))
    ensures DownloadRun(env, true, trace, id, options).result.Ok?
    ensures DownloadRun(env, true, trace, id, options).result.value["buffer"] != Bin([0xFF])
  {
    ServedDownload(s, env, trace, id, options, text, contentType);
    Utf8NeverLoneHighByte(text);
  }

  /**
   * With `get` encoding the bytes of the object, a relayed download hands back
   * exactly those bytes, whatever they are.
   */
  lemma ExactDownload(s: Service, env: Env, trace: seq<Call>, id: Value, options: Obj, bytes: seq<byte>, contentType: Value)
    requires Truthy(id)
    requires env.service(trace, GetById(id)) == Ok(s.ExactGetResult(id, bytes, contentType))
    ensures DownloadRun(env, true, trace, id, options).result.Ok?
    ensures DownloadRun(env, true, trace, id, options).result.value["buffer"] == Bin(bytes)
  {
    DownloadRelayed(env, trace, id, options, s.ExactGetResult(id, bytes, contentType), bytes);
  }
}
