/**
 * What the transfer helpers of lib/client-helpers.js do, as functions from the
 * arguments, the collaborators' answers and the calls made so far to the result
 * and the extended trace. The imperative methods of `ClientHelpers` are proved
 * equal to these functions; the lemmas here state what the helpers promise.
 */
module Transfer {
  import opened Wrappers
  import opened Base64
  import opened Values
  import opened Chunker
  import opened Transport

  /** A browser `Blob`: its bytes and its MIME type ("" when it has none). */
  datatype Blob = Blob(bytes: seq<byte>, mime: string)

  /** The argument checks of `singlepartUpload` (lib/client-helpers.js:81-84). */
  predicate SinglepartArgsOk(command: string, id: Value, blob: Option<Blob>) {
    command != "" && Truthy(id) && blob.Some? && blob.value.mime != ""
  }

  /** The argument checks of `multipartUpload` (lib/client-helpers.js:44-46). */
  predicate MultipartArgsOk(id: Value, blob: Option<Blob>) {
    Truthy(id) && blob.Some? && blob.value.mime != ""
  }

  /** `headers.raw()[name][0]`: a missing header list is a TypeError, an empty one reads `undefined`. */
  function FirstHeader(response: HttpResponse, name: string): (r: Result<Value, Failure>)
    ensures r.Err? <==> name !in response.headers
    ensures r.Ok? && response.headers[name] != [] ==> r.value == Str(response.headers[name][0])
    ensures r.Ok? && response.headers[name] == [] ==> r.value == Undefined
  {
    if name !in response.headers then Err(TypeError(name))
    else if response.headers[name] == [] then Ok(Undefined)
    else Ok(Str(response.headers[name][0]))
  }

  /** The data relayed to `uploadPart`/`putObject`: the blob as base64 text and its type. */
  function RelayData(id: Value, blob: Blob, options: Obj): (data: Obj)
    ensures data.Keys == options.Keys + {"id", "buffer", "type"}
    ensures "id" !in options ==> data["id"] == id
    ensures "buffer" !in options ==> data["buffer"] == Str(Encode(blob.bytes))
    ensures "type" !in options ==> data["type"] == Str(blob.mime)
    ensures forall k :: k in options ==> data[k] == options[k]
  {
    map["id" := id, "buffer" := Str(Encode(blob.bytes)), "type" := Str(blob.mime)] + options
  }

  /** The service method a relayed single-part upload goes to. */
  function RelayMethod(command: string): (m: ServiceMethod)
    ensures m == UploadPart || m == PutObject
    ensures m == UploadPart <==> command == "UploadPart"
  {
    if command == "UploadPart" then UploadPart else PutObject
  }

  function Fail<T>(e: Failure, trace: seq<Call>): Outcome<T> {
    Outcome(Err(e), trace)
  }

  /**
   * `singlepartUpload(command, id, blob, options)` (lib/client-helpers.js:79-110).
   * A missing argument is a caller error raised before any call; otherwise the
   * blob is relayed through the service, or PUT to a presigned URL.
   */
  function SinglepartRun(env: Env, proxy: bool, trace: seq<Call>, command: string, id: Value,
                         blob: Option<Blob>, options: Obj): (o: Outcome<Obj>)
    ensures trace <= o.trace
    ensures (o.result.Err? && o.result.error.CallerError?) <==> !SinglepartArgsOk(command, id, blob)
    ensures !SinglepartArgsOk(command, id, blob) ==> o.trace == trace
    ensures SinglepartArgsOk(command, id, blob) && proxy ==>
      o.trace == trace + [Invoke(RelayMethod(command), RelayData(id, blob.value, options))]
    ensures SinglepartArgsOk(command, id, blob) && !proxy ==>
      |o.trace| > |trace| && o.trace[|trace|] == Invoke(Create, map["command" := Str(command), "id" := id] + options)
  {
    if command == "" then Fail(CallerError("command"), trace)
    else if !Truthy(id) then Fail(CallerError("id"), trace)
    else if blob.None? then Fail(CallerError("blob"), trace)
    else if blob.value.mime == "" then Fail(CallerError("blob.type"), trace)
    else if proxy then
      ServiceCall(env, trace, Invoke(RelayMethod(command), RelayData(id, blob.value, options)))
    else
      var created := ServiceCall(env, trace, Invoke(Create, map["command" := Str(command), "id" := id] + options));
      if created.result.Err? then Fail(created.result.error, created.trace)
      else
        var bytes := blob.value.bytes;
        var put := FetchCall(env, created.trace,
                             Fetch(Prop(created.result.value, "SignedUrl"), PutRequest(bytes, |bytes|, blob.value.mime)));
        if put.result.Err? then Fail(put.result.error, put.trace)
        else
          match FirstHeader(put.result.value, "etag")
          case Err(e) => Fail(e, put.trace)
          case Ok(etag) => Outcome(Ok(map["ETag" := etag]), put.trace)
  }

  /** A relayed single-part upload answers with the service's reply to the relayed call. */
  lemma SinglepartRelayed(env: Env, trace: seq<Call>, command: string, id: Value, blob: Blob, options: Obj,
                          o: Outcome<Obj>)
    requires SinglepartArgsOk(command, id, Some(blob))
    requires o == SinglepartRun(env, true, trace, command, id, Some(blob), options)
    ensures var reply := env.service(trace, Invoke(RelayMethod(command), RelayData(id, blob, options)));
      && (o.result.Ok? <==> reply.Ok?)
      && (o.result.Ok? ==> o.result.value == reply.value)
      && (o.result.Err? ==> o.result.error == Thrown(reply.error))
  {
  }

  /**
   * A direct single-part upload (lib/client-helpers.js:96-109): a failed presign
   * ends it; otherwise the blob's bytes are PUT to the `SignedUrl` the presign
   * answered, with the blob's size as Content-Length and its type as Content-Type,
   * and the answer is `{ETag}` read from the response's first `etag` header.
   */
  lemma SinglepartPresigned(env: Env, trace: seq<Call>, command: string, id: Value, blob: Blob, options: Obj,
                            o: Outcome<Obj>)
    requires SinglepartArgsOk(command, id, Some(blob))
    requires o == SinglepartRun(env, false, trace, command, id, Some(blob), options)
    ensures var presign := Invoke(Create, map["command" := Str(command), "id" := id] + options);
      var signed := env.service(trace, presign);
      signed.Err? ==> o == Fail(Thrown(signed.error), trace + [presign])
    ensures var presign := Invoke(Create, map["command" := Str(command), "id" := id] + options);
      var signed := env.service(trace, presign);
      signed.Ok? ==>
        var put := Fetch(Prop(signed.value, "SignedUrl"), PutRequest(blob.bytes, |blob.bytes|, blob.mime));
        var response := env.fetch(trace + [presign], put);
        && o.trace == trace + [presign, put]
        && (o.result.Ok? <==> response.Ok? && "etag" in response.value.headers)
        && (o.result.Ok? ==> o.result.value == map["ETag" := FirstHeader(response.value, "etag").value])
  {
  }

  /** The end of the part that starts at `offset` (lib/client-helpers.js:59-65). */
  function NextOffset(offset: nat, size: nat, chunkSize: nat): (next: nat)
    requires offset < size && chunkSize > 0
    ensures offset < next <= size && next - offset <= chunkSize
    ensures next < size ==> next - offset == chunkSize
  {
    if offset + chunkSize <= size then offset + chunkSize else size
  }

  /** The options of the part numbered `number`: the caller's, plus the session and the number. */
  function PartOptions(options: Obj, uploadId: Value, number: nat): (opts: Obj)
    ensures opts.Keys == options.Keys + {"UploadId", "PartNumber"}
    ensures opts["UploadId"] == uploadId && opts["PartNumber"] == Num(number)
    ensures forall k :: k in options && k != "UploadId" && k != "PartNumber" ==> opts[k] == options[k]
  {
    options + map["UploadId" := uploadId, "PartNumber" := Num(number)]
  }

  /**
   * The part loop of `multipartUpload` (lib/client-helpers.js:56-73) from `offset`
   * on, after `number` parts were uploaded and recorded in `parts`. On success the
   * new records carry the next part numbers in order; the first failing part
   * stops the loop and its error propagates.
   */
  function PartsRun(env: Env, proxy: bool, trace: seq<Call>, id: Value, blob: Blob, options: Obj,
                    uploadId: Value, chunkSize: nat, offset: nat, number: nat, parts: seq<Part>): (o: Outcome<seq<Part>>)
    requires chunkSize > 0
    ensures trace <= o.trace
    ensures Truthy(id) && blob.mime != "" && o.result.Err? ==> !o.result.error.CallerError?
    decreases |blob.bytes| - offset
  {
    if offset >= |blob.bytes| then Outcome(Ok(parts), trace)
    else
      var next := NextOffset(offset, |blob.bytes|, chunkSize);
      var part := SinglepartRun(env, proxy, trace, "UploadPart", id, Some(Blob(blob.bytes[offset..next], blob.mime)),
                                PartOptions(options, uploadId, number + 1));
      if part.result.Err? then Fail(part.result.error, part.trace)
      else
        PartsRun(env, proxy, part.trace, id, blob, options, uploadId, chunkSize, next, number + 1,
                 parts + [Part(number + 1, Prop(part.result.value, "ETag"))])
  }

  /**
   * A successful part loop keeps the parts recorded before it and appends one
   * record per slice, numbered on from `number` in order.
   */
  lemma {:induction false} PartsRecorded(env: Env, proxy: bool, trace: seq<Call>, id: Value, blob: Blob, options: Obj,
                                         uploadId: Value, chunkSize: nat, offset: nat, number: nat, parts: seq<Part>,
                                         o: Outcome<seq<Part>>)
    requires chunkSize > 0
    requires o == PartsRun(env, proxy, trace, id, blob, options, uploadId, chunkSize, offset, number, parts)
    requires o.result.Ok?
    ensures parts <= o.result.value
    ensures |o.result.value| == |parts| + |SlicesFrom(offset, |blob.bytes|, chunkSize)|
    ensures forall k :: |parts| <= k < |o.result.value| ==> o.result.value[k].number == number + 1 + k - |parts|
    decreases |blob.bytes| - offset
  {
    if offset < |blob.bytes| {
      var next := NextOffset(offset, |blob.bytes|, chunkSize);
      var part := SinglepartRun(env, proxy, trace, "UploadPart", id, Some(Blob(blob.bytes[offset..next], blob.mime)),
                                PartOptions(options, uploadId, number + 1));
      var parts' := parts + [Part(number + 1, Prop(part.result.value, "ETag"))];
      PartsRecorded(env, proxy, part.trace, id, blob, options, uploadId, chunkSize, next, number + 1, parts', o);
    }
  }

  /** A turn of the part loop whose part fails ends the loop with that part's error. */
  lemma PartsRunFails(env: Env, proxy: bool, trace: seq<Call>, id: Value, blob: Blob, options: Obj,
                      uploadId: Value, chunkSize: nat, offset: nat, number: nat, parts: seq<Part>,
                      next: nat, partNumber: nat, part: Outcome<Obj>)
    requires chunkSize > 0 && offset < |blob.bytes|
    requires next == NextOffset(offset, |blob.bytes|, chunkSize) && partNumber == number + 1
    requires part == SinglepartRun(env, proxy, trace, "UploadPart", id, Some(Blob(blob.bytes[offset..next], blob.mime)),
                                   PartOptions(options, uploadId, partNumber))
    requires part.result.Err?
    ensures PartsRun(env, proxy, trace, id, blob, options, uploadId, chunkSize, offset, number, parts)
         == Fail(part.result.error, part.trace)
  {
    var slice := Blob(blob.bytes[offset..next], blob.mime);
    assert part == SinglepartRun(env, proxy, trace, "UploadPart", id, Some(slice), PartOptions(options, uploadId, number + 1));
  }

  /**
   * A turn of the part loop whose part succeeds records it, with its number and
   * ETag, and goes on from the end of its slice.
   */
  lemma PartsRunContinues(env: Env, proxy: bool, trace: seq<Call>, id: Value, blob: Blob, options: Obj,
                          uploadId: Value, chunkSize: nat, offset: nat, number: nat, parts: seq<Part>,
                          next: nat, partNumber: nat, part: Outcome<Obj>, recorded: seq<Part>)
    requires chunkSize > 0 && offset < |blob.bytes|
    requires next == NextOffset(offset, |blob.bytes|, chunkSize) && partNumber == number + 1
    requires part == SinglepartRun(env, proxy, trace, "UploadPart", id, Some(Blob(blob.bytes[offset..next], blob.mime)),
                                   PartOptions(options, uploadId, partNumber))
    requires part.result.Ok? && recorded == parts + [Part(partNumber, Prop(part.result.value, "ETag"))]
    ensures PartsRun(env, proxy, trace, id, blob, options, uploadId, chunkSize, offset, number, parts)
         == PartsRun(env, proxy, part.trace, id, blob, options, uploadId, chunkSize, next, partNumber, recorded)
  {
    var slice := Blob(blob.bytes[offset..next], blob.mime);
    assert part == SinglepartRun(env, proxy, trace, "UploadPart", id, Some(slice), PartOptions(options, uploadId, number + 1));
  }

  /** The call that initiates a multipart upload (lib/client-helpers.js:53). */
  function InitiateCall(id: Value, blob: Blob): (c: Call)
    ensures c.Invoke? && c.op == CreateMultipartUpload && c.data.Keys == {"id", "type"}
    ensures c.data["id"] == id && c.data["type"] == Str(blob.mime)
  {
    Invoke(CreateMultipartUpload, map["id" := id, "type" := Str(blob.mime)])
  }

  /** The call that completes a multipart upload (lib/client-helpers.js:76). */
  function CompleteCall(id: Value, uploadId: Value, parts: seq<Part>): (c: Call)
    ensures c.Invoke? && c.op == CompleteMultipartUpload && c.data.Keys == {"id", "UploadId", "parts"}
    ensures c.data["id"] == id && c.data["UploadId"] == uploadId && c.data["parts"] == PartList(parts)
  {
    Invoke(CompleteMultipartUpload, map["id" := id, "UploadId" := uploadId, "parts" := PartList(parts)])
  }

  /**
   * What `multipartUpload` does once the session is initiated: the part loop,
   * then the complete call with the recorded parts (lib/client-helpers.js:56-76).
   */
  function FinishRun(env: Env, proxy: bool, trace: seq<Call>, id: Value, blob: Blob, options: Obj,
                     uploadId: Value, chunkSize: nat): (o: Outcome<Obj>)
    requires chunkSize > 0
    ensures trace <= o.trace
    ensures Truthy(id) && blob.mime != "" && o.result.Err? ==> !o.result.error.CallerError?
  {
    var uploaded := PartsRun(env, proxy, trace, id, blob, options, uploadId, chunkSize, 0, 0, []);
    if uploaded.result.Err? then Fail(uploaded.result.error, uploaded.trace)
    else ServiceCall(env, uploaded.trace, CompleteCall(id, uploadId, uploaded.result.value))
  }

  /** `multipartUpload(id, blob, options)` (lib/client-helpers.js:42-77). */
  function MultipartRun(env: Env, proxy: bool, trace: seq<Call>, id: Value, blob: Option<Blob>,
                        options: Obj, chunkSize: nat): (o: Outcome<Obj>)
    requires chunkSize > 0
    ensures trace <= o.trace
    ensures (o.result.Err? && o.result.error.CallerError?) <==> !MultipartArgsOk(id, blob)
    ensures !MultipartArgsOk(id, blob) ==> o.trace == trace
    ensures MultipartArgsOk(id, blob) ==> |o.trace| > |trace| && o.trace[|trace|] == InitiateCall(id, blob.value)
  {
    if !Truthy(id) then Fail(CallerError("id"), trace)
    else if blob.None? then Fail(CallerError("blob"), trace)
    else if blob.value.mime == "" then Fail(CallerError("blob.type"), trace)
    else
      var created := ServiceCall(env, trace, InitiateCall(id, blob.value));
      if created.result.Err? then Fail(created.result.error, created.trace)
      else FinishRun(env, proxy, created.trace, id, blob.value, options, Prop(created.result.value, "UploadId"), chunkSize)
  }

  /** Once the session is initiated, a multipart upload goes on as `FinishRun` with the session id. */
  lemma MultipartRunInitiated(env: Env, proxy: bool, trace: seq<Call>, id: Value, blob: Blob, options: Obj,
                              chunkSize: nat, created: Outcome<Obj>)
    requires chunkSize > 0 && MultipartArgsOk(id, Some(blob))
    requires created == ServiceCall(env, trace, InitiateCall(id, blob)) && created.result.Ok?
    ensures MultipartRun(env, proxy, trace, id, Some(blob), options, chunkSize)
         == FinishRun(env, proxy, created.trace, id, blob, options, Prop(created.result.value, "UploadId"), chunkSize)
  {
  }

  /**
   * `upload(id, blob, options)` (lib/client-helpers.js:33-40): multipart when the
   * blob is larger than one chunk, otherwise a single `PutObject`.
   */
  function UploadRun(env: Env, proxy: bool, trace: seq<Call>, id: Value, blob: Option<Blob>,
                     options: Obj, chunkSize: nat): (o: Outcome<Obj>)
    requires chunkSize > 0
    ensures trace <= o.trace
    ensures blob.None? ==> o == Fail(TypeError("size"), trace)
    ensures blob.Some? ==> ((o.result.Err? && o.result.error.CallerError?) <==> !MultipartArgsOk(id, blob))
    ensures blob.Some? && !MultipartArgsOk(id, blob) ==> o.trace == trace
  {
    if blob.None? then Fail(TypeError("size"), trace)
    else if |blob.value.bytes| > chunkSize then MultipartRun(env, proxy, trace, id, blob, options, chunkSize)
    else SinglepartRun(env, proxy, trace, "PutObject", id, blob, options)
  }

  /** `download(id, options)` (lib/client-helpers.js:112-133). */
  function DownloadRun(env: Env, proxy: bool, trace: seq<Call>, id: Value, options: Obj): (o: Outcome<Obj>)
    ensures trace <= o.trace
    ensures (o.result.Err? && o.result.error.CallerError?) <==> !Truthy(id)
    ensures !Truthy(id) ==> o.trace == trace
    ensures Truthy(id) && proxy ==> o.trace == trace + [GetById(id)]
    ensures Truthy(id) && !proxy ==>
      |o.trace| > |trace| && o.trace[|trace|] == Invoke(Create, map["id" := id, "command" := Str("GetObject")] + options)
    ensures Truthy(id) && proxy ==>
      var got := env.service(trace, GetById(id));
      && (o.result.Ok? <==> got.Ok? && Base64Decode(Show(Prop(got.value, "buffer"))).Some?)
      && (o.result.Ok? ==>
            o.result.value == got.value["buffer" := Bin(Base64Decode(Show(Prop(got.value, "buffer"))).value)])
    ensures Truthy(id) && !proxy ==>
      var presign := Invoke(Create, map["id" := id, "command" := Str("GetObject")] + options);
      var signed := env.service(trace, presign);
      && (signed.Err? ==> o == Fail(Thrown(signed.error), trace + [presign]))
      && (signed.Ok? ==>
            var get := Fetch(Prop(signed.value, "SignedUrl"), GetRequest);
            var response := env.fetch(trace + [presign], get);
            && o.trace == trace + [presign, get]
            && (o.result.Ok? <==> response.Ok? && "content-type" in response.value.headers)
            && (o.result.Ok? ==>
                  o.result.value == map["buffer" := Bin(response.value.body),
                                        "type" := FirstHeader(response.value, "content-type").value]))
  {
    if !Truthy(id) then Fail(CallerError("id"), trace)
    else if proxy then
      var got := ServiceCall(env, trace, GetById(id));
      if got.result.Err? then Fail(got.result.error, got.trace)
      else
        match Base64Decode(Show(Prop(got.result.value, "buffer")))
        case None => Fail(InvalidCharacter, got.trace)
        case Some(bytes) => Outcome(Ok(got.result.value["buffer" := Bin(bytes)]), got.trace)
    else
      var created := ServiceCall(env, trace, Invoke(Create, map["id" := id, "command" := Str("GetObject")] + options));
      if created.result.Err? then Fail(created.result.error, created.trace)
      else
        var fetched := FetchCall(env, created.trace, Fetch(Prop(created.result.value, "SignedUrl"), GetRequest));
        if fetched.result.Err? then Fail(fetched.result.error, fetched.trace)
        else
          match FirstHeader(fetched.result.value, "content-type")
          case Err(e) => Fail(e, fetched.trace)
          case Ok(mime) => Outcome(Ok(map["buffer" := Bin(fetched.result.value.body), "type" := mime]), fetched.trace)
  }
}
