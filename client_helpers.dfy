/**
 * The `ClientHelpers` class of lib/client-helpers.js and the client-side service
 * object it decorates. Each helper is an imperative method that awaits its calls
 * one after the other through the service's `Remote`; its contract ties the result
 * and the new trace to the corresponding run of module Transfer, about which
 * module Protocol proves what the helpers promise.
 */
module Helpers {
  import opened Wrappers
  import opened Base64
  import opened Values
  import opened Transport
  import opened Transfer

  /**
   * The client side of the `s3` service: the remote it forwards calls to, the
   * `chunkSize` set by `getClientService`, and the helpers whose `upload` and
   * `download` are bound onto it.
   */
  class ClientService {
    const remote: Remote
    var chunkSize: int
    var helpers: ClientHelpers?

    constructor (remote: Remote)
      ensures this.remote == remote && chunkSize == 0 && helpers == null
    {
      this.remote := remote;
      chunkSize := 0;
      helpers := null;
    }
  }

  class ClientHelpers {
    const service: ClientService
    const proxy: bool

    constructor (service: ClientService, useProxy: bool)
      ensures this.service == service && proxy == useProxy
    {
      this.service := service;
      proxy := useProxy;
    }

    /** `upload` (lib/client-helpers.js:33-40). */
    method Upload(id: Value, blob: Option<Blob>, options: Obj) returns (r: Result<Obj, Failure>)
      requires service.chunkSize > 0
      modifies service.remote
      ensures Outcome(r, service.remote.trace)
           == UploadRun(service.remote.env, proxy, old(service.remote.trace), id, blob, options, service.chunkSize)
    {
      if blob.None? {
        return Err(TypeError("size"));
      }
      if |blob.value.bytes| > service.chunkSize {
        r := MultipartUpload(id, blob, options);
      } else {
        r := SinglepartUpload("PutObject", id, blob, options);
      }
    }

    /** `multipartUpload` (lib/client-helpers.js:42-77): initiate, the part loop, complete. */
    method MultipartUpload(id: Value, blob: Option<Blob>, options: Obj) returns (r: Result<Obj, Failure>)
      requires service.chunkSize > 0
      modifies service.remote
      ensures Outcome(r, service.remote.trace)
           == MultipartRun(service.remote.env, proxy, old(service.remote.trace), id, blob, options, service.chunkSize)
    {
      if !Truthy(id) {
        return Err(CallerError("id"));
      }
      if blob.None? {
        return Err(CallerError("blob"));
      }
      if blob.value.mime == "" {
        return Err(CallerError("blob.type"));
      }
      var remote := service.remote;
      var created := remote.Send(InitiateCall(id, blob.value));
      if created.Err? {
        return Err(created.error);
      }
      var uploadId := Prop(created.value, "UploadId");
      var parts := UploadParts(id, blob.value, options, uploadId);
      if parts.Err? {
        return Err(parts.error);
      }
      r := remote.Send(CompleteCall(id, uploadId, parts.value));
    }

    /**
     * The part loop of `multipartUpload` (lib/client-helpers.js:49-73): the running
     * offset, the part counter and the list of recorded parts.
     */
    method UploadParts(id: Value, blob: Blob, options: Obj, uploadId: Value) returns (r: Result<seq<Part>, Failure>)
      requires service.chunkSize > 0
      modifies service.remote
      ensures Outcome(r, service.remote.trace)
           == PartsRun(service.remote.env, proxy, old(service.remote.trace), id, blob, options, uploadId, service.chunkSize, 0, 0, [])
    {
      var remote := service.remote;
      var chunkSize: nat := service.chunkSize;
      var size := |blob.bytes|;
      var offset: nat := 0;
      var number: nat := 0;
      var parts: seq<Part> := [];
      ghost var run := PartsRun(remote.env, proxy, remote.trace, id, blob, options, uploadId, chunkSize, offset, number, parts);
      while offset < size
        invariant offset <= size
        invariant PartsRun(remote.env, proxy, remote.trace, id, blob, options, uploadId, chunkSize, offset, number, parts) == run
        decreases size - offset
      {
        ghost var before := remote.trace;
        ghost var previous := offset;
        ghost var count := number;
        number := number + 1;
        // a whole chunk when one still fits, otherwise the rest of the blob
        var next := if offset + chunkSize <= size then offset + chunkSize else size;
        var chunk := Blob(blob.bytes[offset..next], blob.mime);
        offset := next;
        var part := SinglepartUpload("UploadPart", id, Some(chunk), PartOptions(options, uploadId, number));
        if part.Err? {
          PartsRunFails(remote.env, proxy, before, id, blob, options, uploadId, chunkSize, previous, count, parts,
                        next, number, Outcome(part, remote.trace));
          return Err(part.error);
        }
        PartsRunContinues(remote.env, proxy, before, id, blob, options, uploadId, chunkSize, previous, count, parts,
                          next, number, Outcome(part, remote.trace), parts + [Part(number, Prop(part.value, "ETag"))]);
        parts := parts + [Part(number, Prop(part.value, "ETag"))];
      }
      r := Ok(parts);
    }

    /** `singlepartUpload` (lib/client-helpers.js:79-110): relayed as base64 text, or PUT to a presigned URL. */
    method SinglepartUpload(command: string, id: Value, blob: Option<Blob>, options: Obj) returns (r: Result<Obj, Failure>)
      modifies service.remote
      ensures Outcome(r, service.remote.trace)
           == SinglepartRun(service.remote.env, proxy, old(service.remote.trace), command, id, blob, options)
    {
      if command == "" {
        return Err(CallerError("command"));
      }
      if !Truthy(id) {
        return Err(CallerError("id"));
      }
      if blob.None? {
        return Err(CallerError("blob"));
      }
      if blob.value.mime == "" {
        return Err(CallerError("blob.type"));
      }
      var remote := service.remote;
      if proxy {
        var buffer := Base64Encode(blob.value.bytes);
        var data := map["id" := id, "buffer" := Str(buffer), "type" := Str(blob.value.mime)] + options;
        r := remote.Send(Invoke(RelayMethod(command), data));
        return;
      }
      var created := remote.Send(Invoke(Create, map["command" := Str(command), "id" := id] + options));
      if created.Err? {
        return Err(created.error);
      }
      var bytes := blob.value.bytes;
      var response := remote.Request(Fetch(Prop(created.value, "SignedUrl"), PutRequest(bytes, |bytes|, blob.value.mime)));
      if response.Err? {
        return Err(response.error);
      }
      var etag := FirstHeader(response.value, "etag");
      if etag.Err? {
        return Err(etag.error);
      }
      r := Ok(map["ETag" := etag.value]);
    }

    /** `download` (lib/client-helpers.js:112-133): relayed and decoded, or fetched from a presigned URL. */
    method Download(id: Value, options: Obj) returns (r: Result<Obj, Failure>)
      modifies service.remote
      ensures Outcome(r, service.remote.trace)
           == DownloadRun(service.remote.env, proxy, old(service.remote.trace), id, options)
    {
      if !Truthy(id) {
        return Err(CallerError("id"));
      }
      var remote := service.remote;
      if proxy {
        var response := remote.Send(GetById(id));
        if response.Err? {
          return Err(response.error);
        }
        var bytes := Base64Decode(Show(Prop(response.value, "buffer")));
        if bytes.None? {
          return Err(InvalidCharacter);
        }
        return Ok(response.value["buffer" := Bin(bytes.value)]);
      }
      var created := remote.Send(Invoke(Create, map["id" := id, "command" := Str("GetObject")] + options));
      if created.Err? {
        return Err(created.error);
      }
      var response := remote.Request(Fetch(Prop(created.value, "SignedUrl"), GetRequest));
      if response.Err? {
        return Err(response.error);
      }
      var mime := FirstHeader(response.value, "content-type");
      if mime.Err? {
        return Err(mime.error);
      }
      r := Ok(map["buffer" := Bin(response.value.body), "type" := mime.value]);
    }
  }
}
