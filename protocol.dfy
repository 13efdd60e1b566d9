/**
 * What the transfer helpers promise about the calls they make: the S3
 * multipart-upload protocol (initiate once, upload the parts, complete once and
 * last), the numbering of the parts, the bytes handed over for storage, and the
 * choice between single-part and multipart uploads.
 */
module Protocol {
  import opened Wrappers
  import opened Base64
  import opened Values
  import opened Chunker
  import opened Transport
  import opened Transfer

  /** `f` applied to every call of `t`, in order, concatenated. */
  function Collect<U>(t: seq<Call>, f: Call -> seq<U>): seq<U> {
    if t == [] then [] else Collect(t[..|t| - 1], f) + f(t[|t| - 1])
  }

  lemma {:induction false} CollectAppend<U>(t: seq<Call>, u: seq<Call>, f: Call -> seq<U>)
    ensures Collect(t + u, f) == Collect(t, f) + Collect(u, f)
    decreases |u|
  {
    if u == [] {
      assert t + u == t;
    } else {
      var init := u[..|u| - 1];
      assert (t + u)[..|t + u| - 1] == t + init;
      assert (t + u)[|t + u| - 1] == u[|u| - 1];
      CollectAppend(t, init, f);
    }
  }

  lemma CollectOne<U>(c: Call, f: Call -> seq<U>)
    ensures Collect([c], f) == f(c)
  {
    assert [c][..0] == [];
  }

  lemma CollectTwo<U>(c: Call, d: Call, f: Call -> seq<U>)
    ensures Collect([c, d], f) == f(c) + f(d)
  {
    CollectAppend([c], [d], f);
    CollectOne(c, f);
    CollectOne(d, f);
  }

  /** The calls of the multipart-upload session: initiate and complete. */
  function SessionCalls(c: Call): seq<Call> {
    if c.Invoke? && (c.op == CreateMultipartUpload || c.op == CompleteMultipartUpload) then [c] else []
  }

  /**
   * The bytes a call hands over for storage: the base64 text relayed to
   * `uploadPart`/`putObject`, decoded as the server's `atob` decodes it, or the
   * body of a PUT to a presigned URL.
   */
  function Stored(c: Call): seq<seq<byte>> {
    match c
    case Invoke(op, data) =>
      if (op == UploadPart || op == PutObject) && "buffer" in data && data["buffer"].Str?
      then [NodeDecode(data["buffer"].s)] else []
    case Fetch(_, PutRequest(body, _, _)) => [body]
    case _ => []
  }

  /**
   * The `(UploadId, PartNumber)` a call carries when it uploads a part: relayed to
   * `uploadPart`, or presigned through `create` with the `UploadPart` command.
   */
  function PartTag(c: Call): seq<(Value, Value)> {
    match c
    case Invoke(op, data) =>
      if op == UploadPart || (op == Create && Prop(data, "command") == Str("UploadPart"))
      then [(Prop(data, "UploadId"), Prop(data, "PartNumber"))] else []
    case _ => []
  }

  /** The tags of `n` parts of session `uploadId` numbered from `first` on. */
  function Numbered(uploadId: Value, first: nat, n: nat): (tags: seq<(Value, Value)>)
    ensures |tags| == n
    decreases n
  {
    if n == 0 then [] else [(uploadId, Num(first))] + Numbered(uploadId, first + 1, n - 1)
  }

  /** The k-th tag carries the session and the number `first + k`. */
  lemma {:induction false} NumberedAt(uploadId: Value, first: nat, n: nat, k: nat)
    requires k < n
    ensures Numbered(uploadId, first, n)[k] == (uploadId, Num(first + k))
    decreases n
  {
    if k > 0 {
      NumberedAt(uploadId, first + 1, n - 1, k - 1);
    }
  }

  /** The calls made after `trace`, when `trace` is a prefix of `whole`. */
  function Added(trace: seq<Call>, whole: seq<Call>): seq<Call>
    requires trace <= whole
  {
    whole[|trace|..]
  }

  lemma AddedSplit(a: seq<Call>, b: seq<Call>, c: seq<Call>)
    requires a <= b <= c
    ensures Added(a, c) == Added(a, b) + Added(b, c)
  {
    assert c == b + c[|b|..];
    assert b == a + b[|a|..];
  }

  /** A single-part upload never opens or closes a multipart-upload session. */
  lemma SinglepartSessionFree(env: Env, proxy: bool, trace: seq<Call>, command: string, id: Value,
                              blob: Option<Blob>, options: Obj, o: Outcome<Obj>)
    requires o == SinglepartRun(env, proxy, trace, command, id, blob, options)
    ensures Collect(Added(trace, o.trace), SessionCalls) == []
  {
    if !SinglepartArgsOk(command, id, blob) {
      assert Added(trace, o.trace) == [];
    } else if proxy {
      var relay := Invoke(RelayMethod(command), RelayData(id, blob.value, options));
      assert Added(trace, o.trace) == [relay];
      CollectOne(relay, SessionCalls);
    } else {
      DirectSessionFree(env, trace, command, id, blob.value, options, o);
    }
  }

  /** The direct path: a presign request through the service, then a fetch. */
  lemma DirectSessionFree(env: Env, trace: seq<Call>, command: string, id: Value, blob: Blob, options: Obj,
                          o: Outcome<Obj>)
    requires command != "" && Truthy(id) && blob.mime != ""
    requires o == SinglepartRun(env, false, trace, command, id, Some(blob), options)
    ensures Collect(Added(trace, o.trace), SessionCalls) == []
  {
    var createCall := Invoke(Create, map["command" := Str(command), "id" := id] + options);
    var created := ServiceCall(env, trace, createCall);
    var added := Added(trace, o.trace);
    if created.result.Err? {
      assert added == [createCall];
      CollectOne(createCall, SessionCalls);
    } else {
      assert |added| == 2 && added[0] == createCall && added[1].Fetch?;
      assert added == [added[0], added[1]];
      CollectTwo(added[0], added[1], SessionCalls);
    }
  }

  /** The part loop never opens or closes a multipart-upload session. */
  lemma {:induction false} PartsSessionFree(env: Env, proxy: bool, trace: seq<Call>, id: Value, blob: Blob,
                                            options: Obj, uploadId: Value, chunkSize: nat, offset: nat,
                                            number: nat, parts: seq<Part>)
    requires chunkSize > 0
    ensures var o := PartsRun(env, proxy, trace, id, blob, options, uploadId, chunkSize, offset, number, parts);
      Collect(Added(trace, o.trace), SessionCalls) == []
    decreases |blob.bytes| - offset
  {
    var o := PartsRun(env, proxy, trace, id, blob, options, uploadId, chunkSize, offset, number, parts);
    if offset >= |blob.bytes| {
      assert Added(trace, o.trace) == [];
    } else {
      var next := NextOffset(offset, |blob.bytes|, chunkSize);
      var part := SinglepartRun(env, proxy, trace, "UploadPart", id, Some(Blob(blob.bytes[offset..next], blob.mime)),
                                PartOptions(options, uploadId, number + 1));
      SinglepartSessionFree(env, proxy, trace, "UploadPart", id, Some(Blob(blob.bytes[offset..next], blob.mime)),
                            PartOptions(options, uploadId, number + 1), part);
      if part.result.Ok? {
        var parts' := parts + [Part(number + 1, Prop(part.result.value, "ETag"))];
        PartsSessionFree(env, proxy, part.trace, id, blob, options, uploadId, chunkSize, next, number + 1, parts');
        AddedSplit(trace, part.trace, o.trace);
        CollectAppend(Added(trace, part.trace), Added(part.trace, o.trace), SessionCalls);
      }
    }
  }

  /** The tag a relayed or presigned single-part upload would carry. */
  function TagOf(command: string, options: Obj): seq<(Value, Value)> {
    if command == "UploadPart" then [(Prop(options, "UploadId"), Prop(options, "PartNumber"))] else []
  }

  lemma RelayDelivers(id: Value, blob: Blob, command: string, options: Obj)
    requires "buffer" !in options
    ensures var c := Invoke(RelayMethod(command), RelayData(id, blob, options));
      Stored(c) == [blob.bytes] && PartTag(c) == TagOf(command, options)
  {
    var data := RelayData(id, blob, options);
    NodeRoundTrip(blob.bytes);
    assert Prop(data, "UploadId") == Prop(options, "UploadId");
    assert Prop(data, "PartNumber") == Prop(options, "PartNumber");
  }

  lemma PresignedDelivers(id: Value, blob: Blob, command: string, options: Obj, url: Value)
    requires "command" !in options
    ensures var c := Invoke(Create, map["command" := Str(command), "id" := id] + options);
      var put := Fetch(url, PutRequest(blob.bytes, |blob.bytes|, blob.mime));
      Stored(c) + Stored(put) == [blob.bytes] && PartTag(c) + PartTag(put) == TagOf(command, options)
  {
    var data := map["command" := Str(command), "id" := id] + options;
    assert Prop(data, "command") == Str(command);
    assert Prop(data, "UploadId") == Prop(options, "UploadId");
    assert Prop(data, "PartNumber") == Prop(options, "PartNumber");
  }

  /**
   * A successful single-part upload hands exactly the blob's bytes to storage, in
   * one piece, and tags it with the caller's session and part number when the
   * command is `UploadPart`.
   */
  lemma SinglepartDelivers(env: Env, proxy: bool, trace: seq<Call>, command: string, id: Value,
                           blob: Blob, options: Obj)
    requires command != "" && Truthy(id) && blob.mime != ""
    requires "command" !in options && "buffer" !in options
    ensures var o := SinglepartRun(env, proxy, trace, command, id, Some(blob), options);
      var added := Added(trace, o.trace);
      o.result.Ok? ==> Collect(added, Stored) == [blob.bytes] && Collect(added, PartTag) == TagOf(command, options)
  {
    var o := SinglepartRun(env, proxy, trace, command, id, Some(blob), options);
    var added := Added(trace, o.trace);
    if proxy {
      assert added == [Invoke(RelayMethod(command), RelayData(id, blob, options))];
      CollectOne(added[0], Stored);
      CollectOne(added[0], PartTag);
      RelayDelivers(id, blob, command, options);
    } else if o.result.Ok? {
      var createCall := Invoke(Create, map["command" := Str(command), "id" := id] + options);
      var created := ServiceCall(env, trace, createCall);
      var putCall := Fetch(Prop(created.result.value, "SignedUrl"), PutRequest(blob.bytes, |blob.bytes|, blob.mime));
      assert added == [createCall, putCall];
      CollectTwo(createCall, putCall, Stored);
      CollectTwo(createCall, putCall, PartTag);
      PresignedDelivers(id, blob, command, options, Prop(created.result.value, "SignedUrl"));
    }
  }

  /**
   * A successful run `o` of the part loop hands the slices of the blob to storage
   * in order.
   */
  lemma {:induction false} PartsStore(env: Env, proxy: bool, trace: seq<Call>, id: Value, blob: Blob,
                                      options: Obj, uploadId: Value, chunkSize: nat, offset: nat,
                                      number: nat, parts: seq<Part>, o: Outcome<seq<Part>>)
    requires chunkSize > 0 && Truthy(id) && blob.mime != ""
    requires "command" !in options && "buffer" !in options
    requires o == PartsRun(env, proxy, trace, id, blob, options, uploadId, chunkSize, offset, number, parts)
    requires o.result.Ok?
    ensures Collect(Added(trace, o.trace), Stored) == Pieces(blob.bytes, SlicesFrom(offset, |blob.bytes|, chunkSize))
    decreases |blob.bytes| - offset
  {
    if offset >= |blob.bytes| {
      assert Added(trace, o.trace) == [];
    } else {
      var next := NextOffset(offset, |blob.bytes|, chunkSize);
      var chunk := Blob(blob.bytes[offset..next], blob.mime);
      var opts := PartOptions(options, uploadId, number + 1);
      var part := SinglepartRun(env, proxy, trace, "UploadPart", id, Some(chunk), opts);
      SinglepartDelivers(env, proxy, trace, "UploadPart", id, chunk, opts);
      var parts' := parts + [Part(number + 1, Prop(part.result.value, "ETag"))];
      PartsStore(env, proxy, part.trace, id, blob, options, uploadId, chunkSize, next, number + 1, parts', o);
      AddedSplit(trace, part.trace, o.trace);
      CollectAppend(Added(trace, part.trace), Added(part.trace, o.trace), Stored);
      PiecesStep(blob.bytes, offset, chunkSize);
    }
  }

  /**
   * A successful run `o` of the part loop tags each part with the session and
   * with the next part number.
   */
  lemma {:induction false} PartsTags(env: Env, proxy: bool, trace: seq<Call>, id: Value, blob: Blob,
                                     options: Obj, uploadId: Value, chunkSize: nat, offset: nat,
                                     number: nat, parts: seq<Part>, o: Outcome<seq<Part>>)
    requires chunkSize > 0 && Truthy(id) && blob.mime != ""
    requires "command" !in options && "buffer" !in options
    requires o == PartsRun(env, proxy, trace, id, blob, options, uploadId, chunkSize, offset, number, parts)
    requires o.result.Ok?
    ensures Collect(Added(trace, o.trace), PartTag) == Numbered(uploadId, number + 1, |SlicesFrom(offset, |blob.bytes|, chunkSize)|)
    decreases |blob.bytes| - offset
  {
    if offset >= |blob.bytes| {
      assert Added(trace, o.trace) == [];
    } else {
      var next := NextOffset(offset, |blob.bytes|, chunkSize);
      var chunk := Blob(blob.bytes[offset..next], blob.mime);
      var opts := PartOptions(options, uploadId, number + 1);
      var part := SinglepartRun(env, proxy, trace, "UploadPart", id, Some(chunk), opts);
      SinglepartDelivers(env, proxy, trace, "UploadPart", id, chunk, opts);
      var parts' := parts + [Part(number + 1, Prop(part.result.value, "ETag"))];
      PartsTags(env, proxy, part.trace, id, blob, options, uploadId, chunkSize, next, number + 1, parts', o);
      AddedSplit(trace, part.trace, o.trace);
      CollectAppend(Added(trace, part.trace), Added(part.trace, o.trace), PartTag);
      assert TagOf("UploadPart", opts) == [(uploadId, Num(number + 1))];
    }
  }

  /**
   * The complete call of a session that recorded all `n` parts: the part list
   * holds one record per part, numbered 1..n in order.
   */
  predicate CompletesParts(c: Call, id: Value, uploadId: Value, n: nat) {
    c.Invoke? && "parts" in c.data && c.data["parts"].PartList?
    && c == CompleteCall(id, uploadId, c.data["parts"].parts)
    && |c.data["parts"].parts| == n
    && forall k :: 0 <= k < n ==> c.data["parts"].parts[k].number == k + 1
  }

  /** The UploadId the service answered to the initiate call. */
  function SessionId(env: Env, trace: seq<Call>, id: Value, blob: Blob): Value {
    match env.service(trace, InitiateCall(id, blob))
    case Ok(reply) => Prop(reply, "UploadId")
    case Err(_) => Undefined
  }

  /** The calls after the initiate call: those of the part loop, then the complete call if every part succeeded. */
  lemma FinishTrace(env: Env, proxy: bool, trace: seq<Call>, id: Value, blob: Blob, options: Obj,
                    uploadId: Value, chunkSize: nat)
    requires chunkSize > 0
    ensures var o := FinishRun(env, proxy, trace, id, blob, options, uploadId, chunkSize);
      var uploaded := PartsRun(env, proxy, trace, id, blob, options, uploadId, chunkSize, 0, 0, []);
      && (uploaded.result.Ok? ==> o.trace == uploaded.trace + [CompleteCall(id, uploadId, uploaded.result.value)])
      && (uploaded.result.Err? ==> o == Fail(uploaded.result.error, uploaded.trace))
  {
  }

  /** Appending one call to a trace adds what `f` collects from it. */
  lemma CollectAfter<U>(a: seq<Call>, b: seq<Call>, c: Call, f: Call -> seq<U>)
    requires a <= b
    ensures Collect(Added(a, b + [c]), f) == Collect(Added(a, b), f) + f(c)
  {
    AddedSplit(a, b, b + [c]);
    assert Added(b, b + [c]) == [c];
    CollectAppend(Added(a, b), [c], f);
    CollectOne(c, f);
  }

  /**
   * After the initiate call, the session calls are at most one complete call; it
   * is the last call, it lists all the parts numbered 1..n, and a successful
   * upload makes it.
   */
  lemma FinishSession(env: Env, proxy: bool, trace: seq<Call>, id: Value, blob: Blob, options: Obj,
                      uploadId: Value, chunkSize: nat)
    requires chunkSize > 0
    ensures var o := FinishRun(env, proxy, trace, id, blob, options, uploadId, chunkSize);
      var added := Added(trace, o.trace);
      var sessions := Collect(added, SessionCalls);
      |sessions| <= 1
      && (|sessions| == 1 ==>
            sessions[0] == added[|added| - 1] && CompletesParts(sessions[0], id, uploadId, |Slices(|blob.bytes|, chunkSize)|))
      && (o.result.Ok? ==> |sessions| == 1)
  {
    var uploaded := PartsRun(env, proxy, trace, id, blob, options, uploadId, chunkSize, 0, 0, []);
    PartsSessionFree(env, proxy, trace, id, blob, options, uploadId, chunkSize, 0, 0, []);
    FinishTrace(env, proxy, trace, id, blob, options, uploadId, chunkSize);
    if uploaded.result.Ok? {
      var parts := uploaded.result.value;
      var start: nat := 0;
      PartsRecorded(env, proxy, trace, id, blob, options, uploadId, chunkSize, start, start, [], uploaded);
      var complete := CompleteCall(id, uploadId, parts);
      CollectAfter(trace, uploaded.trace, complete, SessionCalls);
      assert CompletesParts(complete, id, uploadId, |Slices(|blob.bytes|, chunkSize)|) by {
        assert complete.data["parts"] == PartList(parts);
      }
    }
  }

  /** After the initiate call, a successful upload `o` hands the slices of the blob to storage in order. */
  lemma FinishStore(env: Env, proxy: bool, trace: seq<Call>, id: Value, blob: Blob, options: Obj,
                    uploadId: Value, chunkSize: nat, o: Outcome<Obj>)
    requires chunkSize > 0 && Truthy(id) && blob.mime != ""
    requires "command" !in options && "buffer" !in options
    requires o == FinishRun(env, proxy, trace, id, blob, options, uploadId, chunkSize)
    requires o.result.Ok?
    ensures Collect(Added(trace, o.trace), Stored) == Pieces(blob.bytes, Slices(|blob.bytes|, chunkSize))
  {
    var uploaded := PartsRun(env, proxy, trace, id, blob, options, uploadId, chunkSize, 0, 0, []);
    FinishTrace(env, proxy, trace, id, blob, options, uploadId, chunkSize);
    PartsStore(env, proxy, trace, id, blob, options, uploadId, chunkSize, 0, 0, [], uploaded);
    var complete := CompleteCall(id, uploadId, uploaded.result.value);
    CollectAfter(trace, uploaded.trace, complete, Stored);
    assert Stored(complete) == [];
  }

  /** After the initiate call, a successful upload `o` tags the parts with the session and the numbers 1..n. */
  lemma FinishTags(env: Env, proxy: bool, trace: seq<Call>, id: Value, blob: Blob, options: Obj,
                   uploadId: Value, chunkSize: nat, o: Outcome<Obj>)
    requires chunkSize > 0 && Truthy(id) && blob.mime != ""
    requires "command" !in options && "buffer" !in options
    requires o == FinishRun(env, proxy, trace, id, blob, options, uploadId, chunkSize)
    requires o.result.Ok?
    ensures Collect(Added(trace, o.trace), PartTag) == Numbered(uploadId, 1, |Slices(|blob.bytes|, chunkSize)|)
  {
    var uploaded := PartsRun(env, proxy, trace, id, blob, options, uploadId, chunkSize, 0, 0, []);
    FinishTrace(env, proxy, trace, id, blob, options, uploadId, chunkSize);
    // a variable rather than the literal 0 keeps the solver from unfolding the part loop
    var start: nat := 0;
    PartsTags(env, proxy, trace, id, blob, options, uploadId, chunkSize, start, start, [], uploaded);
    var first: nat := start + 1;
    var n := |SlicesFrom(start, |blob.bytes|, chunkSize)|;
    assert first == 1 && n == |Slices(|blob.bytes|, chunkSize)|;
    var complete := CompleteCall(id, uploadId, uploaded.result.value);
    CollectAfter(trace, uploaded.trace, complete, PartTag);
    assert PartTag(complete) == [];
  }

  /**
   * The multipart-upload protocol: the first call initiates the session; the
   * session calls are that initiate call and, only when every part was uploaded,
   * one complete call, which is the last call and lists all the parts numbered
   * 1..n in order. A failing part (or a failing initiate) leaves the session
   * uncompleted, and a successful upload always completes it.
   */
  lemma MultipartSession(env: Env, proxy: bool, trace: seq<Call>, id: Value, blob: Blob, options: Obj,
                         chunkSize: nat)
    requires chunkSize > 0 && Truthy(id) && blob.mime != ""
    ensures var o := MultipartRun(env, proxy, trace, id, Some(blob), options, chunkSize);
      var added := Added(trace, o.trace);
      var sessions := Collect(added, SessionCalls);
      added != [] && added[0] == InitiateCall(id, blob)
      && 1 <= |sessions| <= 2 && sessions[0] == InitiateCall(id, blob)
      && (|sessions| == 2 ==>
            sessions[1] == added[|added| - 1]
            && CompletesParts(sessions[1], id, SessionId(env, trace, id, blob), |Slices(|blob.bytes|, chunkSize)|))
      && (o.result.Ok? ==> |sessions| == 2)
  {
    var o := MultipartRun(env, proxy, trace, id, Some(blob), options, chunkSize);
    var initiate := InitiateCall(id, blob);
    var created := ServiceCall(env, trace, initiate);
    CollectOne(initiate, SessionCalls);
    if created.result.Err? {
      assert Added(trace, o.trace) == [initiate];
    } else {
      var uploadId := Prop(created.result.value, "UploadId");
      assert SessionId(env, trace, id, blob) == uploadId;
      FinishSession(env, proxy, created.trace, id, blob, options, uploadId, chunkSize);
      AddedSplit(trace, created.trace, o.trace);
      assert Added(trace, created.trace) == [initiate];
      CollectAppend([initiate], Added(created.trace, o.trace), SessionCalls);
    }
  }

  /**
   * A successful multipart upload `o` hands the whole blob to storage, cut into the
   * slices of the chunker in order: nothing is lost, repeated or reordered.
   */
  lemma MultipartStore(env: Env, proxy: bool, trace: seq<Call>, id: Value, blob: Blob, options: Obj,
                       chunkSize: nat, o: Outcome<Obj>)
    requires chunkSize > 0 && Truthy(id) && blob.mime != ""
    requires "command" !in options && "buffer" !in options
    requires o == MultipartRun(env, proxy, trace, id, Some(blob), options, chunkSize)
    requires o.result.Ok?
    ensures Collect(Added(trace, o.trace), Stored) == Pieces(blob.bytes, Slices(|blob.bytes|, chunkSize))
    ensures Flatten(Collect(Added(trace, o.trace), Stored)) == blob.bytes
  {
    var initiate := InitiateCall(id, blob);
    var created := ServiceCall(env, trace, initiate);
    var uploadId := Prop(created.result.value, "UploadId");
    MultipartRunInitiated(env, proxy, trace, id, blob, options, chunkSize, created);
    FinishStore(env, proxy, created.trace, id, blob, options, uploadId, chunkSize, o);
    var later := Added(created.trace, o.trace);
    AddedSplit(trace, created.trace, o.trace);
    assert Added(trace, created.trace) == [initiate];
    CollectAppend([initiate], later, Stored);
    CollectOne(initiate, Stored);
    assert Stored(initiate) == [];
    assert Collect(Added(trace, o.trace), Stored) == Collect(later, Stored);
    ReassembleAll(blob.bytes, chunkSize);
  }

  /**
   * A successful multipart upload `o` tags its parts with the session's UploadId
   * and with the numbers 1..n, n being the number of slices (ceil(size / chunkSize)
   * by `PartCount`).
   */
  lemma MultipartTags(env: Env, proxy: bool, trace: seq<Call>, id: Value, blob: Blob, options: Obj,
                      chunkSize: nat, o: Outcome<Obj>)
    requires chunkSize > 0 && Truthy(id) && blob.mime != ""
    requires "command" !in options && "buffer" !in options
    requires o == MultipartRun(env, proxy, trace, id, Some(blob), options, chunkSize)
    requires o.result.Ok?
    ensures Collect(Added(trace, o.trace), PartTag)
         == Numbered(SessionId(env, trace, id, blob), 1, |Slices(|blob.bytes|, chunkSize)|)
  {
    var initiate := InitiateCall(id, blob);
    var created := ServiceCall(env, trace, initiate);
    var uploadId := Prop(created.result.value, "UploadId");
    var session := SessionId(env, trace, id, blob);
    assert session == uploadId;
    MultipartRunInitiated(env, proxy, trace, id, blob, options, chunkSize, created);
    FinishTags(env, proxy, created.trace, id, blob, options, uploadId, chunkSize, o);
    AddedSplit(trace, created.trace, o.trace);
    assert Added(trace, created.trace) == [initiate];
    CollectAppend([initiate], Added(created.trace, o.trace), PartTag);
    CollectOne(initiate, PartTag);
  }

  /**
   * `upload` takes the multipart path exactly when the blob is larger than one
   * chunk: its first call initiates a session iff size > chunkSize. A blob of at
   * most one chunk goes through `singlepartUpload('PutObject', ...)` and opens no
   * session.
   */
  lemma UploadChoice(env: Env, proxy: bool, trace: seq<Call>, id: Value, blob: Blob, options: Obj,
                     chunkSize: nat, o: Outcome<Obj>)
    requires chunkSize > 0 && Truthy(id) && blob.mime != ""
    requires o == UploadRun(env, proxy, trace, id, Some(blob), options, chunkSize)
    ensures |o.trace| > |trace|
    ensures o.trace[|trace|] == InitiateCall(id, blob) <==> |blob.bytes| > chunkSize
    ensures |blob.bytes| <= chunkSize ==>
      o == SinglepartRun(env, proxy, trace, "PutObject", id, Some(blob), options)
      && Collect(Added(trace, o.trace), SessionCalls) == []
  {
    if |blob.bytes| <= chunkSize {
      SinglepartSessionFree(env, proxy, trace, "PutObject", id, Some(blob), options, o);
    }
  }

  /** A successful upload, on either path, hands exactly the blob's bytes to storage. */
  lemma UploadDelivers(env: Env, proxy: bool, trace: seq<Call>, id: Value, blob: Blob, options: Obj,
                       chunkSize: nat, o: Outcome<Obj>)
    requires chunkSize > 0 && Truthy(id) && blob.mime != ""
    requires "command" !in options && "buffer" !in options
    requires o == UploadRun(env, proxy, trace, id, Some(blob), options, chunkSize)
    requires o.result.Ok?
    ensures Flatten(Collect(Added(trace, o.trace), Stored)) == blob.bytes
  {
    if |blob.bytes| > chunkSize {
      MultipartStore(env, proxy, trace, id, blob, options, chunkSize, o);
    } else {
      SinglepartDelivers(env, proxy, trace, "PutObject", id, blob, options);
      assert Flatten([blob.bytes]) == blob.bytes + Flatten([]);
    }
  }

  /**
   * A relayed download whose reply carries the base64 text of some bytes hands
   * back exactly those bytes, in place of the text, with the rest of the reply.
   */
  lemma DownloadRelayed(env: Env, trace: seq<Call>, id: Value, options: Obj, reply: Obj, bytes: seq<byte>)
    requires Truthy(id) && env.service(trace, GetById(id)) == Ok(reply)
    requires Prop(reply, "buffer") == Str(Encode(bytes))
    ensures DownloadRun(env, true, trace, id, options) == Outcome(Ok(reply["buffer" := Bin(bytes)]), trace + [GetById(id)])
  {
    Base64RoundTrip(bytes);
  }

  /**
   * A successful direct download made two calls, the presign request and a GET of
   * the URL it answered, and hands back the body of that GET as the buffer and its
   * first `content-type` header as the type.
   */
  lemma DownloadDirect(env: Env, trace: seq<Call>, id: Value, options: Obj, o: Outcome<Obj>)
    requires o == DownloadRun(env, false, trace, id, options)
    requires o.result.Ok?
    ensures |o.trace| == |trace| + 2
    ensures o.trace[|trace|] == Invoke(Create, map["id" := id, "command" := Str("GetObject")] + options)
    ensures env.service(trace, o.trace[|trace|]).Ok?
    ensures o.trace[|trace| + 1] == Fetch(Prop(env.service(trace, o.trace[|trace|]).value, "SignedUrl"), GetRequest)
    ensures env.fetch(o.trace[..|trace| + 1], o.trace[|trace| + 1]).Ok?
    ensures var response := env.fetch(o.trace[..|trace| + 1], o.trace[|trace| + 1]).value;
      && o.result.value["buffer"] == Bin(response.body)
      && "content-type" in response.headers
      && (response.headers["content-type"] != [] ==> o.result.value["type"] == Str(response.headers["content-type"][0]))
  {
    var created := ServiceCall(env, trace, Invoke(Create, map["id" := id, "command" := Str("GetObject")] + options));
    assert created.trace[..|trace| + 1] == created.trace;
    assert o.trace[..|trace| + 1] == created.trace;
  }
}
