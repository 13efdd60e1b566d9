/**
 * The server-side `Service` of lib/service.js: it validates the data of each call,
 * builds the input of one S3 command from it (object key, bucket, body, content
 * type) and sends or presigns that command through the S3 client, which is not
 * modelled beyond its interface.
 */
module S3Service {
  import opened Wrappers
  import opened Base64
  import opened Values

  /** The options forwarded to the presigner (lib/service.js:13-21). */
  const SigningOptions: set<string> :=
    {"expiresIn", "signableHeaders", "signingDate", "signingRegion", "signingService",
     "unhoistableHeaders", "unsignableHeaders"}

  datatype CommandKind =
    | ListObjects
    | GetObject
    | PutObject
    | DeleteObject
    | CreateMultipartUpload
    | UploadPart
    | CompleteMultipartUpload

  /** An S3 command and its input. */
  datatype Command = Command(kind: CommandKind, input: Obj)

  /** What the service asks of S3: to run a command, or to presign it. */
  datatype Request =
    | Send(command: Command)
    | Presign(command: Command, signing: Obj)

  /** How S3 answers, as a function of the requests made so far and of the request. */
  datatype S3Env = S3Env(
    send: (seq<Request>, Request) -> Result<Obj, string>,
    sign: (seq<Request>, Request) -> Result<string, string>)

  /** An error of the S3 client propagates as is. */
  function Reply<T>(answer: Result<T, string>): (r: Result<T, Failure>)
    ensures answer.Ok? <==> r.Ok?
    ensures answer.Ok? ==> r.value == answer.value
    ensures answer.Err? ==> r.error == Thrown(answer.error)
  {
    match answer
    case Ok(v) => Ok(v)
    case Err(e) => Err(Thrown(e))
  }

  /** The S3 client of the service: its configuration and the requests made through it. */
  class S3Client {
    const config: Obj
    const env: S3Env
    var requests: seq<Request>

    constructor (config: Obj, env: S3Env)
      ensures this.config == config && this.env == env && requests == []
    {
      this.config := config;
      this.env := env;
      requests := [];
    }

    /** `s3Client.send(command)`. */
    method Run(c: Command) returns (r: Result<Obj, Failure>)
      modifies this
      ensures requests == old(requests) + [Send(c)]
      ensures r == Reply(env.send(old(requests), Send(c)))
    {
      r := Reply(env.send(requests, Send(c)));
      requests := requests + [Send(c)];
    }

    /** `getSignedUrl(s3Client, command, signing)`. */
    method Sign(c: Command, signing: Obj) returns (r: Result<string, Failure>)
      modifies this
      ensures requests == old(requests) + [Presign(c, signing)]
      ensures r == Reply(env.sign(old(requests), Presign(c, signing)))
    {
      r := Reply(env.sign(requests, Presign(c, signing)));
      requests := requests + [Presign(c, signing)];
    }
  }

  /**
   * The constructor options; a missing string option is "" (falsy, as `undefined`
   * is) and a missing `s3Client` is None.
   */
  datatype ServiceOptions = ServiceOptions(
    s3Client: Option<Obj>,
    bucket: string,
    delimiter: string,
    prefix: string,
    id: string)

  /** What the constructor keeps once the options are validated. */
  datatype Settings = Settings(client: Obj, bucket: string, delimiter: string, prefix: string, idField: string)

  /**
   * The checks and defaults of the constructor (lib/service.js:31-58): options, an
   * S3 client configuration with signature version "v4" and a bucket are required;
   * the delimiter defaults to "/" and the id field to "id".
   */
  function Configure(options: Option<ServiceOptions>): (r: Result<Settings, Failure>)
    ensures r.Ok? <==>
      options.Some? && options.value.s3Client.Some?
      && Prop(options.value.s3Client.value, "signatureVersion") == Str("v4")
      && options.value.bucket != ""
    ensures r.Err? ==> r.error.CallerError?
    ensures r.Ok? ==>
      && r.value.client == options.value.s3Client.value
      && r.value.bucket == options.value.bucket && r.value.prefix == options.value.prefix
      && r.value.delimiter != "" && r.value.idField != ""
      && (options.value.delimiter != "" ==> r.value.delimiter == options.value.delimiter)
      && (options.value.delimiter == "" ==> r.value.delimiter == "/")
      && (options.value.id != "" ==> r.value.idField == options.value.id)
      && (options.value.id == "" ==> r.value.idField == "id")
  {
    if options.None? then Err(CallerError("options"))
    else if options.value.s3Client.None? then Err(CallerError("options.s3Client"))
    else if Prop(options.value.s3Client.value, "signatureVersion") != Str("v4") then
      Err(CallerError("options.s3Client.signatureVersion"))
    else if options.value.bucket == "" then Err(CallerError("options.bucket"))
    else
      var o := options.value;
      Ok(Settings(o.s3Client.value, o.bucket,
                  if o.delimiter != "" then o.delimiter else "/",
                  o.prefix,
                  if o.id != "" then o.id else "id"))
  }

  /** `Buffer.from(buffer, 'base64')`: text is decoded as Node decodes base64, bytes are copied. */
  function Body(buffer: Value): (r: Result<Value, Failure>)
    ensures buffer.Str? ==> r == Ok(Bin(NodeDecode(buffer.s)))
    ensures buffer.Bin? ==> r == Ok(buffer)
    ensures !buffer.Str? && !buffer.Bin? ==> r.Err?
  {
    match buffer
    case Str(s) => Ok(Bin(NodeDecode(s)))
    case Bin(_) => Ok(buffer)
    case _ => Err(TypeError("buffer"))
  }

  /** The UTF-8 encoding of one character (a Unicode scalar value). */
  function Utf8Char(c: char): (b: seq<byte>)
    ensures 1 <= |b| <= 4
    ensures (c as int < 0x80) <==> |b| == 1
    ensures c as int < 0x80 ==> b == [c as int]
    ensures c as int >= 0x80 ==> b[0] >= 0xC0 && forall i :: 1 <= i < |b| ==> 0x80 <= b[i] < 0xC0
  {
    var n := c as int;
    if n < 0x80 then [n]
    else if n < 0x800 then [0xC0 + n / 64, 0x80 + n % 64]
    else if n < 0x10000 then [0xE0 + n / 4096, 0x80 + (n / 64) % 64, 0x80 + n % 64]
    else [0xF0 + n / 262144, 0x80 + (n / 4096) % 64, 0x80 + (n / 64) % 64, 0x80 + n % 64]
  }

  /** `Buffer.from(text)`: the UTF-8 encoding of the text. */
  function Utf8(s: string): (b: seq<byte>)
    ensures |s| <= |b| <= 4 * |s|
  {
    if s == [] then [] else Utf8Char(s[0]) + Utf8(s[1..])
  }

  predicate IsAscii(s: string) {
    forall i :: 0 <= i < |s| ==> s[i] as int < 0x80
  }

  /** Text made of ASCII characters encodes to its character codes, one byte each. */
  lemma {:induction false} Utf8OfAscii(s: string)
    requires IsAscii(s)
    ensures |Utf8(s)| == |s|
    ensures forall i :: 0 <= i < |s| ==> Utf8(s)[i] == s[i] as int
  {
    if s != [] {
      assert IsAscii(s[1..]) by {
        forall i | 0 <= i < |s[1..]| ensures s[1..][i] as int < 0x80 {
          assert s[1..][i] == s[i + 1];
        }
      }
      Utf8OfAscii(s[1..]);
    }
  }

  /** Any character outside ASCII takes more than one byte. */
  lemma {:induction false} Utf8Longer(s: string)
    requires !IsAscii(s)
    ensures |Utf8(s)| > |s|
  {
    if s[0] as int < 0x80 {
      assert !IsAscii(s[1..]) by {
        var i :| 0 <= i < |s| && s[i] as int >= 0x80;
        assert i > 0 && s[1..][i - 1] == s[i];
      }
      Utf8Longer(s[1..]);
    }
  }

  /**
   * No text encodes to the lone byte 0xFF: a single byte encodes a single ASCII
   * character, and those are below 0x80.
   */
  lemma Utf8NeverLoneHighByte(s: string)
    ensures Utf8(s) != [0xFF]
  {
    if |Utf8(s)| == 1 {
      assert s != [];
      assert Utf8(s) == Utf8Char(s[0]) + Utf8(s[1..]);
      assert |Utf8Char(s[0])| == 1;
      assert Utf8(s)[0] == s[0] as int < 0x80;
    }
  }

  class Service {
    const s3: S3Client
    const bucket: string
    const delimiter: string
    const prefix: string
    const idField: string

    constructor (settings: Settings, s3: S3Client)
      ensures this.s3 == s3 && bucket == settings.bucket && delimiter == settings.delimiter
      ensures prefix == settings.prefix && idField == settings.idField
    {
      this.s3 := s3;
      bucket := settings.bucket;
      delimiter := settings.delimiter;
      prefix := settings.prefix;
      idField := settings.idField;
    }

    /** `getKey(id)` (lib/service.js:60-62): the id under the prefix, or the id itself without one. */
    function GetKey(id: Value): (k: Value)
      ensures prefix == "" ==> k == id
      ensures prefix != "" ==> k.Str? && |k.s| > |Show(id)|
    {
      if prefix != "" then Str(prefix + delimiter + Show(id)) else id
    }

    /** With a prefix, every key lies under `prefix + delimiter`, followed by the id as text. */
    lemma KeyUnderPrefix(id: Value)
      requires prefix != ""
      ensures GetKey(id).Str?
      ensures |GetKey(id).s| == |prefix| + |delimiter| + |Show(id)|
      ensures GetKey(id).s[..|prefix| + |delimiter|] == prefix + delimiter
      ensures GetKey(id).s[|prefix| + |delimiter|..] == Show(id)
    {
      var s := prefix + delimiter + Show(id);
      assert s == (prefix + delimiter) + Show(id);
    }

    /** Distinct string ids get distinct keys, with or without a prefix. */
    lemma KeyInjective(a: string, b: string)
      requires GetKey(Str(a)) == GetKey(Str(b))
      ensures a == b
    {
      if prefix != "" {
        KeyUnderPrefix(Str(a));
        KeyUnderPrefix(Str(b));
      }
    }

    /**
     * The input of `ListObjects` in `find` (lib/service.js:66-74): the query with
     * its keys upper-firsted, the service bucket, and, with a service prefix, the
     * query's `Prefix` under it (or the service prefix alone when the query has none).
     */
    function FindParams(query: Obj): (p: Obj)
      ensures p.Keys == UpperKeySet(query) + {"Bucket"} + (if prefix != "" then {"Prefix"} else {})
      ensures p["Bucket"] == Str(bucket)
      ensures forall k :: k in UpperKeySet(query) && k != "Bucket" && (prefix == "" || k != "Prefix") ==>
        p[k] == UpperKeys(query)[k]
      ensures prefix != "" && Truthy(Prop(UpperKeys(query), "Prefix")) ==>
        p["Prefix"] == Str(prefix + delimiter + Show(UpperKeys(query)["Prefix"]))
      ensures prefix != "" && !Truthy(Prop(UpperKeys(query), "Prefix")) ==> p["Prefix"] == Str(prefix)
    {
      var params := UpperKeys(query)["Bucket" := Str(bucket)];
      if prefix == "" then params
      else if Truthy(Prop(params, "Prefix")) then params["Prefix" := Str(prefix + delimiter + Show(params["Prefix"]))]
      else params["Prefix" := Str(prefix)]
    }

    /**
     * With a service prefix, `find` asked for a `Prefix` of p lists under the key that
     * `getKey` gives to p, and so finds every object created for an id starting with p.
     */
    lemma FindMatchesKeys(query: Obj, p: string, rest: string)
      requires prefix != "" && p != ""
      requires "Prefix" in UpperKeySet(query) && UpperKeys(query)["Prefix"] == Str(p)
      ensures FindParams(query)["Prefix"] == GetKey(Str(p))
      ensures FindParams(query)["Prefix"].s <= GetKey(Str(p + rest)).s
    {
      assert prefix + delimiter + (p + rest) == (prefix + delimiter + p) + rest;
    }

    /** `find(params)` (lib/service.js:64-77). */
    method Find(query: Obj) returns (r: Result<Obj, Failure>)
      modifies s3
      ensures s3.requests == old(s3.requests) + [Send(Command(ListObjects, FindParams(query)))]
      ensures r == Reply(s3.env.send(old(s3.requests), Send(Command(ListObjects, FindParams(query)))))
    {
      var params := UpperKeys(query)["Bucket" := Str(bucket)];
      if prefix != "" {
        if Truthy(Prop(params, "Prefix")) {
          params := params["Prefix" := Str(prefix + delimiter + Show(params["Prefix"]))];
        } else {
          params := params["Prefix" := Str(prefix)];
        }
      }
      r := s3.Run(Command(ListObjects, params));
    }

    /**
     * The command `create` presigns (lib/service.js:79-106): `id` and `command` are
     * required, only `PutObject`, `GetObject` and `UploadPart` are accepted, and
     * `UploadPart` needs an `UploadId` and a `PartNumber`. The input is the data
     * without `id`, with the object key and the service bucket, which override any
     * field of the same name.
     */
    function CreateCommand(data: Obj): (r: Result<Command, Failure>)
      ensures r.Ok? <==>
        Truthy(Prop(data, "id"))
        && Prop(data, "command") in {Str("PutObject"), Str("GetObject"), Str("UploadPart")}
        && (Prop(data, "command") == Str("UploadPart") ==> Truthy(Prop(data, "UploadId")) && Truthy(Prop(data, "PartNumber")))
      ensures r.Err? ==> r.error.BadRequest?
      ensures r.Ok? ==>
        && (r.value.kind == PutObject <==> data["command"] == Str("PutObject"))
        && (r.value.kind == GetObject <==> data["command"] == Str("GetObject"))
        && (r.value.kind == UploadPart <==> data["command"] == Str("UploadPart"))
      ensures r.Ok? ==>
        && r.value.input.Keys == data.Keys - {"id"} + {"Key", "Bucket"}
        && r.value.input["Key"] == GetKey(data["id"]) && r.value.input["Bucket"] == Str(bucket)
        && forall k :: k in data && k !in {"id", "Key", "Bucket"} ==> r.value.input[k] == data[k]
    {
      if !Truthy(Prop(data, "id")) then Err(BadRequest("data.id"))
      else if !Truthy(Prop(data, "command")) then Err(BadRequest("data.method"))
      else
        var params := Omit(data, {"id"})["Key" := GetKey(data["id"])]["Bucket" := Str(bucket)];
        if data["command"] == Str("PutObject") then Ok(Command(PutObject, params))
        else if data["command"] == Str("GetObject") then Ok(Command(GetObject, params))
        else if data["command"] == Str("UploadPart") then
          if !Truthy(Prop(params, "UploadId")) then Err(BadRequest("data.UploadId"))
          else if !Truthy(Prop(params, "PartNumber")) then Err(BadRequest("data.PartNumber"))
          else Ok(Command(UploadPart, params))
        else Err(BadRequest("command"))
    }

    /** `create(data)` (lib/service.js:79-109): presign the command with the signing options of the data. */
    method Create(data: Obj) returns (r: Result<Obj, Failure>)
      modifies s3
      ensures CreateCommand(data).Err? ==> r == Err(CreateCommand(data).error) && s3.requests == old(s3.requests)
      ensures CreateCommand(data).Ok? ==>
        var request := Presign(CreateCommand(data).value, Pick(data, SigningOptions));
        && s3.requests == old(s3.requests) + [request]
        && r == match Reply(s3.env.sign(old(s3.requests), request))
                case Ok(url) => Ok(map[idField := data["id"]]["SignedUrl" := Str(url)])
                case Err(e) => Err(e)
    {
      var command := CreateCommand(data);
      if command.Err? {
        return Err(command.error);
      }
      var url := s3.Sign(command.value, Pick(data, SigningOptions));
      if url.Err? {
        return Err(url.error);
      }
      r := Ok(map[idField := data["id"]]["SignedUrl" := Str(url.value)]);
    }

    /** The input that addresses one object: its key and the service bucket. */
    function ObjectParams(id: Value): (p: Obj)
      ensures p.Keys == {"Key", "Bucket"} && p["Key"] == GetKey(id) && p["Bucket"] == Str(bucket)
    {
      map["Key" := GetKey(id), "Bucket" := Str(bucket)]
    }

    /**
     * The input of a command on one object: the given fields, then the object key
     * and the service bucket, then the fields that the call sets last.
     */
    function Addressed(fields: Obj, id: Value, last: Obj): (p: Obj)
      requires "Key" !in last && "Bucket" !in last
      ensures p.Keys == fields.Keys + {"Key", "Bucket"} + last.Keys
      ensures p["Key"] == GetKey(id) && p["Bucket"] == Str(bucket)
      ensures forall k :: k in last ==> p[k] == last[k]
      ensures forall k :: k in fields && k != "Key" && k != "Bucket" && k !in last ==> p[k] == fields[k]
    {
      fields + ObjectParams(id) + last
    }

    /**
     * What `get` answers for the text S3 returned (lib/service.js:123-125): the id
     * under the id field, the base64 of the UTF-8 encoding of the text, and the
     * content type.
     */
    function GetResult(id: Value, text: string, contentType: Value): (r: Obj)
      ensures r.Keys == {idField, "buffer", "type"}
      ensures r["buffer"] == Str(Encode(Utf8(text))) && r["type"] == contentType
      ensures idField !in {"buffer", "type"} ==> r[idField] == id
    {
      map[idField := id]["buffer" := Str(Encode(Utf8(text)))]["type" := contentType]
    }

    /**
     * What `get` would answer if it encoded the bytes of the object rather than
     * their reading as UTF-8 text: the base64 of those very bytes.
     */
    function ExactGetResult(id: Value, bytes: seq<byte>, contentType: Value): (r: Obj)
      ensures r.Keys == {idField, "buffer", "type"}
      ensures r["buffer"] == Str(Encode(bytes)) && r["type"] == contentType
      ensures Base64Decode(r["buffer"].s) == Some(bytes)
      ensures idField !in {"buffer", "type"} ==> r[idField] == id
    {
      Base64RoundTrip(bytes);
      map[idField := id]["buffer" := Str(Encode(bytes))]["type" := contentType]
    }

    /**
     * The answer of a command that the service hands back keyed by the id
     * (lib/service.js:138-139 and 155-156): an S3 error propagates; otherwise the
     * response's fields, with the id under the id field unless the response
     * carries a field of that name, which wins.
     */
    function Keyed(id: Value, answer: Result<Obj, string>): (r: Result<Obj, Failure>)
      ensures r.Ok? <==> answer.Ok?
      ensures r.Err? ==> r.error == Thrown(answer.error)
      ensures r.Ok? ==> r.value.Keys == answer.value.Keys + {idField}
      ensures r.Ok? && idField !in answer.value ==> r.value[idField] == id
      ensures r.Ok? ==> forall k :: k in answer.value ==> r.value[k] == answer.value[k]
    {
      match Reply(answer)
      case Err(e) => Err(e)
      case Ok(response) => Ok(map[idField := id] + response)
    }

    /** `get(id)` (lib/service.js:111-126). */
    method Get(id: Value) returns (r: Result<Obj, Failure>)
      modifies s3
      ensures !Truthy(id) ==> r == Err(BadRequest("id")) && s3.requests == old(s3.requests)
      ensures Truthy(id) ==>
        var request := Send(Command(GetObject, ObjectParams(id)));
        && s3.requests == old(s3.requests) + [request]
        && r == match Reply(s3.env.send(old(s3.requests), request))
                case Err(e) => Err(e)
                case Ok(response) =>
                  if Prop(response, "Body").Str? then Ok(GetResult(id, response["Body"].s, Prop(response, "ContentType")))
                  else Err(TypeError("Body"))
    {
      if !Truthy(id) {
        return Err(BadRequest("id"));
      }
      var response := s3.Run(Command(GetObject, ObjectParams(id)));
      if response.Err? {
        return Err(response.error);
      }
      if !Prop(response.value, "Body").Str? {
        return Err(TypeError("Body"));
      }
      var text := response.value["Body"].s;
      r := Ok(GetResult(id, text, Prop(response.value, "ContentType")));
    }

    /** `remove(id)` (lib/service.js:128-140). */
    method Remove(id: Value) returns (r: Result<Obj, Failure>)
      modifies s3
      ensures !Truthy(id) ==> r == Err(BadRequest("id")) && s3.requests == old(s3.requests)
      ensures Truthy(id) ==>
        var request := Send(Command(DeleteObject, ObjectParams(id)));
        && s3.requests == old(s3.requests) + [request]
        && r == Keyed(id, s3.env.send(old(s3.requests), request))
    {
      if !Truthy(id) {
        return Err(BadRequest("id"));
      }
      var response := s3.Run(Command(DeleteObject, ObjectParams(id)));
      if response.Err? {
        return Err(response.error);
      }
      r := Ok(map[idField := id] + response.value);
    }

    /** `_.mapKeys(_.omit(data, dropped), upperFirst)`: the other fields of the data, upper-firsted. */
    function Forwarded(data: Obj, dropped: set<string>): (f: Obj)
      ensures f.Keys == UpperKeySet(Omit(data, dropped))
    {
      UpperKeys(Omit(data, dropped))
    }

    /** A forwarded field whose name is already upper-first keeps its name and its value. */
    lemma ForwardedKeeps(data: Obj, dropped: set<string>, k: string)
      requires k in data && k !in dropped && UpperFirst(k) == k
      ensures k in Forwarded(data, dropped) && Forwarded(data, dropped)[k] == data[k]
    {
      UpperKeysValues(Omit(data, dropped));
    }

    /**
     * The input of `CreateMultipartUpload` (lib/service.js:148-153): the fields of the
     * data but `id`, upper-firsted, then the object key, the bucket and the content type.
     */
    function InitiateInput(data: Obj): (p: Obj)
      requires "id" in data && "type" in data
      ensures p.Keys == Forwarded(data, {"id"}).Keys + {"Key", "Bucket", "ContentType"}
      ensures forall k :: k in Forwarded(data, {"id"}) && k != "Key" && k != "Bucket" && k != "ContentType" ==>
        p[k] == Forwarded(data, {"id"})[k]
      ensures p["Key"] == GetKey(data["id"]) && p["Bucket"] == Str(bucket)
      ensures p["ContentType"] == data["type"]
    {
      var last := map["ContentType" := data["type"]];
      assert last.Keys == {"ContentType"};
      Addressed(Forwarded(data, {"id"}), data["id"], last)
    }

    /** The checks of `createMultipartUpload` (lib/service.js:142-145): `id` and `type` are required. */
    function InitiateParams(data: Obj): (r: Result<Obj, Failure>)
      ensures r.Ok? <==> Truthy(Prop(data, "id")) && Truthy(Prop(data, "type"))
      ensures r.Err? ==> r.error.BadRequest?
      ensures r.Ok? ==> "id" in data && "type" in data && r.value == InitiateInput(data)
    {
      if !Truthy(Prop(data, "id")) then Err(BadRequest("data.id"))
      else if !Truthy(Prop(data, "type")) then Err(BadRequest("data.type"))
      else Ok(InitiateInput(data))
    }

    /**
     * The input of `CompleteMultipartUpload` (lib/service.js:166-171): the fields of
     * the data but `id` and `parts`, upper-firsted, then the object key, the bucket,
     * and the part list, unchanged, as `MultipartUpload.Parts`.
     */
    function CompleteInput(data: Obj): (p: Obj)
      requires "id" in data && "parts" in data
      ensures p.Keys == Forwarded(data, {"id", "parts"}).Keys + {"Key", "Bucket", "MultipartUpload"}
      ensures forall k :: k in Forwarded(data, {"id", "parts"}) && k != "Key" && k != "Bucket" && k != "MultipartUpload" ==>
        p[k] == Forwarded(data, {"id", "parts"})[k]
      ensures p["Key"] == GetKey(data["id"]) && p["Bucket"] == Str(bucket)
      ensures p["MultipartUpload"] == Object(map["Parts" := data["parts"]])
    {
      var last := map["MultipartUpload" := Object(map["Parts" := data["parts"]])];
      assert last.Keys == {"MultipartUpload"};
      Addressed(Forwarded(data, {"id", "parts"}), data["id"], last)
    }

    /**
     * The checks of `completeMultipartUpload` (lib/service.js:159-163): `id`, an
     * `uploadId` or an `UploadId`, and `parts` are required.
     */
    function CompleteParams(data: Obj): (r: Result<Obj, Failure>)
      ensures r.Ok? <==>
        Truthy(Prop(data, "id")) && (Truthy(Prop(data, "uploadId")) || Truthy(Prop(data, "UploadId")))
        && Truthy(Prop(data, "parts"))
      ensures r.Err? ==> r.error.BadRequest?
      ensures r.Ok? ==> "id" in data && "parts" in data && r.value == CompleteInput(data)
    {
      if !Truthy(Prop(data, "id")) then Err(BadRequest("data.id"))
      else if !Truthy(Prop(data, "uploadId")) && !Truthy(Prop(data, "UploadId")) then Err(BadRequest("data.[U|u]ploadId"))
      else if !Truthy(Prop(data, "parts")) then Err(BadRequest("data.parts"))
      else Ok(CompleteInput(data))
    }

    /**
     * The input of `UploadPart` and `PutObject` (lib/service.js:186-192 and 205-211):
     * the fields of the data but `id` and `buffer`, upper-firsted, then the object key,
     * the bucket, the body and the content type.
     */
    function StoreInput(data: Obj, body: Value): (p: Obj)
      requires "id" in data && "type" in data
      ensures p.Keys == Forwarded(data, {"id", "buffer"}).Keys + {"Key", "Bucket", "Body", "ContentType"}
      ensures forall k :: k in Forwarded(data, {"id", "buffer"}) && k != "Key" && k != "Bucket" && k != "Body" && k != "ContentType" ==>
        p[k] == Forwarded(data, {"id", "buffer"})[k]
      ensures p["Key"] == GetKey(data["id"]) && p["Bucket"] == Str(bucket)
      ensures p["Body"] == body && p["ContentType"] == data["type"]
    {
      var last := map["Body" := body, "ContentType" := data["type"]];
      assert last.Keys == {"Body", "ContentType"} && last["Body"] == body;
      Addressed(Forwarded(data, {"id", "buffer"}), data["id"], last)
    }

    /** A field of the data whose name is already upper-first and not set by the service reaches the input unchanged. */
    lemma StoreKeeps(data: Obj, body: Value, k: string)
      requires "id" in data && "type" in data && k in data && UpperFirst(k) == k
      requires k != "id" && k != "buffer" && k != "Key" && k != "Bucket" && k != "Body" && k != "ContentType"
      ensures k in StoreInput(data, body) && StoreInput(data, body)[k] == data[k]
    {
      ForwardedKeeps(data, {"id", "buffer"}, k);
    }

    /**
     * The checks of `uploadPart` (with `part`) and `putObject` (lib/service.js:179-183
     * and 200-202): `id`, `buffer` and `type` are required, and `UploadId` and
     * `PartNumber` too for a part; the buffer is then decoded into the body.
     */
    function StoreParams(data: Obj, part: bool): (r: Result<Obj, Failure>)
      ensures r.Ok? <==>
        Truthy(Prop(data, "id"))
        && (part ==> Truthy(Prop(data, "UploadId")) && Truthy(Prop(data, "PartNumber")))
        && Truthy(Prop(data, "buffer")) && Truthy(Prop(data, "type"))
        && Body(Prop(data, "buffer")).Ok?
      ensures r.Err? && Body(Prop(data, "buffer")).Ok? ==> r.error.BadRequest?
      ensures r.Ok? ==>
        "id" in data && "type" in data && r.value == StoreInput(data, Body(Prop(data, "buffer")).value)
    {
      if !Truthy(Prop(data, "id")) then Err(BadRequest("data.id"))
      else if part && !Truthy(Prop(data, "UploadId")) then Err(BadRequest("data.UploadId"))
      else if part && !Truthy(Prop(data, "PartNumber")) then Err(BadRequest("data.PartNumber"))
      else if !Truthy(Prop(data, "buffer")) then Err(BadRequest("data.buffer"))
      else if !Truthy(Prop(data, "type")) then Err(BadRequest("data.type"))
      else
        match Body(Prop(data, "buffer"))
        case Err(e) => Err(e)
        case Ok(body) => Ok(StoreInput(data, body))
    }

    /** Validate with `params`, then send one command of `kind`; the reply is keyed by the id field. */
    method Forward(kind: CommandKind, data: Obj, params: Result<Obj, Failure>) returns (r: Result<Obj, Failure>)
      modifies s3
      ensures params.Err? ==> r == Err(params.error) && s3.requests == old(s3.requests)
      ensures params.Ok? ==>
        var request := Send(Command(kind, params.value));
        && s3.requests == old(s3.requests) + [request]
        && r == Keyed(Prop(data, "id"), s3.env.send(old(s3.requests), request))
    {
      if params.Err? {
        return Err(params.error);
      }
      var response := s3.Run(Command(kind, params.value));
      if response.Err? {
        return Err(response.error);
      }
      r := Ok(map[idField := Prop(data, "id")] + response.value);
    }

    /** `createMultipartUpload(data)` (lib/service.js:142-157). */
    method CreateMultipartUploadCall(data: Obj) returns (r: Result<Obj, Failure>)
      modifies s3
      ensures InitiateParams(data).Err? ==> r == Err(InitiateParams(data).error) && s3.requests == old(s3.requests)
      ensures InitiateParams(data).Ok? ==>
        var request := Send(Command(CreateMultipartUpload, InitiateParams(data).value));
        && s3.requests == old(s3.requests) + [request]
        && r == Keyed(Prop(data, "id"), s3.env.send(old(s3.requests), request))
    {
      r := Forward(CreateMultipartUpload, data, InitiateParams(data));
    }

    /** `completeMultipartUpload(data)` (lib/service.js:159-175). */
    method CompleteMultipartUploadCall(data: Obj) returns (r: Result<Obj, Failure>)
      modifies s3
      ensures CompleteParams(data).Err? ==> r == Err(CompleteParams(data).error) && s3.requests == old(s3.requests)
      ensures CompleteParams(data).Ok? ==>
        var request := Send(Command(CompleteMultipartUpload, CompleteParams(data).value));
        && s3.requests == old(s3.requests) + [request]
        && r == Keyed(Prop(data, "id"), s3.env.send(old(s3.requests), request))
    {
      r := Forward(CompleteMultipartUpload, data, CompleteParams(data));
    }

    /** `uploadPart(data)` (lib/service.js:177-196). */
    method UploadPartCall(data: Obj) returns (r: Result<Obj, Failure>)
      modifies s3
      ensures StoreParams(data, true).Err? ==> r == Err(StoreParams(data, true).error) && s3.requests == old(s3.requests)
      ensures StoreParams(data, true).Ok? ==>
        var request := Send(Command(UploadPart, StoreParams(data, true).value));
        && s3.requests == old(s3.requests) + [request]
        && r == Keyed(Prop(data, "id"), s3.env.send(old(s3.requests), request))
    {
      r := Forward(UploadPart, data, StoreParams(data, true));
    }

    /** `putObject(data)` (lib/service.js:198-215). */
    method PutObjectCall(data: Obj) returns (r: Result<Obj, Failure>)
      modifies s3
      ensures StoreParams(data, false).Err? ==> r == Err(StoreParams(data, false).error) && s3.requests == old(s3.requests)
      ensures StoreParams(data, false).Ok? ==>
        var request := Send(Command(PutObject, StoreParams(data, false).value));
        && s3.requests == old(s3.requests) + [request]
        && r == Keyed(Prop(data, "id"), s3.env.send(old(s3.requests), request))
    {
      r := Forward(PutObject, data, StoreParams(data, false));
    }
  }

  /**
   * `new Service(options)`: the options are validated, the S3 client is built from
   * its configuration, and the settings are kept.
   */
  method NewService(options: Option<ServiceOptions>, env: S3Env) returns (r: Result<Service, Failure>)
    ensures Configure(options).Err? ==> r == Err(Configure(options).error)
    ensures Configure(options).Ok? ==>
      var settings := Configure(options).value;
      && r.Ok? && fresh(r.value) && fresh(r.value.s3)
      && r.value.s3.config == settings.client && r.value.s3.env == env && r.value.s3.requests == []
      && r.value.bucket == settings.bucket && r.value.delimiter == settings.delimiter
      && r.value.prefix == settings.prefix && r.value.idField == settings.idField
  {
    var settings := Configure(options);
    if settings.Err? {
      return Err(settings.error);
    }
    var s3 := new S3Client(settings.value.client, env);
    var service := new Service(settings.value, s3);
    r := Ok(service);
  }
}
