/**
 * The collaborators the client helpers talk to: the remote feathers service
 * (reached through the configured transport) and `fetch`. Neither is modelled
 * beyond its interface: each call is appended to a trace, and the answer is an
 * arbitrary function of the calls made so far and of the call itself, so that
 * UploadIds, SignedUrls and ETags are opaque.
 */
module Transport {
  import opened Wrappers
  import opened Base64
  import opened Values

  /** The custom methods the client declares on the service (lib/client.js:15). */
  datatype ServiceMethod =
    | Create
    | Get
    | Remove
    | CreateMultipartUpload
    | CompleteMultipartUpload
    | UploadPart
    | PutObject

  /** The two requests `fetch` is used for: PUT of a blob and GET of an object. */
  datatype HttpRequest =
    | PutRequest(body: seq<byte>, contentLength: nat, contentType: string)
    | GetRequest

  /** A response: the header lists of `headers.raw()` and the body bytes. */
  datatype HttpResponse = HttpResponse(headers: map<string, seq<string>>, body: seq<byte>)

  datatype Call =
    | Invoke(op: ServiceMethod, data: Obj)     // service.<method>(data, params)
    | GetById(id: Value)                         // service.get(id, params)
    | Fetch(url: Value, request: HttpRequest)    // fetch(url, init)

  /**
   * How the collaborators answer: the service with an object or a thrown error,
   * `fetch` with a response or a rejection.
   */
  datatype Env = Env(
    service: (seq<Call>, Call) -> Result<Obj, string>,
    fetch: (seq<Call>, Call) -> Result<HttpResponse, string>)

  /** What a sequence of awaited calls produces: a value or an error, and the trace. */
  datatype Outcome<+T> = Outcome(result: Result<T, Failure>, trace: seq<Call>)

  /** One awaited service call: it is recorded, and a thrown error propagates as is. */
  function ServiceCall(env: Env, trace: seq<Call>, c: Call): (o: Outcome<Obj>)
    ensures o.trace == trace + [c]
    ensures o.result.Err? <==> env.service(trace, c).Err?
    ensures o.result.Err? ==> o.result.error == Thrown(env.service(trace, c).error)
    ensures o.result.Ok? ==> o.result.value == env.service(trace, c).value
  {
    match env.service(trace, c)
    case Ok(reply) => Outcome(Ok(reply), trace + [c])
    case Err(reason) => Outcome(Err(Thrown(reason)), trace + [c])
  }

  /** One awaited `fetch`: it is recorded, and a rejection propagates as is. */
  function FetchCall(env: Env, trace: seq<Call>, c: Call): (o: Outcome<HttpResponse>)
    ensures o.trace == trace + [c]
    ensures o.result.Err? <==> env.fetch(trace, c).Err?
    ensures o.result.Err? ==> o.result.error == Thrown(env.fetch(trace, c).error)
    ensures o.result.Ok? ==> o.result.value == env.fetch(trace, c).value
  {
    match env.fetch(trace, c)
    case Ok(response) => Outcome(Ok(response), trace + [c])
    case Err(reason) => Outcome(Err(Thrown(reason)), trace + [c])
  }

  /** The remote end as an object: the calls made through it so far. */
  class Remote {
    const env: Env
    var trace: seq<Call>

    constructor (env: Env)
      ensures this.env == env && trace == []
    {
      this.env := env;
      trace := [];
    }

    method Send(c: Call) returns (r: Result<Obj, Failure>)
      modifies this
      ensures Outcome(r, trace) == ServiceCall(env, old(trace), c)
    {
      var o := ServiceCall(env, trace, c);
      r := o.result;
      trace := trace + [c];
    }

    method Request(c: Call) returns (r: Result<HttpResponse, Failure>)
      modifies this
      ensures Outcome(r, trace) == FetchCall(env, old(trace), c)
    {
      var o := FetchCall(env, trace, c);
      r := o.result;
      trace := trace + [c];
    }
  }
}
