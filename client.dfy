/**
 * `getClientService` of lib/client.js: it registers the remote `s3` service on the
 * client application, sets its chunk size (defaulting to, and never below, the
 * 5 MiB minimum part size of S3 multipart uploads) and decorates it with the
 * `upload` and `download` helpers.
 */
module Client {
  import opened Wrappers
  import opened Values
  import opened Transport
  import opened Helpers

  /** 5 MiB, the smallest part S3 accepts in a multipart upload (lib/client.js:23). */
  const MinChunkSize: int := 1024 * 1024 * 5

  /** The remote service a transport opens at a path, as its answers to calls. */
  type Connection = string -> ((seq<Call>, Call) -> Result<Obj, string>)

  /**
   * The options of `getClientService`; a missing `servicePath` is "" and a missing
   * `chunkSize` is 0, both falsy as `undefined` is.
   */
  datatype ClientOptions = ClientOptions(
    transport: Option<Connection>,
    servicePath: string,
    chunkSize: int,
    useProxy: bool,
    fetch: (seq<Call>, Call) -> Result<HttpResponse, string>)

  /** The client application: the services registered on it by path. */
  class App {
    var services: map<string, ClientService>

    constructor ()
      ensures services == map[]
    {
      services := map[];
    }
  }

  /** `options.servicePath || 's3'`. */
  function ServicePath(path: string): (p: string)
    ensures p != ""
    ensures path != "" ==> p == path
    ensures path == "" ==> p == "s3"
  {
    if path != "" then path else "s3"
  }

  /**
   * `options.chunkSize || minChunkSize`: a missing (or zero) chunk size takes the
   * minimum; any other is kept, and the result passes the floor check exactly when
   * the given size is missing or at least the minimum.
   */
  function ChunkSetting(chunkSize: int): (c: int)
    ensures chunkSize == 0 ==> c == MinChunkSize
    ensures chunkSize != 0 ==> c == chunkSize
    ensures c >= MinChunkSize <==> chunkSize == 0 || chunkSize >= MinChunkSize
  {
    if chunkSize != 0 then chunkSize else MinChunkSize
  }

  /**
   * `getClientService(app, options)`. The service is registered on `app` before
   * the chunk size is checked, so a rejected chunk size leaves it registered, with
   * that chunk size and without helpers. On success the returned service is the
   * registered one, its chunk size is at least 5 MiB, and its helpers are bound to
   * it with the requested transfer mode.
   */
  method GetClientService(app: App?, options: ClientOptions) returns (r: Result<ClientService, Failure>)
    modifies app
    ensures app == null ==> r == Err(CallerError("app"))
    ensures app != null && options.transport.None? ==>
      r == Err(CallerError("options.transport")) && app.services == old(app.services)
    ensures app != null && options.transport.Some? ==> ServicePath(options.servicePath) in app.services
    ensures app != null && options.transport.Some? ==>
      var path := ServicePath(options.servicePath);
      var service := app.services[path];
      && app.services == old(app.services)[path := service]
      && fresh(service) && fresh(service.remote)
      && service.remote.env == Env(options.transport.value(path), options.fetch)
      && service.remote.trace == []
      && service.chunkSize == ChunkSetting(options.chunkSize)
      && (r.Ok? <==> service.chunkSize >= MinChunkSize)
      && (r.Err? ==> r.error == CallerError("chunkSize") && service.helpers == null)
      && (r.Ok? ==>
            r.value == service && service.helpers != null && fresh(service.helpers)
            && service.helpers.service == service && service.helpers.proxy == options.useProxy)
  {
    if app == null {
      return Err(CallerError("app"));
    }
    if options.transport.None? {
      return Err(CallerError("options.transport"));
    }
    var path := ServicePath(options.servicePath);
    var remote := new Remote(Env(options.transport.value(path), options.fetch));
    var service := new ClientService(remote);
    app.services := app.services[path := service];
    service.chunkSize := ChunkSetting(options.chunkSize);
    if service.chunkSize < MinChunkSize {
      return Err(CallerError("chunkSize"));
    }
    var helpers := new ClientHelpers(service, options.useProxy);
    service.helpers := helpers;
    r := Ok(service);
  }
}
