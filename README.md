# feathers-s3 transfer core, modelled in Dafny

feathers-s3 moves binary objects between a Feathers client and an S3 bucket.
The client side (`getClientService` and the `ClientHelpers` it binds onto the
remote `s3` service) uploads a blob in one piece or as a multipart upload in
chunks of at least 5 MiB. Each piece goes either directly, by a PUT to a URL the
service presigns, or relayed, as base64 text handed to the service. Downloads
work the same two ways. The server side (the `Service` class) validates each
call and builds the input of one S3 command from it: object key, bucket, body
and content type.

The model has these modules, one or more per source file:

- `Wrappers`: `Option` and `Result`.
- `Base64`: the RFC 4648 (section 4) alphabet with padding. It covers the
  client's `base64Encode`/`base64Decode` (WHATWG `btoa`/`atob`) and the lenient
  decoder Node's `Buffer.from(s, 'base64')` applies on the server.
- `Values`: JavaScript values and plain objects as maps, truthiness, property
  access, lodash `upperFirst`, `mapKeys`, `omit` and `pick`.
- `Chunker`: the byte ranges the multipart loop cuts.
- `Transport`: the calls the client makes, and the `Remote` object that makes
  them. The transport and `fetch` are functions from the calls made so far and
  the new call to an answer, so every run is determined by its collaborators.
- `Transfer`: each helper as a function from the collaborators and the trace of
  calls so far to its result and the new trace.
- `Protocol`: what the helpers promise, stated over those runs.
- `Helpers`: the `ClientHelpers` class. Its methods are imperative (awaited calls
  one after the other, the part loop with its offset, counter and part list).
  Each is proved to produce exactly the run of module `Transfer`.
- `Client`: `getClientService`, which updates the app's service table and the
  service object in place.
- `S3Service`: the `Service` class of lib/service.js, with the S3 client as a
  collaborator that records the commands sent or presigned.
- `Relay`: lemmas linking the two sides. What the helpers send passes the
  service's checks, and the object key, body, content type, session id and part
  numbers arrive as the client meant them.

## Model

| member | source | states |
|---|---|---|
| Base64.Base64Encode | lib/client-helpers.js:2-10 | the chunked `String.fromCharCode` loop followed by `btoa` yields exactly the RFC 4648 encoding `Encode(bytes)` |
| Base64.Encode | lib/client-helpers.js:9 | the encoding's length is a multiple of four |
| Base64.Btoa | lib/client-helpers.js:9 | `btoa` accepts exactly the strings whose code points are all below 256 and encodes their character codes |
| Base64.Latin1 | lib/client-helpers.js:7 | `String.fromCharCode` of bytes gives one character per byte, with the byte as its code |
| Base64.CharCodes | lib/client-helpers.js:15-16 | `charCodeAt` of each character gives one byte per character, with the character's code |
| Base64.CharCodesOfLatin1 | lib/client-helpers.js:7-16 | the character codes of the text made from bytes are those bytes |
| Base64.Base64Decode | lib/client-helpers.js:12-18 | decoding fails exactly when `atob` rejects the text |
| Base64.Atob | lib/client-helpers.js:14 | whatever `atob` returns is a Latin-1 string |
| Base64.RemoveWhitespace | lib/client-helpers.js:14 | `atob` drops ASCII whitespace: none is left, the text never grows and shrinks whenever it had some, and text without whitespace is unchanged |
| Base64.RemoveWhitespaceAppend | lib/client-helpers.js:14 | dropping whitespace works piece by piece over concatenation, so the non-whitespace characters stay in their order |
| Base64.RemoveWhitespaceOne | lib/client-helpers.js:14 | a single character is dropped exactly when it is ASCII whitespace |
| Base64.AtobEncode | lib/client-helpers.js:9-14 | `atob` of an encoding gives back the Latin-1 text of the encoded bytes |
| Base64.DecodeEncodeSextets | lib/client-helpers.js:2-18 | regrouping 6-bit values into bytes undoes the split of bytes into 6-bit values |
| Base64.Base64RoundTrip | lib/client-helpers.js:2-18 | `base64Decode(base64Encode(b))` is `b` for every byte sequence |
| Base64.NodeRoundTrip | lib/service.js:23-25 | the server's `Buffer.from(s, 'base64')` gives back every byte sequence the client encoded |
| Base64.NodeDecode | lib/service.js:23-25 | the server's `Buffer.from(s, 'base64')` never fails and gives at most three bytes per four characters |
| Values.UpperFirst | lib/service.js:67 | `upperFirst` changes only an ASCII lower-case first letter, to its upper-case form, and keeps the length and the rest |
| Values.UpperFirstIdempotent | lib/service.js:67 | applying `upperFirst` twice is the same as once |
| Values.LowerFirstInverts | lib/service.js:67 | a key that `upperFirst` changes is recovered from its image |
| Values.UpperKeys | lib/service.js:67 | `mapKeys(m, upperFirst)` has exactly the upper-firsted keys of `m` |
| Values.UpperKeysValues | lib/service.js:149 | each value keeps its key if already upper-first, otherwise moves to the upper-firsted key unless that key has a value of its own |
| Values.Omit | lib/service.js:86 | `_.omit` keeps every other key with its value |
| Values.Pick | lib/service.js:107 | `_.pick` keeps exactly the listed keys present, with their values |
| Chunker.SlicesFrom | lib/client-helpers.js:56-65 | the loop's slices from an offset tile the rest of the blob in whole chunks, the last one non-empty and at most a chunk; there are none at the end |
| Chunker.SliceCount | lib/client-helpers.js:56-65 | from an offset there are ceil((size - offset) / chunkSize) slices |
| Chunker.PartCount | lib/client-helpers.js:56-65 | a blob is cut into ceil(size / chunkSize) parts |
| Chunker.Pieces | lib/client-helpers.js:60-63 | each piece is the blob's bytes in the range of its slice |
| Chunker.Reassemble | lib/client-helpers.js:56-73 | the pieces, joined in order, are the blob's bytes from the offset on |
| Chunker.ReassembleAll | lib/client-helpers.js:56-65 | all the slices of a blob, joined in order, give the blob |
| Chunker.TwelveMiBInFiveMiBChunks | lib/client-helpers.js:56-65 | a 12 MiB blob in 5 MiB chunks gives two 5 MiB parts and then one of 2 MiB |
| Transport.ServiceCall | lib/client-helpers.js:53 | a service call appends the call to the trace and fails exactly when the transport rejects it, with the rejection's reason, and otherwise returns the reply unchanged |
| Transport.FetchCall | lib/client-helpers.js:99 | a fetch appends the call to the trace and fails exactly when `fetch` rejects it, with the rejection's reason, and otherwise returns the reply unchanged |
| Transport.Remote.Send | lib/client-helpers.js:53 | the remote records the call and returns what `ServiceCall` gives |
| Transport.Remote.Request | lib/client-helpers.js:99-106 | the remote records the request and returns what `FetchCall` gives |
| Transfer.FirstHeader | lib/client-helpers.js:107 | reading `headers.raw()[name][0]` fails exactly when the header is absent, and otherwise gives its first value |
| Transfer.RelayData | lib/client-helpers.js:92 | the relayed data holds the id, the base64 text of the blob and its type, each unless an option of the same name overrides it, and every option as given |
| Transfer.RelayMethod | lib/client-helpers.js:93 | a relayed part goes to `uploadPart`, anything else to `putObject` |
| Transfer.PartOptions | lib/client-helpers.js:67-71 | a part's options are the caller's with `UploadId` and `PartNumber` set |
| Transfer.NextOffset | lib/client-helpers.js:59-65 | the offset advances by a whole chunk while one fits, otherwise to the end of the blob |
| Transfer.SinglepartRun | lib/client-helpers.js:79-110 | a caller error occurs exactly when command, id, blob or blob type is missing, and then nothing is called; relayed, the one call is `uploadPart`/`putObject` with the relay data; direct, the first call presigns `{command, id, ...options}` |
| Transfer.SinglepartRelayed | lib/client-helpers.js:86-94 | a relayed single-part upload succeeds exactly when the service accepts the relayed call, and answers with the service's reply or its error |
| Transfer.SinglepartPresigned | lib/client-helpers.js:96-109 | a direct single-part upload ends at a failed presign; otherwise its second call PUTs the blob's bytes to the answered `SignedUrl` with Content-Length the blob size and Content-Type the blob type, and it answers `{ETag}` from the first `etag` header, failing exactly when the PUT fails or has no `etag` header |
| Transfer.PartsRun | lib/client-helpers.js:56-73 | the part loop only adds calls to the trace and, with valid id and type, never fails with a caller error |
| Transfer.PartsRecorded | lib/client-helpers.js:56-73 | a successful loop records one part per slice, after the earlier ones, numbered on from the counter |
| Transfer.PartsRunFails | lib/client-helpers.js:67-71 | a failing part stops the loop with that part's error |
| Transfer.PartsRunContinues | lib/client-helpers.js:58-72 | a successful part advances the offset and counter and records `{PartNumber, ETag}` |
| Transfer.FinishRun | lib/client-helpers.js:56-76 | after the loop only calls are added, and no caller error arises |
| Transfer.MultipartRun | lib/client-helpers.js:42-77 | a caller error occurs exactly when id, blob or blob type is missing, and then nothing is called; otherwise the first call initiates the session with id and type |
| Transfer.MultipartRunInitiated | lib/client-helpers.js:53-76 | once `createMultipartUpload` answers, the upload goes on with the part loop and the complete call under the answered `UploadId` |
| Transfer.InitiateCall | lib/client-helpers.js:53 | the initiate call is `createMultipartUpload` with exactly the id and the blob's type |
| Transfer.CompleteCall | lib/client-helpers.js:76 | the complete call is `completeMultipartUpload` with exactly the id, the session id and the recorded parts |
| Transfer.UploadRun | lib/client-helpers.js:33-40 | a missing blob fails on `blob.size`; otherwise a caller error occurs exactly when id or blob type is missing, with nothing called |
| Transfer.DownloadRun | lib/client-helpers.js:112-133 | a caller error occurs exactly when the id is missing; relayed, the one call is `get(id)` and the result is its reply with `buffer` base64-decoded, failing when `atob` rejects it; direct, the first call presigns `{id, command: 'GetObject', ...options}`, then a GET of the answered `SignedUrl`, and the result is the fetched body as `buffer` and the first `content-type` header as `type` |
| Protocol.NumberedAt | lib/client-helpers.js:58 | the k-th expected tag is the session id with part number first + k |
| Protocol.SinglepartSessionFree | lib/client-helpers.js:79-110 | a single-part upload makes no multipart session call |
| Protocol.DirectSessionFree | lib/client-helpers.js:96-109 | the direct path (presign through `create`, then a PUT to the signed URL) makes no multipart session call, whether or not the presign succeeds |
| Protocol.PartsSessionFree | lib/client-helpers.js:56-73 | the part loop makes no session call |
| Protocol.RelayDelivers | lib/client-helpers.js:86-94 | the relayed call carries the blob's bytes once, tagged with the options' session id and part number for a part |
| Protocol.PresignedDelivers | lib/client-helpers.js:96-106 | the presign request and the PUT together carry the blob's bytes once, with the same part tag |
| Protocol.SinglepartDelivers | lib/client-helpers.js:79-110 | a successful single-part upload stores exactly the blob's bytes, in either mode |
| Protocol.PartsStore | lib/client-helpers.js:56-73 | a successful part loop stores the blob's pieces from the offset, in order |
| Protocol.PartsTags | lib/client-helpers.js:56-73 | a successful part loop tags its parts with the session id and numbers counter+1 onwards, with no gap or repeat |
| Protocol.FinishTrace | lib/client-helpers.js:74-76 | the complete call follows a successful loop with the recorded parts, and a failing loop ends the upload without it |
| Protocol.FinishSession | lib/client-helpers.js:56-76 | after initiation there is at most one session call: the last one, completing parts numbered 1..n for the n slices; it is there whenever the upload succeeds |
| Protocol.FinishStore | lib/client-helpers.js:56-76 | a successful finish stores the blob's pieces in order |
| Protocol.FinishTags | lib/client-helpers.js:56-76 | a successful finish tags the parts 1..n with the session id |
| Protocol.MultipartSession | lib/client-helpers.js:42-77 | a multipart upload starts by initiating and makes at most one more session call, the completion, as its last call |
| Protocol.MultipartStore | lib/client-helpers.js:42-77 | a successful multipart upload stores the blob's pieces in order, and these join to the blob |
| Protocol.MultipartTags | lib/client-helpers.js:42-77 | a successful multipart upload numbers its parts 1..ceil(size/chunkSize) under the session id the service issued |
| Protocol.UploadChoice | lib/client-helpers.js:33-40 | the upload is multipart exactly when the blob is larger than the chunk size; otherwise it is one `PutObject` with no session call |
| Protocol.UploadDelivers | lib/client-helpers.js:33-77 | a successful upload stores exactly the blob's bytes, whichever path it takes |
| Protocol.DownloadRelayed | lib/client-helpers.js:117-121 | a relayed reply holding the base64 of some bytes is handed back with exactly those bytes as the buffer |
| Protocol.DownloadDirect | lib/client-helpers.js:124-132 | a successful direct download presigns, then GETs the `SignedUrl` the presign answered, and returns the fetched body as the buffer and its first `content-type` header as the type |
| Helpers.ClientService.constructor | lib/client.js:22-32 | the client service forwards to its remote, and starts with no chunk size and no helpers until `getClientService` sets them |
| Helpers.ClientHelpers.constructor | lib/client-helpers.js:21-31 | the helpers are bound to the service and take the transfer mode from `useProxy` |
| Helpers.ClientHelpers.Upload | lib/client-helpers.js:33-40 | result and new trace are exactly those of `UploadRun` |
| Helpers.ClientHelpers.MultipartUpload | lib/client-helpers.js:42-77 | result and new trace are exactly those of `MultipartRun` |
| Helpers.ClientHelpers.UploadParts | lib/client-helpers.js:49-73 | the loop over offset, part counter and part list yields exactly the `PartsRun` from offset 0 |
| Helpers.ClientHelpers.SinglepartUpload | lib/client-helpers.js:79-110 | result and new trace are exactly those of `SinglepartRun` |
| Helpers.ClientHelpers.Download | lib/client-helpers.js:112-133 | result and new trace are exactly those of `DownloadRun` |
| Client.ServicePath | lib/client.js:12 | the path is the given one, or `s3` when none is given |
| Client.ChunkSetting | lib/client.js:24-25 | the chunk size is the given one, or 5 MiB when none is given; it passes the floor exactly when none is given or the given one is at least 5 MiB |
| Client.GetClientService | lib/client.js:4-35 | no app or no transport is a caller error that registers nothing; otherwise the service is registered first, then gets its chunk size, and only a size of at least 5 MiB gets helpers bound to it |
| S3Service.Reply | lib/service.js:121 | an S3 client error propagates as is, and a success is passed on unchanged |
| S3Service.S3Client.Run | lib/service.js:76 | the command is recorded and the S3 answer returned |
| S3Service.S3Client.Sign | lib/service.js:107 | the presign request is recorded and the presigner's URL returned |
| S3Service.Configure | lib/service.js:31-58 | the constructor fails exactly without options, S3 client, signature version `v4` or bucket; the delimiter defaults to `/` and the id field to `id` |
| S3Service.NewService | lib/service.js:31-58 | a service is built exactly when `Configure` accepts the options, with a fresh S3 client on that configuration and the validated settings |
| S3Service.Body | lib/service.js:23-25 | a text buffer is decoded as Node decodes base64, a byte buffer is kept, anything else is a type error |
| S3Service.Utf8 | lib/service.js:26-28 | the UTF-8 encoding takes between one and four bytes per character |
| S3Service.Utf8Char | lib/service.js:26-28 | ASCII characters take one byte equal to their code; others take a lead byte of at least 0xC0 and continuation bytes |
| S3Service.Utf8OfAscii | lib/service.js:26-28 | ASCII text encodes to its character codes |
| S3Service.Utf8Longer | lib/service.js:26-28 | text with a non-ASCII character encodes to more bytes than it has characters |
| S3Service.Utf8NeverLoneHighByte | lib/service.js:26-28 | no text encodes to the single byte 0xFF |
| S3Service.Service.constructor | lib/service.js:44-57 | the service keeps its S3 client, bucket, delimiter, prefix and id field |
| S3Service.Service.GetKey | lib/service.js:60-62 | without a prefix the key is the id itself; with one, it is a string longer than the id's text (its exact layout is `KeyUnderPrefix`) |
| S3Service.Service.KeyUnderPrefix | lib/service.js:60-62 | with a prefix, the key is the prefix, the delimiter, then the id as text |
| S3Service.Service.KeyInjective | lib/service.js:60-62 | distinct string ids get distinct keys |
| S3Service.Service.FindParams | lib/service.js:66-74 | the listing input has the query's upper-firsted keys and the bucket; with a service prefix, its `Prefix` is the query's under the service prefix, or the service prefix alone |
| S3Service.Service.FindMatchesKeys | lib/service.js:60-74 | with a service prefix, listing by a prefix p looks under the key of p, which is a prefix of the key of every id starting with p |
| S3Service.Service.Find | lib/service.js:64-77 | one `ListObjects` with the `FindParams` input is sent, and its answer returned |
| S3Service.Service.CreateCommand | lib/service.js:79-106 | the command is accepted exactly with an id and a command among `PutObject`, `GetObject`, `UploadPart` (the last with `UploadId` and `PartNumber`); the input is the data without `id`, with the key and bucket overriding |
| S3Service.Service.Create | lib/service.js:79-109 | a rejected command is a bad request with nothing presigned; otherwise the command is presigned with the signing options of the data, and the answer is the id and the `SignedUrl` |
| S3Service.Service.ObjectParams | lib/service.js:116-119 | the input of `get` and `remove` is the object key and the bucket |
| S3Service.Service.Addressed | lib/service.js:148-153 | the key and bucket override the forwarded fields, and the call's own fields override those |
| S3Service.Service.GetResult | lib/service.js:125 | `get` answers the id, the base64 of the UTF-8 encoding of the text read, and the content type |
| S3Service.Service.ExactGetResult | lib/service.js:123-125 | a `get` encoding the object's bytes answers a buffer that decodes back to those bytes |
| S3Service.Service.Get | lib/service.js:111-126 | a falsy id is a bad request with nothing sent; otherwise one `GetObject` on the key, and a body without text is a type error |
| S3Service.Service.Keyed | lib/service.js:138-139 | an S3 error propagates; otherwise the answer has the response's fields with their values, and the id under the id field unless the response has a field of that name |
| S3Service.Service.Remove | lib/service.js:128-140 | a falsy id is a bad request with nothing sent; otherwise one `DeleteObject` on the key, and the answer is `Keyed` by the id |
| S3Service.Service.Forwarded | lib/service.js:149 | the forwarded fields are those of the data minus the dropped ones, upper-firsted |
| S3Service.Service.ForwardedKeeps | lib/service.js:187 | a forwarded field whose name is already upper-first keeps its name and value |
| S3Service.Service.InitiateInput | lib/service.js:148-153 | the input has the forwarded fields, the key of the id, the bucket and `ContentType` set to the data's type |
| S3Service.Service.InitiateParams | lib/service.js:142-145 | `createMultipartUpload` accepts exactly data with an id and a type, and otherwise is a bad request |
| S3Service.Service.CompleteInput | lib/service.js:166-171 | the input has the forwarded fields, the key, the bucket and the parts, unchanged, as `MultipartUpload.Parts` |
| S3Service.Service.CompleteParams | lib/service.js:159-163 | `completeMultipartUpload` accepts exactly data with an id, an `uploadId` or `UploadId`, and parts |
| S3Service.Service.StoreInput | lib/service.js:186-192 | the input has the forwarded fields, the key, the bucket, the decoded body and `ContentType` set to the data's type |
| S3Service.Service.StoreKeeps | lib/service.js:186-192 | a data field named upper-first (such as `UploadId` or `PartNumber`) that the service does not set itself reaches the S3 input with its value |
| S3Service.Service.StoreParams | lib/service.js:177-215 | `uploadPart` (with `UploadId` and `PartNumber`) and `putObject` accept exactly data with an id, a truthy buffer that `Buffer.from` can read, and a type |
| S3Service.Service.Forward | lib/service.js:155-156 | rejected data sends nothing; otherwise one command is sent and its answer is `Keyed` by the data's id |
| S3Service.Service.CreateMultipartUploadCall | lib/service.js:142-157 | rejected data is refused with the check's error and nothing sent; otherwise one `CreateMultipartUpload` with the `InitiateParams` input, and the answer is S3's response `Keyed` by the data's id |
| S3Service.Service.CompleteMultipartUploadCall | lib/service.js:159-175 | rejected data is refused with the check's error and nothing sent; otherwise one `CompleteMultipartUpload` with the `CompleteParams` input, and the answer is S3's response `Keyed` by the data's id |
| S3Service.Service.UploadPartCall | lib/service.js:177-196 | rejected data is refused with the check's error and nothing sent; otherwise one `UploadPart` with the `StoreParams` input, and the answer is S3's response `Keyed` by the data's id |
| S3Service.Service.PutObjectCall | lib/service.js:198-215 | rejected data is refused with the check's error and nothing sent; otherwise one `PutObject` with the `StoreParams` input, and the answer is S3's response `Keyed` by the data's id |
| Relay.EncodedEmpty | lib/client-helpers.js:2-10 | the base64 text of a blob is empty exactly when the blob is |
| Relay.RelayedUpload | lib/service.js:198-215 | a relayed non-empty blob is stored under the key of its id with its own bytes and type; an empty one is refused as a missing buffer |
| Relay.RelayedPart | lib/service.js:177-196 | a non-empty relayed part with a truthy session id and a part number from 1 on is accepted by `uploadPart` and reaches S3 with the client's session id and part number |
| Relay.PresignedCommand | lib/service.js:79-106 | the client's presign request is accepted for the command it names, on the key of its id |
| Relay.PresignedDownload | lib/client-helpers.js:124 | the download's presign request is accepted as a `GetObject` on the key of its id |
| Relay.InitiateAccepted | lib/service.js:142-153 | the client's initiate call is accepted, for the key of its id and the blob's type |
| Relay.CompleteAccepted | lib/service.js:159-171 | the client's complete call is accepted exactly when the session id is set, and hands over the recorded parts unchanged |
| Relay.ServedDownload | lib/service.js:111-126 | a relayed download served by `get` hands back the UTF-8 encoding of the text S3 read |
| Relay.RelayedDownloadLossy | lib/service.js:123-125 | an object made of the single byte 0xFF never comes back intact from a relayed download |
| Relay.ExactDownload | lib/service.js:123-125 | with `get` encoding the object's bytes, a relayed download hands back exactly those bytes |

## Left out

- The S3 SDK, the presigner, the Feathers transport, `app.use` and `fetch` are not modelled. They appear as functions from the calls made so far to an answer; a rejected promise is `Thrown`.
- Custom `atob`, `btoa` and `fetch` options of `ClientHelpers` and `Service` are left out. The model uses the defaults and `options.fetch` as the fetch collaborator.
- `debug` options and logging, service events, lib/middlewares.js, lib/client.helpers.js, lib/index.js and the type declarations are not part of this model.
- JavaScript coercions are not modelled in general: a missing string is `""` and a missing number is 0, both falsy. NaN, non-numeric or fractional chunk sizes, and blobs given as anything but bytes with a type, are left out.
- Helpers.ClientHelpers.Upload: requires a positive chunk size, which every service built by `getClientService` has (at least 5 MiB); a zero or negative size never ends the source loop.
- Helpers.ClientHelpers.MultipartUpload: requires a positive chunk size, for the same reason.
- Helpers.ClientHelpers.UploadParts: requires a positive chunk size, for the same reason.
- Client.GetClientService: the `service not found` check (lib/client.js:19-21) is left out, because `app.service` always returns the service just registered.
- `params` is forwarded to each service call in the source; the model drops it, since the helpers never read it.
- S3Service.Service.Get: the response body is modelled as the text `transformToString` returns; the decoding of object bytes as UTF-8 belongs to the S3 SDK and is not modelled.
- S3Service.Service.GetResult: `Buffer.from(text)` is modelled as UTF-8 over Unicode scalar values; lone surrogates are not modelled.
- `Values.UpperKeys`: when two keys differ only in the case of their first letter, lodash keeps the one enumerated last; the model keeps the one already upper-first, since key order is not modelled.
- Values.UpperFirst: only the ASCII letters a-z are upper-cased. lodash applies `toUpperCase` to the first code point, so `élan` becomes `Élan` and `ßx` becomes `SSx`, which changes the length. Every key the core sets or reads is ASCII.
- The delivery and tag lemmas of `Protocol` (`SinglepartDelivers`, `UploadDelivers`, `MultipartStore`, `MultipartTags` and those they build on) require that the caller's options hold no `command` and no `buffer`. In the source `...options` comes last and would override both (lib/client-helpers.js:92 and 97), so such options change what is presigned or stored. The `Relay` lemmas likewise require no `id`, `buffer`, `type` or `command` among the options, for the same reason.
- Chunker and the multipart loop work on bytes, not on `Blob` objects: `blob.slice` is a subsequence and `blob.size` its length.

Behaviour of the code worth noting:

- An empty payload cannot be relayed. A zero-length blob takes the single-part path. In relayed mode its base64 text is `""`, which `putObject` rejects as a missing buffer (`Relay.RelayedUpload`). In direct mode the empty PUT goes through.
- The chunk-size floor is checked after the service is registered on the app. A rejected chunk size leaves the service registered, without helpers (`Client.GetClientService`).
- A failed part stops the upload and leaves the session open; no abort call exists in the code (`Transfer.PartsRunFails`).

## Findings

| source | as written | input that shows it | evidently intended | confidence | as-written member | corrected member |
|---|---|---|---|---|---|---|
| lib/service.js:123-125 | `get` reads the object body as UTF-8 text and returns the base64 of that text's UTF-8 encoding | an object whose content is the single byte 0xFF: no text encodes to it, so a relayed download never hands it back | the base64 of the object's own bytes, so a relayed upload then download returns the payload byte for byte | medium, not executed | Relay.RelayedDownloadLossy | Relay.ExactDownload |
