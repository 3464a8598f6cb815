# Peer data exchange gateway: the two routers, modelled in Dafny

This project models the request-handling core of a node-to-node data exchange
gateway. Each node keeps a roster of trusted peers and exposes two HTTP APIs:

- The control-plane API (`src/routers/api.ts`) serves the node's own
  application. It lists, adds and removes peers, reports which peers answer a
  ping, reads and writes local blobs, and submits outbound messages and blob
  transfers without waiting for delivery.
- The data-plane API (`src/routers/p2p.ts`) serves peers over mutual TLS. It
  answers pings and accepts inbound messages and blobs, each announced to the
  application as an event.

The model has five modules:

- `Common` (`common.dfy`): request-body values, `Option`, blob metadata.
  A JSON body field is `Option<Value>`, where `None` is `undefined`. A string
  stays a `Str`. Any other JSON value is kept as the text `String()` would give
  it, because that text is all a regular expression's `test()` sees.
- `Paths` (`paths.dfy`): the path check of the blob routes. FILE_KEY lives in
  `src/lib/utils`, which is not part of this model. It is a parameter
  `fileKey`, so every property here holds for any FILE_KEY. CONSECUTIVE_DOTS is
  modelled as "two `.` side by side somewhere in the path". That is an
  assumption about a regular expression this model does not see.
- `Roster` (`roster.dfy`): `config.peers` as a `seq<Peer>`, and the
  expressions the handlers use over it (`some`, `find`, append-if-absent,
  `filter`), with their uniqueness and order properties.
- `ControlPlane` (`control_plane.dfy`): the class `ApiRouter`. Its field
  `peers` is the roster. `outbox` records the fire-and-forget calls to the
  outbound senders. `effects` records the awaited certificate, config, CA and
  storage calls, in order. Validation and recipient lookup are pure functions.
  Each handler is a method that returns a `Result<Reply>`.
- `DataPlane` (`data_plane.dfy`): the class `PeerRouter`. Its field `events`
  is the module-level event emitter. `trace` records the visible steps in
  order: blob stored, status sent, event emitted. The object invariant says
  that `events` is exactly what `trace` emitted, and that every blob event
  follows its 204, which follows its store.

Every collaborator outcome is an input of the handler that awaits it. This
covers the certificate write and removal (with its errno), `persistConfig`,
`loadCAs`, the ping probes, multipart decoding, blob storage and retrieval,
and sender extraction from the client certificate. The same goes for the event
queue size and the event ids minted by `uuidV4`.

Some of the code's behaviour is easy to miss. The model keeps it as written:

- `/transfers` checks the path before the recipient. The path check runs on
  the string coercion of whatever JSON value `path` holds.
- PUT `/peers/:name` replies `{status: 'added'}`, not the peer.
- On an existing name, PUT `/peers/:name` keeps the old endpoint, and it still
  writes a newly supplied certificate.
- When `persistConfig` or `loadCAs` throws after the roster was changed, the
  request fails, but the in-memory roster stays changed.
- The data-plane blob route applies no path check.

Error mapping assumptions. The error middleware and `src/lib/request-error`
are not part of this model. A `RequestError` answers with its own status. A
`RequestError` thrown without a status (api.ts line 98) is taken to be 500.
A collaborator's error reaches `next(err)` unchanged, so a `RequestError`
thrown by, say, blob storage answers with its own status; the model carries
that status with the failure. Any other error is taken to be 500
(`HttpStatus`).

## Model

| member | source | states |
|---|---|---|
| `Common.StringOrUndefined` | src/routers/api.ts:122-125 | the request id forwarded is defined exactly when the body's `requestID` is a string, and it is then that string |
| `Common.Text` | src/routers/api.ts:166 | a string path is matched as it is; any other value is matched through its string coercion |
| `Paths.HasConsecutiveDots` | src/routers/api.ts:136 | the CONSECUTIVE_DOTS test, as a scan over the path; `ConsecutiveDotsAt` shows it matches exactly when two `.` stand side by side |
| `Paths.Accepted` | src/routers/api.ts:150 | the path check of the blob routes: FILE_KEY matches and CONSECUTIVE_DOTS does not; `DotsAnywhereRejected` and `BlobKeyAccepted` characterise it |
| `Paths.ConsecutiveDotsAt` | src/routers/api.ts:136 | the CONSECUTIVE_DOTS scan matches exactly when some position holds `.` followed by `.` |
| `Paths.DotsAnywhereRejected` | src/routers/api.ts:136-137 | no path containing `..` anywhere is accepted, whatever FILE_KEY is |
| `Paths.BlobKey` | src/routers/api.ts:135 | the blob key is the route parameter behind a single leading `/` |
| `Paths.BlobKeyAccepted` | src/routers/api.ts:149-151 | a blob key is accepted iff FILE_KEY matches it and the route parameter itself holds no `..` |
| `Paths.PathExamples` | src/routers/api.ts:150-151 | `/foo/../bar` and `/foo..bar` are rejected for every FILE_KEY; `/a/b/c.txt` is accepted iff FILE_KEY matches it |
| `Roster.Has` | src/routers/api.ts:91 | `some`: some entry carries the name; `CountPositive` shows this is a positive count |
| `Roster.Find` | src/routers/api.ts:73 | `find` yields a peer iff some entry has the name, and that peer has the name and is in the roster |
| `Roster.FindFirst` | src/routers/api.ts:118 | `find` yields the first entry carrying the name |
| `Roster.FindUnique` | src/routers/api.ts:172 | with unique names, `find` yields the one entry with that name |
| `Roster.Upsert` | src/routers/api.ts:73-80 | the old roster is kept as a prefix; a present name leaves it unchanged, endpoint included; an absent name appends exactly `{name, endpoint}` at the end; the name is present afterwards |
| `Roster.CountPositive` | src/routers/api.ts:91 | a name occurs (`some`) iff its count is positive |
| `Roster.UniqueCount` | src/routers/api.ts:73-80 | with unique names, each name occurs at most once |
| `Roster.UpsertKeepsUnique` | src/routers/api.ts:73-80 | unique names stay unique after an upsert, and the name then occurs exactly once |
| `Roster.UpsertIdempotent` | src/routers/api.ts:73-80 | a second upsert of the same name changes nothing, whatever endpoint it carries |
| `Roster.Without` | src/routers/api.ts:101 | the `filter` that drops every entry with the name; `WithoutMembers`, `WithoutAppend` and `WithoutCount` say which entries stay and in what order |
| `Roster.WithoutMembers` | src/routers/api.ts:101 | the filter keeps exactly the entries whose name differs |
| `Roster.WithoutAppend` | src/routers/api.ts:101 | the filter distributes over concatenation, so the kept entries keep their relative order |
| `Roster.WithoutCount` | src/routers/api.ts:101 | after the filter the name occurs zero times and every other name as often as before |
| `Roster.WithoutAbsent` | src/routers/api.ts:101 | filtering out a name that is not present leaves the roster unchanged |
| `Roster.WithoutKeepsUnique` | src/routers/api.ts:101 | unique names stay unique after the filter, the name is gone, and exactly one entry was removed when it was present |
| `ControlPlane.HttpStatus` | src/routers/api.ts:56-58 | a RequestError answers its own status, whether the handler or a collaborator threw it; any other error answers 500 |
| `ControlPlane.Resolve` | src/routers/api.ts:118-121 | an endpoint is found iff the recipient is a string naming a peer, and it is the endpoint of such a peer |
| `ControlPlane.ResolveFirst` | src/routers/api.ts:172 | the endpoint found is that of the first peer with the recipient's name |
| `ControlPlane.ValidateMessage` | src/routers/api.ts:112-126 | the message is checked first, then the recipient is checked, then the recipient is looked up, each failing with its own 400; success iff all three pass; the send gets the message, the recipient, its endpoint, and the request id only when it is a string |
| `ControlPlane.ValidateTransfer` | src/routers/api.ts:163-180 | the path must be present, then accepted, then the recipient must be present, then known, each failing with its own 400; success iff all four pass; the send gets the path, the recipient, its endpoint and the request id only when it is a string |
| `ControlPlane.SubmitAfterAdd` | src/routers/api.ts:73-80 | after a peer is added, a message to its name is accepted, and it goes to the given endpoint when the name was new |
| `ControlPlane.ApiRouter.constructor` | src/routers/api.ts:30 | the router starts from the loaded roster with no calls recorded and the invariant holding |
| `ControlPlane.ApiRouter.GetStatus` | src/routers/api.ts:32-59 | there is one entry per peer, in roster order, carrying the peer's name; an entry is available iff its probe was fulfilled; the queue size is reported; fewer outcomes than peers make the request fail |
| `ControlPlane.ApiRouter.ListPeers` | src/routers/api.ts:61-63 | the reply is the roster as it stands, in order |
| `ControlPlane.ApiRouter.PersistAndReload` | src/routers/api.ts:81-83 | the config is persisted with the current roster, then the CAs are reloaded (skipped when persisting throws); either failure is passed on |
| `ControlPlane.ApiRouter.PutPeer` | src/routers/api.ts:65-87 | a missing endpoint is a 400 with no write and no roster change; a failed certificate write leaves the roster alone; otherwise the roster becomes the upsert; calls are recorded in order: certificate, persist, reload; uniqueness is preserved, and the name then occurs exactly once |
| `ControlPlane.ApiRouter.DeletePeer` | src/routers/api.ts:89-108 | an unknown name is a 404 that changes nothing; a removal errno other than ENOENT is a 500 with the roster unchanged; otherwise the roster becomes the filter, the name is gone, and persist then reload follow; uniqueness is preserved |
| `ControlPlane.ApiRouter.PostMessage` | src/routers/api.ts:110-131 | exactly the validated send is appended to the outbox and the reply is `submitted`; on a validation error nothing is sent |
| `ControlPlane.ApiRouter.PostTransfer` | src/routers/api.ts:161-185 | exactly the validated blob send is appended to the outbox and the reply is `submitted`; on a validation error nothing is sent |
| `ControlPlane.ApiRouter.GetBlob` | src/routers/api.ts:133-145 | a rejected path is a 400 and storage is not called; otherwise retrieval of that path is the one call made |
| `ControlPlane.ApiRouter.PutBlob` | src/routers/api.ts:147-159 | a rejected path is a 400; a multipart failure is passed on before storage; otherwise the file is stored under the path and the reply carries what storage returned |
| `ControlPlane.DeleteTwice` | src/routers/api.ts:91-93 | deleting a peer twice makes the second call a 404 |
| `DataPlane.ReceivedBlobPath` | src/routers/p2p.ts:52 | the storage path of an inbound blob, `path.join` of root, sender and request path without normalisation; `ReceivedPathNamespaced` gives its layout |
| `DataPlane.ReceivedPathNamespaced` | src/routers/p2p.ts:52 | an inbound blob's path is the received-blobs root, then the sender, then the request path |
| `DataPlane.SendersSeparated` | src/routers/p2p.ts:50-52 | two different senders whose names hold no `/` never get the same un-normalised storage path |
| `DataPlane.TraversalUnchecked` | src/routers/p2p.ts:52-53 | a request path of the form `../<other>...` gives a storage path the control-plane check rejects for every FILE_KEY, and the data-plane route stores under it with no check |
| `DataPlane.BlobEvent` | src/routers/p2p.ts:55-63 | the blob event has type `blob-received`, the sender and stored path, and the hash, size and last update of the storage metadata |
| `DataPlane.EmittedAppend` | src/routers/p2p.ts:26 | the events emitted by two runs of steps are those of the first run followed by those of the second |
| `DataPlane.EmittedInTrace` | src/routers/p2p.ts:36 | every event on the emitter comes from an emit step of the trace |
| `DataPlane.OrderAppend` | src/routers/p2p.ts:53-55 | the store, ack, emit order and the emit, ack order survive appending one handler's steps |
| `DataPlane.ObservedBlobWasStored` | src/routers/p2p.ts:53-55 | for any blob event on the emitter, its blob was stored and the peer got 204, in that order, just before it |
| `DataPlane.PeerRouter.constructor` | src/routers/p2p.ts:26 | the emitter starts empty with the invariant holding |
| `DataPlane.PeerRouter.Ping` | src/routers/p2p.ts:28-30 | the reply is 204 and nothing else happens |
| `DataPlane.PeerRouter.ReceiveMessage` | src/routers/p2p.ts:32-46 | a failed sender or message extraction passes the error on with no event and no reply; otherwise exactly one `message-received` event with the certificate's sender is emitted, then 204 is sent |
| `DataPlane.PeerRouter.ReceiveBlob` | src/routers/p2p.ts:48-67 | if sender extraction, decoding or storage fails, no reply and no event; otherwise the file is stored under root/sender/path, then 204 is sent, then the `blob-received` event built from the storage metadata is emitted |

## Left out

- Express routing, `res.send`, status codes on the wire, and piping the
  retrieved blob stream into the response (api.ts lines 139-141). These are
  I/O. A reply is the returned value, and a retrieved blob is `BlobStream(path)`.
- The HTTPS agent, the URL of each probe, `axiosWithRetry` and the concurrency
  of `Promise.allSettled`. The settled outcomes are an input of `GetStatus`.
- Concurrency between requests. Each handler runs as one atomic step. A
  roster that changes while `/status` awaits its probes is not modelled. The
  model only shows what happens when fewer outcomes than peers arrive.
- `fs.writeFile`, `fs.rm`, `persistConfig`, `loadCAs` and the certificate file
  path (`<name>.pem` under the data directory). They are recorded as effects
  named by the peer, and their outcomes are inputs.
- `messagesHandler.sendMessage` and `blobsHandler.sendBlob`, `storeBlob` and
  `retreiveBlob`. They are foreign collaborators: sends are recorded in
  `outbox`, the others are inputs.
- Multipart extraction and `extractPeerSenderFromRequest`, whose results are
  inputs.
- The events handler's queue (`getQueueSize`), an input. Event listeners that
  throw inside `emit` are not modelled either.
- `uuidV4` ids, which are inputs.
- The internals of FILE_KEY and CONSECUTIVE_DOTS. FILE_KEY is a parameter, and
  CONSECUTIVE_DOTS is modelled as "contains `..`".
- The value of RECEIVED_BLOBS_SUBDIRECTORY, which is a constructor parameter of
  `PeerRouter`.
- DataPlane.SendersSeparated: holds of the un-normalised path only. Under
  Node's normalisation sender `""` with request path `a/x` and sender `a`
  with `x` both land at `<root>/a/x`, and a `..` segment (see
  `TraversalUnchecked`) reaches another sender's directory.
- Non-string JSON values (`NonString` of `Common.Value`) keep only their `String()` text.
  Two different non-string messages or endpoints with the same text are
  therefore equal in `outbox` and in the roster.
- DataPlane.ReceivedBlobPath: models `path.join` as plain `/`-concatenation
  without Node's normalisation. `SendersSeparated` and
  `ReceivedPathNamespaced` are therefore about the un-normalised path. The
  data-plane handler applies no path check, as in the source. A `..` segment
  in the request path could leave the sender's directory after
  normalisation, and this model does not capture that.
