/** The control-plane router of src/routers/api.ts: the API the node's own
    application uses to manage peers, submit outbound messages and blob
    transfers, read and write local blobs, and ask for the status of all peers.

    Every collaborator the handlers await (certificate files, persistConfig,
    loadCAs, blob storage, multipart decoding, the ping probes) is not part of
    this model: its outcome is an input of the handler, and the calls made are
    recorded in order in `effects`. The outbound senders are called without
    being awaited; the calls are recorded in `outbox`. */
module ControlPlane {
  import opened Common
  import opened Paths
  import opened Roster

  /** Outcome of an awaited `fs` call: it completed, or it threw a system error
      carrying `errno` (never a RequestError). */
  datatype Io = Done | Errno(code: int)

  /** errno of "no such file or directory": the one certificate-removal error
      DELETE /peers/:name tolerates. */
  const ENOENT: int := -2

  /** How an awaited collaborator of src/lib settled: it returned a value, or it
      threw. A thrown RequestError carries its own status; any other error
      carries none. */
  datatype Call<T> = Returned(value: T) | Threw(status: Option<int>)

  /** An error handed to `next(err)`: a RequestError the handler throws itself,
      or an error a collaborator raised, passed on unchanged together with the
      status it carries when it is itself a RequestError. */
  datatype Failure =
    | RequestError(status: int, message: string)
    | Raised(cause: Cause, carried: Option<int>)

  datatype Cause =
    | CertWriteFailed
    | PersistFailed
    | LoadCAsFailed
    | ProbeOutcomeMissing  // `responses[i]` is undefined, so reading `.status` throws
    | RetrieveFailed
    | MultipartFailed
    | StoreFailed

  /** The HTTP status the error middleware answers with: the status of a
      RequestError, whether the handler or a collaborator threw it, and 500 for
      anything else. */
  function HttpStatus(f: Failure): (s: int)
    ensures f.RequestError? ==> s == f.status
    ensures f.Raised? && f.carried.Some? ==> s == f.carried.value
    ensures f.Raised? && f.carried.None? ==> s == 500
  {
    match f
    case RequestError(status, _) => status
    case Raised(_, carried) => if carried.Some? then carried.value else 500
  }

  /** How a ping probe of `Promise.allSettled` settled. */
  datatype Settled = Fulfilled | Rejected

  datatype PeerStatus = PeerStatus(name: string, available: bool)
  datatype StatusReport = StatusReport(messageQueueSize: int, peers: seq<PeerStatus>)

  /** The JSON body a handler sends on success. */
  datatype Reply =
    | Report(status: StatusReport)
    | PeerList(peers: seq<Peer>)
    | Added
    | Removed
    | Submitted
    | BlobStream(path: string)  // the retrieved blob, piped to the response
    | HashReply(hash: Metadata) // `{ hash }`: what the storage collaborator returned

  datatype Result<T> = Ok(value: T) | Err(failure: Failure)

  /** Request bodies; an absent field is `None`. */
  datatype PeerBody = PeerBody(endpoint: Option<Value>, certificate: Option<Value>)
  datatype MessageBody = MessageBody(message: Option<Value>, recipient: Option<Value>, requestID: Option<Value>)
  datatype TransferBody = TransferBody(path: Option<Value>, recipient: Option<Value>, requestID: Option<Value>)

  /** A call to an outbound delivery collaborator, made without awaiting it. */
  datatype Dispatch =
    | SendMessage(message: Value, recipient: Value, endpoint: Value, requestID: Option<string>)
    | SendBlob(path: Value, recipient: Value, endpoint: Value, requestID: Option<string>)

  /** An awaited call to a filesystem, TLS or storage collaborator. */
  datatype Effect =
    | WriteCert(peer: string, certificate: Value)  // fs.writeFile of `<name>.pem`
    | RemoveCert(peer: string)                      // fs.rm of `<name>.pem`
    | PersistConfig(peers: seq<Peer>)               // persistConfig(), with the roster it saves
    | LoadCAs                                       // loadCAs()
    | RetrieveBlob(path: string)
    | StoreBlob(path: string, file: Bytes)

  /** A storage call only ever sees an accepted path. */
  predicate SafeEffect(fileKey: string -> bool, e: Effect)
  {
    match e
    case RetrieveBlob(p) => Accepted(fileKey, p)
    case StoreBlob(p, _) => Accepted(fileKey, p)
    case _ => true
  }

  /** A blob transfer is only ever dispatched for an accepted path. */
  predicate SafeDispatch(fileKey: string -> bool, d: Dispatch)
  {
    d.SendBlob? ==> Accepted(fileKey, Text(d.path))
  }

  /** `config.peers.find(peer => peer.name === recipient)?.endpoint`: strict
      equality, so only a string recipient can name a peer. */
  function Resolve(peers: seq<Peer>, recipient: Value): (r: Option<Value>)
    ensures r.Some? <==> recipient.Str? && Has(peers, recipient.s)
    ensures r.Some? ==> exists i :: 0 <= i < |peers| && peers[i] == Peer(recipient.s, r.value)
  {
    match recipient
    case NonString(_) => None
    case Str(name) =>
      match Find(peers, name)
      case None => None
      case Some(peer) => Some(peer.endpoint)
  }

  /** The endpoint resolved is that of the first peer with the recipient's name. */
  lemma ResolveFirst(peers: seq<Peer>, name: string, i: nat)
    requires i < |peers| && peers[i].name == name
    requires forall j :: 0 <= j < i ==> peers[j].name != name
    ensures Resolve(peers, Str(name)) == Some(peers[i].endpoint)
  {
    FindFirst(peers, name, i);
  }

  /** The checks of POST /messages, in the order the handler makes them. */
  function ValidateMessage(peers: seq<Peer>, body: MessageBody): (r: Result<Dispatch>)
    ensures r.Err? ==> r.failure.RequestError? && HttpStatus(r.failure) == 400
    ensures body.message.None? ==> r == Err(RequestError(400, "Missing message"))
    ensures body.message.Some? && body.recipient.None? ==> r == Err(RequestError(400, "Missing recipient"))
    ensures body.message.Some? && body.recipient.Some? && r.Err? ==> r == Err(RequestError(400, "Unknown recipient"))
    ensures r.Ok? <==> body.message.Some? && body.recipient.Some? && body.recipient.value.Str?
                       && Has(peers, body.recipient.value.s)
    ensures r.Ok? ==> r.value.SendMessage? && r.value.message == body.message.value
                      && r.value.recipient == body.recipient.value
                      && Resolve(peers, body.recipient.value) == Some(r.value.endpoint)
                      && r.value.requestID == StringOrUndefined(body.requestID)
  {
    if body.message.None? then Err(RequestError(400, "Missing message"))
    else if body.recipient.None? then Err(RequestError(400, "Missing recipient"))
    else
      match Resolve(peers, body.recipient.value)
      case None => Err(RequestError(400, "Unknown recipient"))
      case Some(endpoint) =>
        Ok(SendMessage(body.message.value, body.recipient.value, endpoint, StringOrUndefined(body.requestID)))
  }

  /** The checks of POST /transfers, in the order the handler makes them: the
      path before the recipient. */
  function ValidateTransfer(fileKey: string -> bool, peers: seq<Peer>, body: TransferBody): (r: Result<Dispatch>)
    ensures r.Err? ==> r.failure.RequestError? && HttpStatus(r.failure) == 400
    ensures body.path.None? ==> r == Err(RequestError(400, "Missing path"))
    ensures body.path.Some? && !Accepted(fileKey, Text(body.path.value)) ==> r == Err(RequestError(400, "Invalid path"))
    ensures body.path.Some? && Accepted(fileKey, Text(body.path.value)) && body.recipient.None? ==>
              r == Err(RequestError(400, "Missing recipient"))
    ensures body.path.Some? && Accepted(fileKey, Text(body.path.value)) && body.recipient.Some? && r.Err? ==>
              r == Err(RequestError(400, "Unknown recipient"))
    ensures r.Ok? <==> body.path.Some? && Accepted(fileKey, Text(body.path.value))
                       && body.recipient.Some? && body.recipient.value.Str? && Has(peers, body.recipient.value.s)
    ensures r.Ok? ==> r.value.SendBlob? && r.value.path == body.path.value
                      && r.value.recipient == body.recipient.value
                      && Resolve(peers, body.recipient.value) == Some(r.value.endpoint)
                      && r.value.requestID == StringOrUndefined(body.requestID)
  {
    if body.path.None? then Err(RequestError(400, "Missing path"))
    else if !Accepted(fileKey, Text(body.path.value)) then Err(RequestError(400, "Invalid path"))
    else if body.recipient.None? then Err(RequestError(400, "Missing recipient"))
    else
      match Resolve(peers, body.recipient.value)
      case None => Err(RequestError(400, "Unknown recipient"))
      case Some(endpoint) =>
        Ok(SendBlob(body.path.value, body.recipient.value, endpoint, StringOrUndefined(body.requestID)))
  }

  /** Once PUT /peers/:name has added a peer, a message to that name is accepted,
      and it goes to the endpoint given there when the name was new. */
  lemma SubmitAfterAdd(peers: seq<Peer>, name: string, endpoint: Value, message: Value, requestID: Option<Value>)
    ensures var d := ValidateMessage(Upsert(peers, name, endpoint), MessageBody(Some(message), Some(Str(name)), requestID));
            d.Ok? && d.value.recipient == Str(name) && (!Has(peers, name) ==> d.value.endpoint == endpoint)
  {
  }

  /** The effects of `persistConfig()` then `loadCAs()`; loadCAs is not reached
      when persisting throws. */
  function PersistSteps(peers: seq<Peer>, persist: Call<()>): (steps: seq<Effect>)
  {
    [PersistConfig(peers)] + (if persist.Returned? then [LoadCAs] else [])
  }

  /** The response after `persistConfig()` and `loadCAs()`. */
  function PersistOutcome(persist: Call<()>, reload: Call<()>, reply: Reply): (r: Result<Reply>)
  {
    if persist.Threw? then Err(Raised(PersistFailed, persist.status))
    else if reload.Threw? then Err(Raised(LoadCAsFailed, reload.status))
    else Ok(reply)
  }

  /** The certificate write PUT /peers/:name makes when a certificate is given. */
  function CertWrite(name: string, certificate: Option<Value>): (steps: seq<Effect>)
  {
    if certificate.Some? then [WriteCert(name, certificate.value)] else []
  }

  /** The router's view of the process-wide state it reads and changes. */
  class ApiRouter {
    /** The FILE_KEY pattern of src/lib/utils. */
    const fileKey: string -> bool
    /** `config.peers` */
    var peers: seq<Peer>
    /** Fire-and-forget calls to the outbound senders, in order. */
    var outbox: seq<Dispatch>
    /** Awaited collaborator calls, in order. */
    var effects: seq<Effect>

    /** No storage call and no transfer ever got a rejected path. */
    ghost predicate Valid()
      reads this
    {
      && (forall k :: 0 <= k < |effects| ==> SafeEffect(fileKey, effects[k]))
      && (forall k :: 0 <= k < |outbox| ==> SafeDispatch(fileKey, outbox[k]))
    }

    constructor (fileKey: string -> bool, peers: seq<Peer>)
      ensures Valid()
      ensures this.fileKey == fileKey && this.peers == peers && outbox == [] && effects == []
    {
      this.fileKey := fileKey;
      this.peers := peers;
      outbox := [];
      effects := [];
    }

    /** GET /status: one entry per peer, in roster order, available exactly when
        its probe was fulfilled. If fewer outcomes than peers are given, reading
        the missing one throws and the request fails. */
    method GetStatus(queueSize: int, probes: seq<Settled>) returns (r: Result<Reply>)
      ensures r.Ok? <==> |peers| <= |probes|
      ensures r.Err? ==> r.failure == Raised(ProbeOutcomeMissing, None)
      ensures r.Ok? ==> r.value.Report? && r.value.status.messageQueueSize == queueSize
      ensures r.Ok? ==> |r.value.status.peers| == |peers|
      ensures r.Ok? ==> forall i :: 0 <= i < |peers| ==>
                r.value.status.peers[i].name == peers[i].name
                && (r.value.status.peers[i].available <==> probes[i] == Fulfilled)
    {
      var entries: seq<PeerStatus> := [];
      var i := 0;
      while i < |peers|
        invariant i <= |peers| && i <= |probes|
        invariant |entries| == i
        invariant forall k :: 0 <= k < i ==> entries[k] == PeerStatus(peers[k].name, probes[k] == Fulfilled)
      {
        if i == |probes| {
          return Err(Raised(ProbeOutcomeMissing, None));
        }
        entries := entries + [PeerStatus(peers[i].name, probes[i] == Fulfilled)];
        i := i + 1;
      }
      r := Ok(Report(StatusReport(queueSize, entries)));
    }

    /** GET /peers: the roster as it stands, in order. */
    method ListPeers() returns (r: Result<Reply>)
      ensures r.Ok? && r.value.PeerList? && r.value.peers == peers
    {
      r := Ok(PeerList(peers));
    }

    /** persistConfig() then loadCAs(), each of which may throw. */
    method PersistAndReload(persist: Call<()>, reload: Call<()>, reply: Reply) returns (r: Result<Reply>)
      requires Valid()
      modifies this`effects
      ensures Valid()
      ensures effects == old(effects) + PersistSteps(peers, persist)
      ensures r == PersistOutcome(persist, reload, reply)
    {
      effects := effects + [PersistConfig(peers)];
      if persist.Threw? {
        return Err(Raised(PersistFailed, persist.status));
      }
      effects := effects + [LoadCAs];
      if reload.Threw? {
        return Err(Raised(LoadCAsFailed, reload.status));
      }
      r := Ok(reply);
    }

    /** PUT /peers/:name. A missing endpoint fails before anything else happens;
        a given certificate is written next; the peer is appended only if its
        name is new, so an existing peer keeps its endpoint. */
    method PutPeer(name: string, body: PeerBody, writeCert: Io, persist: Call<()>, reload: Call<()>) returns (r: Result<Reply>)
      requires Valid()
      modifies this`peers, this`effects
      ensures Valid()
      ensures UniqueNames(old(peers)) ==> UniqueNames(peers)
      ensures body.endpoint.None? ==>
                r == Err(RequestError(400, "Missing endpoint")) && peers == old(peers) && effects == old(effects)
      ensures body.endpoint.Some? && body.certificate.Some? && writeCert.Errno? ==>
                r == Err(Raised(CertWriteFailed, None)) && peers == old(peers)
                && effects == old(effects) + CertWrite(name, body.certificate)
      ensures body.endpoint.Some? && !(body.certificate.Some? && writeCert.Errno?) ==>
                peers == Upsert(old(peers), name, body.endpoint.value)
                && effects == old(effects) + CertWrite(name, body.certificate) + PersistSteps(peers, persist)
                && r == PersistOutcome(persist, reload, Added)
      ensures body.endpoint.Some? && !(body.certificate.Some? && writeCert.Errno?) && UniqueNames(old(peers)) ==>
                Count(peers, name) == 1
    {
      if body.endpoint.None? {
        return Err(RequestError(400, "Missing endpoint"));
      }
      if body.certificate.Some? {
        effects := effects + [WriteCert(name, body.certificate.value)];
        if writeCert.Errno? {
          return Err(Raised(CertWriteFailed, None));
        }
      }
      if Find(peers, name).None? {
        peers := peers + [Peer(name, body.endpoint.value)];
      }
      if UniqueNames(old(peers)) {
        UpsertKeepsUnique(old(peers), name, body.endpoint.value);
      }
      r := PersistAndReload(persist, reload, Added);
    }

    /** DELETE /peers/:name. An unknown name is a 404 and changes nothing; a
        certificate-removal error other than ENOENT is a 500 and leaves the
        roster alone; otherwise every entry with the name is filtered out. */
    method DeletePeer(name: string, removeCert: Io, persist: Call<()>, reload: Call<()>) returns (r: Result<Reply>)
      requires Valid()
      modifies this`peers, this`effects
      ensures Valid()
      ensures UniqueNames(old(peers)) ==> UniqueNames(peers)
      ensures !Has(old(peers), name) ==>
                r == Err(RequestError(404, "Peer not found")) && peers == old(peers) && effects == old(effects)
      ensures Has(old(peers), name) && removeCert.Errno? && removeCert.code != ENOENT ==>
                r == Err(RequestError(500, "Failed to remove peer certificate")) && peers == old(peers)
                && effects == old(effects) + [RemoveCert(name)]
      ensures Has(old(peers), name) && (removeCert.Done? || removeCert.code == ENOENT) ==>
                peers == Without(old(peers), name) && !Has(peers, name)
                && effects == old(effects) + [RemoveCert(name)] + PersistSteps(peers, persist)
                && r == PersistOutcome(persist, reload, Removed)
    {
      if !Has(peers, name) {
        return Err(RequestError(404, "Peer not found"));
      }
      effects := effects + [RemoveCert(name)];
      if removeCert.Errno? && removeCert.code != ENOENT {
        return Err(RequestError(500, "Failed to remove peer certificate"));
      }
      peers := Without(peers, name);
      WithoutCount(old(peers), name, name);
      CountPositive(peers, name);
      if UniqueNames(old(peers)) {
        WithoutKeepsUnique(old(peers), name);
      }
      r := PersistAndReload(persist, reload, Removed);
    }

    /** POST /messages: on success the message is handed to the sender without
        waiting, and the reply is `submitted` at once. */
    method PostMessage(body: MessageBody) returns (r: Result<Reply>)
      requires Valid()
      modifies this`outbox
      ensures Valid()
      ensures var v := ValidateMessage(peers, body);
              if v.Ok? then r == Ok(Submitted) && outbox == old(outbox) + [v.value]
              else r == Err(v.failure) && outbox == old(outbox)
    {
      var v := ValidateMessage(peers, body);
      if v.Err? {
        return Err(v.failure);
      }
      outbox := outbox + [v.value];
      r := Ok(Submitted);
    }

    /** POST /transfers: like POST /messages, for a stored blob. */
    method PostTransfer(body: TransferBody) returns (r: Result<Reply>)
      requires Valid()
      modifies this`outbox
      ensures Valid()
      ensures var v := ValidateTransfer(fileKey, peers, body);
              if v.Ok? then r == Ok(Submitted) && outbox == old(outbox) + [v.value]
              else r == Err(v.failure) && outbox == old(outbox)
    {
      var v := ValidateTransfer(fileKey, peers, body);
      if v.Err? {
        return Err(v.failure);
      }
      outbox := outbox + [v.value];
      r := Ok(Submitted);
    }

    /** GET /blobs/<path>: a rejected path never reaches storage. */
    method GetBlob(param: string, retrieve: Call<()>) returns (r: Result<Reply>)
      requires Valid()
      modifies this`effects
      ensures Valid()
      ensures !Accepted(fileKey, BlobKey(param)) ==>
                r == Err(RequestError(400, "Invalid path")) && effects == old(effects)
      ensures Accepted(fileKey, BlobKey(param)) ==>
                effects == old(effects) + [RetrieveBlob(BlobKey(param))]
                && r == (if retrieve.Returned? then Ok(BlobStream(BlobKey(param))) else Err(Raised(RetrieveFailed, retrieve.status)))
    {
      var blobPath := BlobKey(param);
      if !Accepted(fileKey, blobPath) {
        return Err(RequestError(400, "Invalid path"));
      }
      effects := effects + [RetrieveBlob(blobPath)];
      if retrieve.Threw? {
        return Err(Raised(RetrieveFailed, retrieve.status));
      }
      r := Ok(BlobStream(blobPath));
    }

    /** PUT /blobs/<path>: path check, then multipart extraction, then storage. */
    method PutBlob(param: string, file: Call<Bytes>, stored: Call<Metadata>) returns (r: Result<Reply>)
      requires Valid()
      modifies this`effects
      ensures Valid()
      ensures !Accepted(fileKey, BlobKey(param)) ==>
                r == Err(RequestError(400, "Invalid path")) && effects == old(effects)
      ensures Accepted(fileKey, BlobKey(param)) && file.Threw? ==>
                r == Err(Raised(MultipartFailed, file.status)) && effects == old(effects)
      ensures Accepted(fileKey, BlobKey(param)) && file.Returned? ==>
                effects == old(effects) + [StoreBlob(BlobKey(param), file.value)]
                && r == (if stored.Returned? then Ok(HashReply(stored.value)) else Err(Raised(StoreFailed, stored.status)))
    {
      var blobPath := BlobKey(param);
      if !Accepted(fileKey, blobPath) {
        return Err(RequestError(400, "Invalid path"));
      }
      if file.Threw? {
        return Err(Raised(MultipartFailed, file.status));
      }
      effects := effects + [StoreBlob(blobPath, file.value)];
      if stored.Threw? {
        return Err(Raised(StoreFailed, stored.status));
      }
      r := Ok(HashReply(stored.value));
    }
  }

  /** Deleting the same peer twice: the second call is a 404 and changes nothing. */
  method DeleteTwice(api: ApiRouter, name: string, persist: Call<()>, reload: Call<()>) returns (first: Result<Reply>, second: Result<Reply>)
    requires api.Valid() && Has(api.peers, name)
    modifies api
    ensures first == PersistOutcome(persist, reload, Removed)
    ensures second == Err(RequestError(404, "Peer not found"))
    ensures !Has(api.peers, name)
  {
    first := api.DeletePeer(name, Done, persist, reload);
    second := api.DeletePeer(name, Errno(ENOENT), persist, reload);
  }
}
