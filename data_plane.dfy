/** The data-plane router of src/routers/p2p.ts: the API peers call over mutual
    TLS to ping this node and to deliver messages and blobs.

    The sender of every inbound request is what the certificate-extraction
    collaborator derives from the verified client certificate; like multipart
    decoding and blob storage it is not part of this model, and its outcome is
    an input of the handler (`None` when it throws). Nothing in a request body
    can name the sender. The module-level event emitter is the `events` field;
    `trace` records, in order, every step that is visible from outside: a blob
    stored, a status sent to the peer, an event emitted. */
module DataPlane {
  import opened Common
  import opened Paths

  /** What the emitter publishes to the node's own application. */
  datatype Event =
    | MessageReceived(id: string, sender: string, message: string)
    | BlobReceived(id: string, sender: string, path: string, hash: string, size: int, lastUpdate: int)

  datatype Step =
    | Stored(path: string, file: Bytes)  // storeBlob completed
    | Acked(status: int)                 // res.sendStatus
    | Emitted(event: Event)              // eventEmitter.emit('event', ...)

  /** What a handler passes to `next(err)` when a collaborator throws. */
  datatype Cause = SenderRejected | MultipartFailed | StoreFailed

  datatype Outcome = Acknowledged(status: int) | PassedToNext(cause: Cause)

  /** `path.join(RECEIVED_BLOBS_SUBDIRECTORY, sender, req.params[0])`, taken as
      plain segment concatenation: Node's normalisation of the joined path is
      not part of this model. */
  function ReceivedBlobPath(root: string, sender: string, param: string): (p: string)
  {
    root + "/" + sender + "/" + param
  }

  /** An inbound blob lands under the root, in the directory of its sender. */
  lemma ReceivedPathNamespaced(root: string, sender: string, param: string)
    ensures var p := ReceivedBlobPath(root, sender, param);
            |p| == |root| + |sender| + |param| + 2 && p[..|root| + |sender| + 2] == root + "/" + sender + "/"
            && p[|root| + |sender| + 2..] == param
  {
  }

  /** Two senders whose names hold no '/' never get the same un-normalised
      path. Normalisation can still merge them: it drops the empty segment of
      sender "" and resolves a ".." segment of the request path. */
  lemma SendersSeparated(root: string, s1: string, p1: string, s2: string, p2: string)
    requires '/' !in s1 && '/' !in s2 && s1 != s2
    ensures ReceivedBlobPath(root, s1, p1) != ReceivedBlobPath(root, s2, p2)
  {
    var x1, x2 := ReceivedBlobPath(root, s1, p1), ReceivedBlobPath(root, s2, p2);
    var n := |root| + 1;
    assert forall i :: 0 <= i < |s1| ==> x1[n + i] == s1[i];
    assert forall i :: 0 <= i < |s2| ==> x2[n + i] == s2[i];
    if |s1| < |s2| {
      assert s2[|s1|] in s2;
      assert x1[n + |s1|] == '/' != x2[n + |s1|];
    } else if |s2| < |s1| {
      assert s1[|s2|] in s1;
      assert x2[n + |s2|] == '/' != x1[n + |s2|];
    } else {
      var i :| 0 <= i < |s1| && s1[i] != s2[i];
      assert x1[n + i] != x2[n + i];
    }
  }

  /** The data-plane blob route checks no path: a request path that climbs into
      another sender's directory is one the control-plane check rejects for
      every FILE_KEY, and `ReceiveBlob` stores under it all the same. */
  lemma TraversalUnchecked(fileKey: string -> bool, root: string, sender: string, other: string, rest: string)
    ensures !Accepted(fileKey, ReceivedBlobPath(root, sender, "../" + other + rest))
  {
    var a, b := root + "/" + sender + "/", "/" + other + rest;
    assert ReceivedBlobPath(root, sender, "../" + other + rest) == a + ".." + b;
    DotsAnywhereRejected(fileKey, a, b);
  }

  /** The event announcing a stored blob, built from the storage metadata. */
  function BlobEvent(id: string, sender: string, path: string, meta: Metadata): (e: Event)
    ensures e.BlobReceived? && e.sender == sender && e.path == path
    ensures e.hash == meta.hash && e.size == meta.size && e.lastUpdate == meta.lastUpdate
  {
    BlobReceived(id, sender, path, meta.hash, meta.size, meta.lastUpdate)
  }

  /** The events a trace emitted, in order. */
  function EmittedEvents(trace: seq<Step>): (events: seq<Event>)
  {
    if |trace| == 0 then []
    else EmittedEvents(trace[..|trace| - 1])
         + (if trace[|trace| - 1].Emitted? then [trace[|trace| - 1].event] else [])
  }

  lemma {:induction false} EmittedAppend(a: seq<Step>, b: seq<Step>)
    ensures EmittedEvents(a + b) == EmittedEvents(a) + EmittedEvents(b)
  {
    if |b| > 0 {
      assert (a + b)[..|a + b| - 1] == a + b[..|b| - 1];
      EmittedAppend(a, b[..|b| - 1]);
    } else {
      assert a + b == a;
    }
  }

  /** Every emitted event comes from an `Emitted` step of the trace. */
  lemma {:induction false} EmittedInTrace(trace: seq<Step>, e: Event)
    requires e in EmittedEvents(trace)
    ensures exists k :: 0 <= k < |trace| && trace[k] == Emitted(e)
  {
    var last := |trace| - 1;
    if e in EmittedEvents(trace[..last]) {
      EmittedInTrace(trace[..last], e);
      var k :| 0 <= k < last && trace[..last][k] == Emitted(e);
      assert trace[k] == Emitted(e);
    } else {
      assert trace[last] == Emitted(e);
    }
  }

  /** If step `k` emits a blob event, it comes right after the 204, which comes
      right after the blob under the event's path was stored. */
  ghost predicate BlobStepOrdered(trace: seq<Step>, k: nat)
    requires k < |trace|
  {
    trace[k].Emitted? && trace[k].event.BlobReceived? ==>
      2 <= k && trace[k - 1] == Acked(204) && trace[k - 2].Stored? && trace[k - 2].path == trace[k].event.path
  }

  ghost predicate BlobOrder(trace: seq<Step>)
  {
    forall k: nat :: k < |trace| ==> BlobStepOrdered(trace, k)
  }

  /** If step `k` emits a message event, the 204 follows at once. */
  ghost predicate MessageStepOrdered(trace: seq<Step>, k: nat)
    requires k < |trace|
  {
    trace[k].Emitted? && trace[k].event.MessageReceived? ==> k + 1 < |trace| && trace[k + 1] == Acked(204)
  }

  ghost predicate MessageOrder(trace: seq<Step>)
  {
    forall k: nat :: k < |trace| ==> MessageStepOrdered(trace, k)
  }

  /** Both orderings survive appending one well-ordered run of steps to another. */
  lemma OrderAppend(a: seq<Step>, b: seq<Step>)
    requires BlobOrder(a) && MessageOrder(a) && BlobOrder(b) && MessageOrder(b)
    ensures BlobOrder(a + b) && MessageOrder(a + b)
  {
    var t := a + b;
    forall k: nat | k < |t| ensures BlobStepOrdered(t, k) && MessageStepOrdered(t, k) {
      if k < |a| {
        assert BlobStepOrdered(a, k) && MessageStepOrdered(a, k);
        if 2 <= k {
          assert t[k - 1] == a[k - 1] && t[k - 2] == a[k - 2];
        }
        if k + 1 < |a| {
          assert t[k + 1] == a[k + 1];
        }
      } else {
        var j := k - |a|;
        assert t[k] == b[j];
        assert BlobStepOrdered(b, j) && MessageStepOrdered(b, j);
        if 2 <= j {
          assert t[k - 1] == b[j - 1] && t[k - 2] == b[j - 2];
        }
        if j + 1 < |b| {
          assert t[k + 1] == b[j + 1];
        }
      }
    }
  }

  /** An application that observes a blob event can rely on the blob having
      been stored, and the peer acknowledged, before the event was emitted. */
  lemma ObservedBlobWasStored(trace: seq<Step>, e: Event)
    requires BlobOrder(trace) && e in EmittedEvents(trace) && e.BlobReceived?
    ensures exists k :: 2 <= k < |trace| && trace[k] == Emitted(e) && trace[k - 1] == Acked(204)
                        && trace[k - 2].Stored? && trace[k - 2].path == e.path
  {
    EmittedInTrace(trace, e);
    var k :| 0 <= k < |trace| && trace[k] == Emitted(e);
    assert BlobStepOrdered(trace, k);
  }

  class PeerRouter {
    /** RECEIVED_BLOBS_SUBDIRECTORY of src/lib/utils. */
    const receivedRoot: string
    /** Everything emitted on the module-level event emitter, in order. */
    var events: seq<Event>
    /** Stores, acknowledgments and emissions, in the order they happened. */
    var trace: seq<Step>

    ghost predicate Valid()
      reads this
    {
      EmittedEvents(trace) == events && BlobOrder(trace) && MessageOrder(trace)
    }

    constructor (receivedRoot: string)
      ensures Valid() && this.receivedRoot == receivedRoot && events == [] && trace == []
    {
      this.receivedRoot := receivedRoot;
      events := [];
      trace := [];
    }

    /** HEAD /ping: a 204 and nothing else. */
    method Ping() returns (o: Outcome)
      requires Valid()
      modifies this`trace
      ensures Valid()
      ensures o == Acknowledged(204) && trace == old(trace) + [Acked(204)]
    {
      EmittedAppend(trace, [Acked(204)]);
      assert BlobStepOrdered([Acked(204)], 0) && MessageStepOrdered([Acked(204)], 0);
      OrderAppend(trace, [Acked(204)]);
      trace := trace + [Acked(204)];
      o := Acknowledged(204);
    }

    /** POST /messages: one `message-received` event carrying the certificate's
        sender, emitted before the 204; nothing happens if the sender or the
        message cannot be extracted. */
    method ReceiveMessage(sender: Option<string>, message: Option<string>, id: string) returns (o: Outcome)
      requires Valid()
      modifies this`events, this`trace
      ensures Valid()
      ensures sender.None? ==> o == PassedToNext(SenderRejected) && events == old(events) && trace == old(trace)
      ensures sender.Some? && message.None? ==>
                o == PassedToNext(MultipartFailed) && events == old(events) && trace == old(trace)
      ensures sender.Some? && message.Some? ==>
                var e := MessageReceived(id, sender.value, message.value);
                o == Acknowledged(204) && events == old(events) + [e] && trace == old(trace) + [Emitted(e), Acked(204)]
    {
      if sender.None? {
        return PassedToNext(SenderRejected);
      }
      if message.None? {
        return PassedToNext(MultipartFailed);
      }
      var e := MessageReceived(id, sender.value, message.value);
      var steps := [Emitted(e), Acked(204)];
      EmittedAppend(trace, steps);
      assert EmittedEvents(steps) == [e] by {
        assert steps[..1] == [Emitted(e)] && steps[..1][..0] == [];
        assert EmittedEvents(steps[..1]) == [e];
      }
      assert BlobStepOrdered(steps, 0) && MessageStepOrdered(steps, 0);
      assert BlobStepOrdered(steps, 1) && MessageStepOrdered(steps, 1);
      OrderAppend(trace, steps);
      events := events + [e];
      trace := trace + steps;
      o := Acknowledged(204);
    }

    /** PUT /blobs/<path>: the blob is stored under the sender's directory, then
        the peer gets its 204, then the `blob-received` event is emitted; if
        the sender, the multipart body or the storage fails, no status is sent
        and no event is emitted. The request path is not checked here. */
    method ReceiveBlob(sender: Option<string>, file: Option<Bytes>, param: string, stored: Option<Metadata>, id: string)
      returns (o: Outcome)
      requires Valid()
      modifies this`events, this`trace
      ensures Valid()
      ensures sender.None? ==> o == PassedToNext(SenderRejected) && events == old(events) && trace == old(trace)
      ensures sender.Some? && file.None? ==>
                o == PassedToNext(MultipartFailed) && events == old(events) && trace == old(trace)
      ensures sender.Some? && file.Some? && stored.None? ==>
                o == PassedToNext(StoreFailed) && events == old(events) && trace == old(trace)
      ensures sender.Some? && file.Some? && stored.Some? ==>
                var path := ReceivedBlobPath(receivedRoot, sender.value, param);
                var e := BlobEvent(id, sender.value, path, stored.value);
                o == Acknowledged(204) && events == old(events) + [e]
                && trace == old(trace) + [Stored(path, file.value), Acked(204), Emitted(e)]
    {
      if sender.None? {
        return PassedToNext(SenderRejected);
      }
      if file.None? {
        return PassedToNext(MultipartFailed);
      }
      var blobPath := ReceivedBlobPath(receivedRoot, sender.value, param);
      if stored.None? {
        return PassedToNext(StoreFailed);
      }
      var e := BlobEvent(id, sender.value, blobPath, stored.value);
      var steps := [Stored(blobPath, file.value), Acked(204), Emitted(e)];
      EmittedAppend(trace, steps);
      assert EmittedEvents(steps) == [e] by {
        assert steps[..2][..1][..0] == [];
        assert EmittedEvents(steps[..2][..1]) == [];
        assert EmittedEvents(steps[..2]) == [];
      }
      assert BlobStepOrdered(steps, 0) && MessageStepOrdered(steps, 0);
      assert BlobStepOrdered(steps, 1) && MessageStepOrdered(steps, 1);
      assert BlobStepOrdered(steps, 2) && MessageStepOrdered(steps, 2);
      OrderAppend(trace, steps);
      events := events + [e];
      trace := trace + steps;
      o := Acknowledged(204);
    }
  }
}
