/**
 * The server's shared state and its three handlers, as they run in the
 * source: `history` is the `messageHistory` array that the handlers push
 * onto, `clients` is `wss.clients` with each socket's ready state and the
 * payloads sent to it, and every handler runs to completion before the
 * next one starts. Each method is proved to take exactly the matching
 * `HubSpec.Step`, so the lemmas of `HubSpec` hold of every run of the hub.
 */
module Server {
  import opened Json
  import opened HubSpec

  class Hub {
    var history: seq<Json>
    var clients: map<ClientId, Client>
    var nextId: ClientId
    const codec: Codec

    ghost function State(): HubState
      reads this
    {
      HubState(history, clients, nextId)
    }

    ghost predicate Valid()
      reads this
    {
      WellFormed(State())
    }

    /** The hub at process start: empty history, nobody connected. */
    constructor (codec: Codec)
      ensures Valid() && State() == Initial() && this.codec == codec
    {
      history := [];
      clients := map[];
      nextId := 0;
      this.codec := codec;
    }

    /** `wss.clients.forEach`: send `p` to every client whose ready state
        is OPEN, one client at a time; skip the others. */
    method SendToOpen(p: string)
      modifies this
      ensures clients == Broadcast(old(clients), p)
      ensures history == old(history) && nextId == old(nextId)
    {
      var pending := clients.Keys;
      ghost var start := clients;
      while pending != {}
        invariant pending <= start.Keys == clients.Keys
        invariant forall id :: id in pending ==> clients[id] == start[id]
        invariant forall id :: id in clients && id !in pending ==> clients[id] == Deliver(start[id], p)
        invariant history == old(history) && nextId == old(nextId)
        decreases pending
      {
        var id :| id in pending;
        if clients[id].open {
          clients := clients[id := clients[id].(outbox := clients[id].outbox + [p])];
        }
        pending := pending - {id};
      }
    }

    /** The `/upload` handler: reject a request without a file with 400;
        otherwise store the `file` message, broadcast it, and answer 200. */
    method Upload(file: Option<UploadInfo>) returns (response: Response)
      requires Valid()
      modifies this
      ensures Valid() && State() == Step(codec, old(State()), Event.Upload(file))
      ensures response == UploadResponse(file)
      ensures file.None? ==> history == old(history) && clients == old(clients)
      ensures file.Some? ==>
                && history == old(history) + [FileMessage(file.value)]
                && clients == Broadcast(old(clients), codec.stringify(FileMessage(file.value)))
    {
      if file.None? {
        return Response(400, "No file uploaded.");
      }
      var fileMessage := FileMessage(file.value);
      history := history + [fileMessage];
      SendToOpen(codec.stringify(fileMessage));
      response := Response(200, "File uploaded successfully.");
    }

    /** The `connection` handler: send the new socket every stored message,
        in order, then the welcome. The socket is OPEN while this runs. */
    method Connect() returns (id: ClientId)
      requires Valid()
      modifies this
      ensures Valid() && State() == Step(codec, old(State()), Event.Connect)
      ensures id == old(nextId) && id !in old(clients)
      ensures clients == old(clients)[id := Client(true, Replay(codec, history) + [codec.stringify(Welcome())])]
      ensures history == old(history)
    {
      id := nextId;
      nextId := nextId + 1;
      clients := clients[id := Client(true, [])];
      var i := 0;
      while i < |history|
        invariant 0 <= i <= |history|
        invariant clients == old(clients)[id := Client(true, Replay(codec, history[..i]))]
        invariant history == old(history) && nextId == id + 1
      {
        assert Replay(codec, history[..i + 1]) == Replay(codec, history[..i]) + [codec.stringify(history[i])] by {
          assert history[..i + 1][..i] == history[..i];
        }
        clients := clients[id := clients[id].(outbox := clients[id].outbox + [codec.stringify(history[i])])];
        i := i + 1;
      }
      assert history[..i] == history;
      clients := clients[id := clients[id].(outbox := clients[id].outbox + [codec.stringify(Welcome())])];
    }

    /** The `message` handler of client `from`: parse the payload, store the
        parsed value, and send the raw payload to every OPEN client, the
        sender included. A payload that does not parse makes `ok` false and
        changes nothing. */
    method Receive(from: ClientId, raw: string) returns (ok: bool)
      requires Valid() && from in clients
      modifies this
      ensures Valid() && State() == Step(codec, old(State()), Event.Receive(from, raw))
      ensures ok == codec.parse(raw).Some?
      ensures !ok ==> history == old(history) && clients == old(clients)
      ensures ok ==>
                && history == old(history) + [codec.parse(raw).value]
                && clients == Broadcast(old(clients), raw)
    {
      var parsed := codec.parse(raw);
      if parsed.None? {
        return false;
      }
      history := history + [parsed.value];
      SendToOpen(raw);
      ok := true;
    }

    /** The transport takes a socket out of the OPEN ready state (it starts
        closing, or closes); a socket never returns to OPEN. Nothing else
        changes. */
    method Close(id: ClientId)
      requires Valid()
      modifies this
      ensures Valid() && State() == Step(codec, old(State()), Event.Close(id))
      ensures id in old(clients) ==> clients == old(clients)[id := old(clients)[id].(open := false)]
      ensures id !in old(clients) ==> clients == old(clients)
      ensures history == old(history)
    {
      if id in clients {
        clients := clients[id := clients[id].(open := false)];
      }
    }
  }

  /** A client program of the hub: what its method contracts alone let a
      caller conclude about the scenario of two clients and an upload. */
  method TwoClientsAndAnUpload(codec: Codec, hi: string, report: UploadInfo)
    requires codec.parse(hi) == Some(TextMessage("hi"))
  {
    var hub := new Hub(codec);
    var first := hub.Connect();
    var ok := hub.Receive(first, hi);
    assert ok;
    var second := hub.Connect();
    var response := hub.Upload(Some(report));
    assert response.status == 200;
    var w, f := codec.stringify(Welcome()), codec.stringify(FileMessage(report));
    assert hub.clients[first].outbox == [w, hi, f];
  }
}
