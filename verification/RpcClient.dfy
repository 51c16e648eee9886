/** The client object of `rpc_client.go`. */
module RpcClient {
  import opened Wrappers
  import opened Session
  import opened Link

  /** A dialled pipe, with what will happen on it before each action of the client. */
  class Pipe {
    var link: Link
    const world: World

    constructor (link: Link, world: World)
      ensures this.link == link && this.world == world
    {
      this.link, this.world := link, world;
    }
  }

  /** `ConnClose` refuses whenever there is a connection and dereferences nil when there is none. */
  datatype CloseOutcome = Refused | NilDereference

  class Client {
    var currConn: Pipe?
    var connected: bool
    const clientID: string
    const codec: Codec

    ghost predicate Valid()
      reads this
    {
      connected ==> currConn != null
    }

    /** Nothing is pending on the current connection. */
    ghost predicate Quiet()
      requires currConn != null
      reads this, currConn
    {
      codec.Lawful() && Sound(codec, currConn.link) && Settled(currConn.link)
    }

    constructor (clientID: string, codec: Codec)
      ensures Valid() && !connected && currConn == null
      ensures this.clientID == clientID && this.codec == codec
    {
      this.clientID, this.codec := clientID, codec;
      currConn, connected := null, false;
    }

    /** Up to three attempts; the first that succeeds is kept. `null` is a failed attempt. */
    method Connect(dials: seq<Pipe?>) returns (ok: bool)
      requires |dials| == 3 && Valid()
      requires forall i :: 0 <= i < 3 && dials[i] != null ==> dials[i] != currConn
      modifies this, currConn
      ensures Valid() && ok == connected
      ensures ok <==> exists i :: 0 <= i < 3 && dials[i] != null
      ensures ok ==> exists i :: 0 <= i < 3 && currConn == dials[i] && forall k :: 0 <= k < i ==> dials[k] == null
      ensures !ok ==> currConn == old(currConn)
      ensures old(currConn) != null ==> old(currConn).link == old(currConn.link).(dead := true)
    {
      if currConn != null {
        currConn.link := currConn.link.(dead := true);
      }
      connected := false;
      for i := 0 to 3
        invariant forall k :: 0 <= k < i ==> dials[k] == null
        invariant !connected && currConn == old(currConn)
        invariant old(currConn) != null ==> old(currConn).link == old(currConn.link).(dead := true)
      {
        var conn := dials[i];
        if conn == null {
          continue;
        }
        currConn := conn;
        connected := true;
        return true;
      }
      return false;
    }

    method ProcRespData() returns (r: Result)
      requires Valid()
      modifies currConn
      ensures Valid() && connected == old(connected) && currConn == old(currConn)
      ensures !connected ==> r.Failed? && (currConn != null ==> currConn.link == old(currConn.link))
      ensures connected ==> (currConn.link, r) == Read(codec, old(currConn.link), currConn.world)
    {
      if !connected {
        return Failed;
      }
      if currConn.link.dead {
        return Failed;
      }
      var fails := currConn.world(currConn.link.acts).fails;
      currConn.link := Wait(codec, currConn.link, currConn.world);
      var l := currConn.link;
      if fails {
        currConn.link := l.(dead := true);
        return Failed;
      }
      if |l.got| < |l.conn.out| {
        var resp := l.conn.out[|l.got|];
        currConn.link := l.(got := l.got + [resp]);
        return Done(resp);
      }
      if l.conn.ended {
        currConn.link := l.(dead := true);
        return Failed;
      }
      return Blocked;
    }

    /** What `SendControlMessage` and `SendSanitizeMessage` share: write the request, read one line. */
    method SendRequest(req: Request) returns (r: Result)
      requires Valid() && connected
      modifies currConn
      ensures Valid() && connected && currConn == old(currConn)
      ensures (currConn.link, r) == Send(codec, old(currConn.link), currConn.world, req)
    {
      var fails := currConn.world(currConn.link.acts).fails;
      currConn.link := Wait(codec, currConn.link, currConn.world);
      if fails {
        return Failed;
      }
      currConn.link := currConn.link.(written := currConn.link.written + [req]);
      r := ProcRespData();
    }

    method SendControlMessage(action: string) returns (r: Result)
      requires Valid()
      modifies currConn
      ensures Valid() && connected == old(connected) && currConn == old(currConn)
      ensures !connected ==> r.Failed?
      ensures connected ==>
                var now := currConn.world(old(currConn.link.acts)).now;
                && (currConn.link, r)
                   == Send(codec, old(currConn.link), currConn.world, ControlRequest(codec, clientID, now, action))
                && (old(Quiet()) && r.Done? ==> Quiet() && r.resp.client == clientID && r.resp.id == now)
    {
      if !connected {
        return Failed;
      }
      ghost var before := currConn.link;
      var now := currConn.world(currConn.link.acts).now;
      r := SendRequest(ControlRequest(codec, clientID, now, action));
      if old(Quiet()) {
        SendReadsItsOwn(codec, before, currConn.world, ControlRequest(codec, clientID, now, action));
      }
    }

    method SendSanitizeMessage(d: Doc) returns (r: Result)
      requires Valid()
      modifies currConn
      ensures Valid() && connected == old(connected) && currConn == old(currConn)
      ensures !connected ==> r.Failed?
      ensures connected ==>
                var now := currConn.world(old(currConn.link.acts)).now;
                && (currConn.link, r)
                   == Send(codec, old(currConn.link), currConn.world, SanitizeRequest(codec, clientID, now, d))
                && (old(Quiet()) && r.Done? ==> Quiet() && r.resp.client == clientID && r.resp.id == now)
    {
      if !connected {
        return Failed;
      }
      ghost var before := currConn.link;
      var now := currConn.world(currConn.link.acts).now;
      r := SendRequest(SanitizeRequest(codec, clientID, now, d));
      if old(Quiet()) {
        SendReadsItsOwn(codec, before, currConn.world, SanitizeRequest(codec, clientID, now, d));
      }
    }

    method PingServer() returns (r: Result)
      requires Valid()
      modifies currConn
      ensures Valid() && connected == old(connected) && currConn == old(currConn)
      ensures !connected ==> r.Failed?
      ensures connected ==> (currConn.link, r) == Ping(codec, old(currConn.link), clientID, currConn.world)
      ensures connected && old(Quiet()) ==> !r.Done?
    {
      if currConn == null || !connected {
        return Failed;
      }
      ghost var before := currConn.link;
      r := SendControlMessage("ping");
      if r.Done? {
        r := ProcRespData();
        if r.Done? && r.resp.text != "pong" {
          r := Failed;
        }
      }
      if old(Quiet()) {
        PingNeverSucceeds(codec, before, clientID, currConn.world);
      }
    }

    /** The guard is inverted: with a connection the call is refused, without one it fails harder. */
    method ConnClose() returns (outcome: CloseOutcome)
      requires Valid()
      ensures outcome == if currConn != null then Refused else NilDereference
    {
      if currConn != null || connected {
        return Refused;
      }
      return NilDereference;
    }

    /** The quit request is answered once and read for twice; the connection is left as it is. */
    method RequestTerminateAndDisconnect() returns (r: Result)
      requires Valid()
      modifies currConn
      ensures Valid() && connected == old(connected) && currConn == old(currConn)
      ensures !connected ==> r.Failed?
      ensures connected ==>
                var now := currConn.world(old(currConn.link.acts)).now;
                (currConn.link, r) == SendAndReadAgain(codec, old(currConn.link), currConn.world,
                                                       ControlRequest(codec, clientID, now, "quit"))
      ensures connected && old(Quiet()) ==> !r.Done?
      ensures connected && old(NoDocuments(currConn.link)) ==> NoDocuments(currConn.link)
    {
      if !connected {
        return Failed;
      }
      ghost var before, now := currConn.link, currConn.world(currConn.link.acts).now;
      r := SendControlMessage("quit");
      if r.Done? {
        r := ProcRespData();
      }
      if old(Quiet()) {
        SecondReadNeverSucceeds(codec, before, currConn.world, ControlRequest(codec, clientID, now, "quit"));
      }
      if r.Done? {
        var _ := ConnClose();
      }
    }

    /** The body of the loop: a ping, and the document after a successful one. */
    method OfferDocument(d: Doc) returns (r: Result)
      requires Valid() && connected
      modifies currConn
      ensures Valid() && connected && currConn == old(currConn)
      ensures (currConn.link, r) == Offer(codec, old(currConn.link), clientID, currConn.world, d)
    {
      r := PingServer();
      if !r.Done? {
        return;
      }
      r := SendSanitizeMessage(d);
    }

    /** The loop of `StartSanitizer` itself. */
    method ServeQueue(queue: seq<Doc>) returns (taken: nat, blocked: bool)
      requires Valid() && connected
      modifies currConn
      ensures Valid() && connected && currConn == old(currConn)
      ensures (currConn.link, taken, blocked) == Drain(codec, old(currConn.link), clientID, currConn.world, queue)
    {
      taken, blocked := 0, false;
      ghost var before, w, rest := currConn.link, currConn.world, queue;
      ghost var all := Drain(codec, before, clientID, w, queue);
      while taken < |queue|
        invariant taken <= |queue| && connected && currConn == old(currConn) && rest == queue[taken..]
        invariant Drain(codec, currConn.link, clientID, w, rest) == (all.0, all.1 - taken, all.2)
      {
        DrainFirst(codec, currConn.link, clientID, w, rest);
        var vObj := queue[taken];
        assert rest[0] == vObj && rest[1..] == queue[taken + 1..];
        rest := rest[1..];
        taken := taken + 1;
        var r := OfferDocument(vObj);
        if r.Blocked? {
          blocked := true;
          break;
        }
      }
    }

    /** How many documents the loop takes, whether it blocks on the last, and that it sends none. */
    method DrainQueue(queue: seq<Doc>) returns (taken: nat, blocked: bool)
      requires Valid() && connected
      modifies currConn
      ensures Valid() && connected && currConn == old(currConn)
      ensures (currConn.link, taken, blocked) == Drain(codec, old(currConn.link), clientID, currConn.world, queue)
      ensures old(Quiet()) && old(NoDocuments(currConn.link)) ==> NoDocuments(currConn.link)
    {
      DrainKeeps(codec, currConn.link, clientID, currConn.world, queue);
      taken, blocked := ServeQueue(queue);
    }
  }

  lemma DrainKeeps(c: Codec, l: Link, client: string, w: World, docs: seq<Doc>)
    ensures c.Lawful() && Sound(c, l) && Settled(l) && NoDocuments(l) ==> NoDocuments(Drain(c, l, client, w, docs).0)
  {
    if c.Lawful() && Sound(c, l) && Settled(l) && NoDocuments(l) {
      NoDocumentIsEverSent(c, l, client, w, docs);
    }
  }

  /** The loop's first round. */
  lemma DrainFirst(c: Codec, l: Link, client: string, w: World, docs: seq<Doc>)
    requires docs != []
    ensures var (l1, r) := Offer(c, l, client, w, docs[0]);
            if r.Blocked? then Drain(c, l, client, w, docs) == (l1, 1, true)
            else var rest := Drain(c, l1, client, w, docs[1..]);
                 Drain(c, l, client, w, docs) == (rest.0, rest.1 + 1, rest.2)
  {
  }
}
