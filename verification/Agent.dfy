/** The parts of the agent put together. */
module Agent {
  import opened Wrappers
  import opened Session
  import opened Link
  import opened Dispatch
  import opened RpcClient
  import FinalWait
  import Network

  /** How the sanitiser's loop serves its queue over a connection, as the pipeline sees it. */
  function SanitiserOver(c: Codec, l: Link, client: string, w: World, docs: seq<Doc>): Network.Sanitiser {
    var (l1, taken, blocked) := Drain(c, l, client, w, docs);
    if blocked then Network.BlocksAfter(taken) else Network.Drains
  }

  /** The documents of the requests, as the client sends them. */
  function Docs(results: seq<ScanResult>, solutions: seq<Solution>): (ds: seq<Doc>)
    ensures |ds| == |Wanted(results, solutions)|
  {
    var reqs := SanitizeAll(Wanted(results, solutions));
    seq(|reqs|, i requires 0 <= i < |reqs| => Doc(reqs[i].path, reqs[i].action, reqs[i].detection, reqs[i].destModule))
  }

  /**
   On Windows, over a connection that stays open, the ping before the first document never returns:
   the dispatcher gets stuck exactly when more than 101 requests are wanted, and in no case does a
   document reach the server.
   */
  lemma OpenConnectionBound(c: Codec, client: string, w: World,
                            solutions: seq<Solution>, enableHardening: bool, results: seq<ScanResult>)
    requires c.Lawful() && StaysOpen(w) && Wanted(results, solutions) != []
    ensures var docs := Docs(results, solutions);
            var config := Network.Wiring(solutions, enableHardening, true, SanitiserOver(c, FRESH, client, w, docs));
            && ((exists steps, n :: Network.Reached(config, results, steps, n) && Network.Stuck(config, n))
                <==> |Wanted(results, solutions)| > 101)
            && NoDocuments(Drain(c, FRESH, client, w, docs).0)
  {
    var docs := Docs(results, solutions);
    FreshIsSettled(c);
    FirstDocumentBlocks(c, FRESH, client, w, docs);
    NoDocumentIsEverSent(c, FRESH, client, w, docs);
    Network.AgentDeadlockBound(solutions, enableHardening, true, SanitiserOver(c, FRESH, client, w, docs), results);
  }

  /**
   The agent itself hangs from the first wanted request on: main's last wait is for the sanitiser too,
   so no schedule gets past it.
   */
  lemma OpenConnectionHangs(c: Codec, client: string, w: World, solutions: seq<Solution>, enableHardening: bool,
                            results: seq<ScanResult>, ends: bool)
    requires c.Lawful() && StaysOpen(w) && Wanted(results, solutions) != []
    ensures var sanitiser := SanitiserOver(c, FRESH, client, w, Docs(results, solutions));
            var u := FinalWait.Setup(solutions, enableHardening, true, sanitiser, ends);
            forall steps, a :: FinalWait.Reached(u, results, steps, a) ==> !a.over
  {
    var docs := Docs(results, solutions);
    FreshIsSettled(c);
    FirstDocumentBlocks(c, FRESH, client, w, docs);
    FinalWait.FinalWaitExactly(
      FinalWait.Setup(solutions, enableHardening, true, SanitiserOver(c, FRESH, client, w, docs), ends), results);
  }

  /** After a drained queue: the two reads of the request to terminate return, and the helper process exits. */
  predicate EndsOver(c: Codec, l: Link, client: string, w: World, docs: seq<Doc>, helperExits: bool) {
    var l1 := Drain(c, l, client, w, docs).0;
    helperExits && !SendAndReadAgain(c, l1, w, ControlRequest(c, client, w(l1.acts).now, "quit")).1.Blocked?
  }

  /** The first attempt to connect that succeeds. */
  predicate FirstPipe(dials: seq<Pipe?>, i: nat) {
    i < |dials| && dials[i] != null && forall k :: 0 <= k < i ==> dials[k] == null
  }

  /**
   The sanitiser goroutine. `launched`: the client got its id and started the helper process. It
   returns before its loop exactly when that failed or no attempt to connect succeeds; otherwise its
   loop serves the queue over the first pipe, and no document is ever written to a fresh pipe. `ends`:
   it returns in the end, which after a drained queue also needs the helper process to exit.
   */
  method StartSanitizer(c: Codec, clientID: string, launched: bool, dials: seq<Pipe?>, queue: seq<Doc>,
                        helperExits: bool)
    returns (served: Network.Sanitiser, ends: bool, ghost i: nat)
    requires |dials| == 3
    modifies dials
    ensures served.ReturnsEarly? <==> !launched || forall i :: 0 <= i < 3 ==> dials[i] == null
    ensures !served.ReturnsEarly? ==>
              && FirstPipe(dials, i)
              && served == SanitiserOver(c, old(dials[i].link), clientID, dials[i].world, queue)
              && (c.Lawful() && old(dials[i].link) == FRESH ==> NoDocuments(dials[i].link))
    ensures ends <==>
              || served.ReturnsEarly?
              || (served.Drains? && EndsOver(c, old(dials[i].link), clientID, dials[i].world, queue, helperExits))
  {
    i := 0;
    if !launched {
      return Network.ReturnsEarly, true, i;
    }
    var rpcCli := new Client(clientID, c);
    var ok := rpcCli.Connect(dials);
    if !ok {
      return Network.ReturnsEarly, true, i;
    }
    i :| FirstPipe(dials, i) && rpcCli.currConn == dials[i];
    FreshIsSettled(c);
    var taken, blocked := rpcCli.DrainQueue(queue);
    if blocked {
      return Network.BlocksAfter(taken), false, i;
    }
    var ended := rpcCli.RequestTerminateAndDisconnect();
    ends := helperExits && !ended.Blocked?;
    served := Network.Drains;
  }
}
