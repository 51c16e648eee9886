/**
 The client's end of a connection, put together with the server's: between any two actions of the
 client the server's reader, its channel of 100 lines and its handler take any steps they can. What
 happens before each action is one `Turn` of a `World`, so quantifying over worlds quantifies over
 schedules, failures and clocks.
 */
module Link {
  import opened Wrappers
  import opened Sequences
  import opened Session

  /** Before an action of the client: the server's steps. Then: whether the action fails, and the clock. */
  datatype Turn = Turn(before: seq<Step>, fails: bool, now: int)

  type World = nat -> Turn

  /**
   Requests written, the server's side, and responses read. `dead`: the client's scanner has stopped
   for good. `acts` counts the client's actions.
   */
  datatype Link = Link(written: seq<Request>, conn: Conn, got: seq<Response>, dead: bool, acts: nat)

  const FRESH := Link([], ACCEPTED, [], false, 0)

  /** What has been written, as the server's scanner splits it. */
  function Lines(c: Codec, rs: seq<Request>): (lines: seq<string>)
    ensures |lines| == |rs| && forall i :: 0 <= i < |rs| ==> lines[i] == c.encode(rs[i])
  {
    seq(|rs|, i requires 0 <= i < |rs| => c.encode(rs[i]))
  }

  /** The server takes those of the steps that it can. */
  function Serve(c: Codec, lines: seq<string>, s: Conn, steps: seq<Step>): Conn {
    if steps == [] then s
    else
      var t := Serve(c, lines, s, steps[..|steps| - 1]);
      if Can(lines, t, steps[|steps| - 1]) then Do(c, lines, t, steps[|steps| - 1]) else t
  }

  /** The server's steps before the client's next action. */
  function Wait(c: Codec, l: Link, w: World): Link {
    l.(conn := Serve(c, Lines(c, l.written), l.conn, w(l.acts).before), acts := l.acts + 1)
  }

  datatype Result = Done(resp: Response) | Failed | Blocked

  /** A write, and whether it succeeded. */
  function Write(c: Codec, l: Link, w: World, r: Request): (Link, bool) {
    var l1 := Wait(c, l, w);
    if w(l.acts).fails then (l1, false) else (l1.(written := l1.written + [r]), true)
  }

  /** `Blocked`: no response yet and the connection open. After a failure the scanner never delivers again. */
  function Read(c: Codec, l: Link, w: World): (Link, Result) {
    if l.dead then (l, Failed)
    else
      var l1 := Wait(c, l, w);
      if w(l.acts).fails then (l1.(dead := true), Failed)
      else if |l1.got| < |l1.conn.out| then
        (l1.(got := l1.got + [l1.conn.out[|l1.got|]]), Done(l1.conn.out[|l1.got|]))
      else if l1.conn.ended then (l1.(dead := true), Failed)
      else (l1, Blocked)
  }

  /** `SendControlMessage` and `SendSanitizeMessage`: one write, one read. */
  function Send(c: Codec, l: Link, w: World, r: Request): (Link, Result) {
    var (l1, written) := Write(c, l, w, r);
    if written then Read(c, l1, w) else (l1, Failed)
  }

  /** `Ping` and `RequestTerminateAndDisconnect` read once more after `SendControlMessage` has read. */
  function SendAndReadAgain(c: Codec, l: Link, w: World, r: Request): (Link, Result) {
    var (l1, first) := Send(c, l, w, r);
    if first.Done? then Read(c, l1, w) else (l1, first)
  }

  /** Message ids are clock readings. */
  function ControlRequest(c: Codec, client: string, now: int, action: string): Request {
    Request(client, now, "control", c.encodeControl(action))
  }

  function SanitizeRequest(c: Codec, client: string, now: int, d: Doc): Request {
    Request(client, now, "sanitize", c.encodeSanitize(d))
  }

  function Ping(c: Codec, l: Link, client: string, w: World): (Link, Result) {
    var (l1, r) := SendAndReadAgain(c, l, w, ControlRequest(c, client, w(l.acts).now, "ping"));
    (l1, if r.Done? && r.resp.text != "pong" then Failed else r)
  }

  /** One document of the queue: a ping, and the request only after a successful one. */
  function Offer(c: Codec, l: Link, client: string, w: World, d: Doc): (Link, Result) {
    var (l1, pong) := Ping(c, l, client, w);
    if pong.Done? then Send(c, l1, w, SanitizeRequest(c, client, w(l1.acts).now, d)) else (l1, pong)
  }

  /** The sanitiser's loop over its queue: how many it takes, and whether it blocks on the last one. */
  function Drain(c: Codec, l: Link, client: string, w: World, docs: seq<Doc>): (Link, nat, bool)
    decreases |docs|
  {
    if docs == [] then (l, 0, false)
    else
      var (l1, r) := Offer(c, l, client, w, docs[0]);
      if r.Blocked? then (l1, 1, true)
      else var (l2, taken, blocked) := Drain(c, l1, client, w, docs[1..]); (l2, taken + 1, blocked)
  }

  // ---------------------------------------------------------------- the two ends fit

  /** The server is somewhere in the lines written, and the client somewhere in its answers. */
  ghost predicate Sound(c: Codec, l: Link) {
    PrefixInv(c, Lines(c, l.written), l.conn) && l.got <= l.conn.out
  }

  lemma {:induction false} ServeKeeps(c: Codec, lines: seq<string>, s: Conn, steps: seq<Step>)
    requires PrefixInv(c, lines, s)
    ensures PrefixInv(c, lines, Serve(c, lines, s, steps)) && s.out <= Serve(c, lines, s, steps).out
    ensures s.at <= Serve(c, lines, s, steps).at
  {
    if steps != [] {
      var n := |steps| - 1;
      ServeKeeps(c, lines, s, steps[..n]);
      var t := Serve(c, lines, s, steps[..n]);
      if Can(lines, t, steps[n]) {
        PrefixStep(c, lines, t, steps[n]);
      }
    }
  }

  /** Lines written later do not change what has happened. */
  lemma MoreLines(c: Codec, lines: seq<string>, s: Conn, more: string)
    requires PrefixInv(c, lines, s)
    ensures PrefixInv(c, lines + [more], s)
  {
    assert (lines + [more])[..s.done] == lines[..s.done];
    assert (lines + [more])[s.done..s.read] == lines[s.done..s.read];
  }

  lemma WaitKeeps(c: Codec, l: Link, w: World)
    requires Sound(c, l)
    ensures Sound(c, Wait(c, l, w)) && l.conn.out <= Wait(c, l, w).conn.out && l.conn.at <= Wait(c, l, w).conn.at
  {
    ServeKeeps(c, Lines(c, l.written), l.conn, w(l.acts).before);
  }

  lemma WriteKeeps(c: Codec, l: Link, w: World, r: Request)
    requires Sound(c, l)
    ensures Sound(c, Write(c, l, w, r).0)
  {
    WaitKeeps(c, l, w);
    MoreLines(c, Lines(c, l.written), Wait(c, l, w).conn, c.encode(r));
    assert Lines(c, l.written + [r]) == Lines(c, l.written) + [c.encode(r)];
  }

  lemma ReadKeeps(c: Codec, l: Link, w: World)
    requires Sound(c, l)
    ensures Sound(c, Read(c, l, w).0)
  {
    WaitKeeps(c, l, w);
    var l1 := Wait(c, l, w);
    if |l1.got| < |l1.conn.out| {
      PrefixGrows(l1.got, l1.conn.out);
    }
    assert Read(c, l, w).0.written == l.written && Read(c, l, w).0.conn in {l.conn, l1.conn};
  }

  /** Answers come from processed lines, so they are never more than the requests. */
  lemma AnswersWithinRequests(c: Codec, l: Link)
    requires Sound(c, l)
    ensures |l.got| <= |l.conn.out| <= l.conn.done <= l.conn.read <= |l.written|
  {
    AnswersAreFewer(c, Lines(c, l.written)[..l.conn.done], l.conn.at);
  }

  /** Any use of the connection. */
  datatype Use = Writes(r: Request) | Reads

  function DoUse(c: Codec, l: Link, w: World, u: Use): Link {
    match u
    case Writes(r) => Write(c, l, w, r).0
    case Reads => Read(c, l, w).0
  }

  function DoUses(c: Codec, l: Link, w: World, us: seq<Use>): Link {
    if us == [] then l else DoUse(c, DoUses(c, l, w, us[..|us| - 1]), w, us[|us| - 1])
  }

  lemma {:induction false} UsesKeep(c: Codec, l: Link, w: World, us: seq<Use>)
    requires Sound(c, l)
    ensures Sound(c, DoUses(c, l, w, us))
  {
    if us != [] {
      var n := |us| - 1;
      UsesKeep(c, l, w, us[..n]);
      match us[n]
      case Writes(r) => WriteKeeps(c, DoUses(c, l, w, us[..n]), w, r);
      case Reads => ReadKeeps(c, DoUses(c, l, w, us[..n]), w);
    }
  }

  /**
   However a connection is used and under every schedule: the responses read are a prefix of the
   responses written, in order, and they never outnumber the requests the server has processed, nor
   those the requests written.
   */
  lemma ReadsNeverExceedWrites(c: Codec, w: World, us: seq<Use>)
    ensures var l := DoUses(c, FRESH, w, us);
            l.got <= l.conn.out && |l.got| <= l.conn.done <= |l.written|
  {
    assert Lines(c, [])[..0] == [] && Lines(c, [])[0..0] == [];
    UsesKeep(c, FRESH, w, us);
    AnswersWithinRequests(c, DoUses(c, FRESH, w, us));
  }

  /** When every request processed so far has been answered, the j-th response is the j-th request's. */
  lemma ResponsesInOrder(c: Codec, w: World, us: seq<Use>, j: nat)
    requires c.Lawful()
    requires var l := DoUses(c, FRESH, w, us); |l.conn.out| == l.conn.done && j < |l.conn.out|
    ensures var l := DoUses(c, FRESH, w, us);
            && j < |l.written|
            && l.conn.out[j].client == l.written[j].client && l.conn.out[j].id == l.written[j].id
            && (j < |l.got| ==> l.got[j] == l.conn.out[j])
  {
    var l := DoUses(c, FRESH, w, us);
    ReadsNeverExceedWrites(c, w, us);
    FreshIsSettled(c);
    UsesKeep(c, FRESH, w, us);
    AllAnswered(c, Lines(c, l.written)[..l.conn.done], l.conn.at, j);
    EncodedEcho(c, l.written[j], l.conn.at[j]);
  }

  // ---------------------------------------------------------------- what each action returns

  /** No response is pending: every request has been answered and its response read, or none can be read any more. */
  predicate Settled(l: Link) {
    l.dead || |l.got| == |l.written|
  }

  lemma FreshIsSettled(c: Codec)
    ensures Sound(c, FRESH) && Settled(FRESH)
  {
    assert Lines(c, [])[..0] == [] && Lines(c, [])[0..0] == [];
  }

  /** The request just written is not processed yet, or got no answer. */
  predicate Unanswered(c: Codec, l: Link)
    requires |l.conn.at| == l.conn.done <= |l.written|
  {
    l.conn.done < |l.written| || l.conn.done == 0
    || AnswerLine(c, c.encode(l.written[l.conn.done - 1]), l.conn.at[l.conn.done - 1]).None?
  }

  /** One request has been written whose response has not been read; all before it are done with. */
  ghost predicate OnePending(c: Codec, l: Link, r: Request) {
    && Sound(c, l) && !l.dead && |l.written| == |l.got| + 1 && l.written[|l.got|] == r
    && l.conn.done >= |l.got| && |Answers(c, Lines(c, l.written)[..|l.got|], l.conn.at[..|l.got|])| == |l.got|
  }

  lemma WriteMakesPending(c: Codec, l: Link, w: World, r: Request)
    requires Sound(c, l) && Settled(l) && !l.dead && Write(c, l, w, r).1
    ensures OnePending(c, Write(c, l, w, r).0, r)
  {
    var l1, n := Write(c, l, w, r).0, |l.written|;
    WaitKeeps(c, l, w);
    AnswersWithinRequests(c, Wait(c, l, w));
    WriteKeeps(c, l, w, r);
    assert l1.conn.done == n && l1.conn.at[..n] == l1.conn.at;
  }

  lemma WaitKeepsPending(c: Codec, l: Link, w: World, r: Request)
    requires OnePending(c, l, r)
    ensures OnePending(c, Wait(c, l, w), r)
  {
    WaitKeeps(c, l, w);
    assert Wait(c, l, w).conn.at[..|l.got|] == l.conn.at[..|l.got|];
  }

  /** The responses so far: one for each earlier request, and the one to the pending request if it got one. */
  lemma PendingOut(c: Codec, l: Link, r: Request)
    requires OnePending(c, l, r)
    ensures var n := |l.got|;
            if l.conn.done == n then |l.conn.out| == n
            else && l.conn.done == n + 1
                 && |l.conn.out| == n + |AsList(AnswerLine(c, c.encode(r), l.conn.at[n]))|
                 && l.conn.out[n..] == AsList(AnswerLine(c, c.encode(r), l.conn.at[n]))
  {
    AnswersWithinRequests(c, l);
    AnswersAfter(c, Lines(c, l.written), l.conn.at, |l.got|);
  }

  /** The answers to as many lines as have `n` answers between them, and to at most one line more. */
  lemma AnswersAfter(c: Codec, lines: seq<string>, at: seq<Moment>, n: nat)
    requires n <= |at| <= n + 1 == |lines| && |Answers(c, lines[..n], at[..n])| == n
    ensures var out := Answers(c, lines[..|at|], at);
            if |at| == n then |out| == n
            else var more := AsList(AnswerLine(c, lines[n], at[n])); |out| == n + |more| && out[n..] == more
  {
    if |at| == n {
      assert at[..n] == at;
    } else {
      assert lines[..n + 1] == lines[..n] + [lines[n]] && at == at[..n] + [at[n]];
      AnswersSnoc(c, lines[..n], at[..n], lines[n], at[n]);
      DropFirst(Answers(c, lines[..n], at[..n]), AsList(AnswerLine(c, lines[n], at[n])));
    }
  }

  /** So a response is there exactly if the pending request has been processed and answered, and it is its own. */
  lemma PendingResponse(c: Codec, l: Link, r: Request)
    requires c.Lawful() && OnePending(c, l, r)
    ensures |l.conn.at| == l.conn.done <= |l.written|
    ensures |l.got| < |l.conn.out| <==> !Unanswered(c, l)
    ensures |l.got| < |l.conn.out| ==>
              && |l.conn.out| == |l.written|
              && l.conn.out[|l.got|].client == r.client && l.conn.out[|l.got|].id == r.id
  {
    PendingOut(c, l, r);
    var n := |l.got|;
    if |l.conn.out| > n {
      EncodedEcho(c, r, l.conn.at[n]);
      assert l.conn.out[n] == l.conn.out[n..][0];
    }
  }

  lemma ReadReadsItsOwn(c: Codec, l: Link, w: World, r: Request)
    requires c.Lawful() && OnePending(c, l, r)
    ensures var (l1, res) := Read(c, l, w);
            && Sound(c, l1) && l1.written == l.written
            && (!res.Blocked? ==> Settled(l1))
            && (res.Done? ==> res.resp.client == r.client && res.resp.id == r.id && !l1.dead)
            && (res.Blocked? ==> Unanswered(c, l1))
  {
    ReadKeeps(c, l, w);
    WaitKeepsPending(c, l, w, r);
    PendingResponse(c, Wait(c, l, w), r);
  }

  /**
   One write and one read, with nothing pending before: the response read belongs to the request. If
   the read is still waiting, the request has not been processed yet or got no answer.
   */
  lemma SendReadsItsOwn(c: Codec, l: Link, w: World, r: Request)
    requires c.Lawful() && Sound(c, l) && Settled(l)
    ensures var (l1, res) := Send(c, l, w, r);
            && Sound(c, l1)
            && (!res.Blocked? ==> Settled(l1))
            && (res.Done? ==> res.resp.client == r.client && res.resp.id == r.id && !l1.dead)
            && (res.Blocked? ==> Unanswered(c, l1))
  {
    var (l1, ok) := Write(c, l, w, r);
    WriteKeeps(c, l, w, r);
    if !ok {
      WaitKeeps(c, l, w);
    } else if !l.dead {
      WriteMakesPending(c, l, w, r);
      ReadReadsItsOwn(c, l1, w, r);
    }
  }

  /** A second read after the response has been read delivers nothing, whatever the server does. */
  lemma SecondReadIsEmpty(c: Codec, l: Link, w: World)
    requires Sound(c, l) && Settled(l)
    ensures var (l1, r) := Read(c, l, w);
            Sound(c, l1) && Settled(l1) && !r.Done? && l1.written == l.written && (r.Blocked? ==> !l1.conn.ended)
  {
    WaitKeeps(c, l, w);
    AnswersWithinRequests(c, Wait(c, l, w));
  }

  /** The results of sending the requests one after the other, up to one that is still waited for. */
  function SendAll(c: Codec, l: Link, w: World, rs: seq<Request>): seq<Result>
    decreases |rs|
  {
    if rs == [] then []
    else
      var (l1, r) := Send(c, l, w, rs[0]);
      if r.Blocked? then [r] else [r] + SendAll(c, l1, w, rs[1..])
  }

  /**
   With one read per request, under every schedule and whatever fails: the j-th request gets its own
   response or none.
   */
  lemma {:induction false} ResponsesMatchRequests(c: Codec, l: Link, w: World, rs: seq<Request>, j: nat)
    requires c.Lawful() && Sound(c, l) && Settled(l) && j < |SendAll(c, l, w, rs)|
    ensures j < |rs|
    ensures var res := SendAll(c, l, w, rs)[j];
            res.Done? ==> res.resp.client == rs[j].client && res.resp.id == rs[j].id
    decreases |rs|
  {
    SendReadsItsOwn(c, l, w, rs[0]);
    var (l1, r) := Send(c, l, w, rs[0]);
    if j > 0 {
      ResponsesMatchRequests(c, l1, w, rs[1..], j - 1);
    }
  }

  /** Two reads for one request never both succeed, and leave nothing pending unless the first still waits. */
  lemma SecondReadNeverSucceeds(c: Codec, l: Link, w: World, r: Request)
    requires c.Lawful() && Sound(c, l) && Settled(l)
    ensures var (l1, res) := SendAndReadAgain(c, l, w, r);
            Sound(c, l1) && !res.Done? && (!res.Blocked? ==> Settled(l1))
    ensures SendAndReadAgain(c, l, w, r).0.written in {l.written, l.written + [r]}
  {
    SendReadsItsOwn(c, l, w, r);
    var (l1, first) := Send(c, l, w, r);
    if first.Done? {
      SecondReadIsEmpty(c, l1, w);
    }
  }

  /**
   A ping that starts with no response pending never succeeds, under any schedule: its two reads meet
   at most one response. It leaves none pending, so neither does the next.
   */
  lemma PingNeverSucceeds(c: Codec, l: Link, client: string, w: World)
    requires c.Lawful() && Sound(c, l) && Settled(l)
    ensures var (l1, r) := Ping(c, l, client, w);
            Sound(c, l1) && !r.Done? && (!r.Blocked? ==> Settled(l1))
  {
    SecondReadNeverSucceeds(c, l, w, ControlRequest(c, client, w(l.acts).now, "ping"));
  }

  /** No action fails, and the server never leaves the connection. */
  ghost predicate StaysOpen(w: World) {
    forall n: nat ::
      !w(n).fails && forall st :: st in w(n).before ==> !st.HandlerEnds? && (st.HandlerTakes? ==> !st.at.stops)
  }

  lemma {:induction false} ServeStaysOpen(c: Codec, lines: seq<string>, s: Conn, steps: seq<Step>)
    requires forall st :: st in steps ==> !st.HandlerEnds? && (st.HandlerTakes? ==> !st.at.stops)
    ensures Serve(c, lines, s, steps).ended == s.ended
  {
    if steps != [] {
      ServeStaysOpen(c, lines, s, steps[..|steps| - 1]);
    }
  }

  /** On a connection that stays open it neither succeeds nor fails: however long the schedule, it still waits. */
  lemma PingBlocks(c: Codec, l: Link, client: string, w: World)
    requires c.Lawful() && Sound(c, l) && |l.got| == |l.written| && !l.dead && !l.conn.ended && StaysOpen(w)
    ensures Ping(c, l, client, w).1.Blocked?
  {
    var r := ControlRequest(c, client, w(l.acts).now, "ping");
    var (l1, ok) := Write(c, l, w, r);
    ServeStaysOpen(c, Lines(c, l.written), l.conn, w(l.acts).before);
    ServeStaysOpen(c, Lines(c, l1.written), l1.conn, w(l1.acts).before);
    var (l2, first) := Read(c, l1, w);
    ServeStaysOpen(c, Lines(c, l2.written), l2.conn, w(l2.acts).before);
    SendReadsItsOwn(c, l, w, r);
    if first.Done? {
      SecondReadIsEmpty(c, l2, w);
    }
  }

  predicate NoDocuments(l: Link) {
    forall r :: r in l.written ==> r.kind != "sanitize"
  }

  /** Documents of the sanitiser's queue never reach the server. */
  lemma {:induction false} NoDocumentIsEverSent(c: Codec, l: Link, client: string, w: World, docs: seq<Doc>)
    requires c.Lawful() && Sound(c, l) && Settled(l) && NoDocuments(l)
    ensures var (l1, taken, blocked) := Drain(c, l, client, w, docs);
            && NoDocuments(l1) && Sound(c, l1) && (!blocked ==> Settled(l1))
            && taken <= |docs| && (!blocked ==> taken == |docs|)
    decreases |docs|
  {
    if docs != [] {
      PingNeverSucceeds(c, l, client, w);
      SecondReadNeverSucceeds(c, l, w, ControlRequest(c, client, w(l.acts).now, "ping"));
      var (l1, r) := Ping(c, l, client, w);
      if !r.Blocked? {
        NoDocumentIsEverSent(c, l1, client, w, docs[1..]);
      }
    }
  }

  /** On a connection that stays open the loop never gets past its first document. */
  lemma FirstDocumentBlocks(c: Codec, l: Link, client: string, w: World, docs: seq<Doc>)
    requires c.Lawful() && Sound(c, l) && |l.got| == |l.written| && !l.dead && !l.conn.ended && StaysOpen(w)
    requires docs != []
    ensures Drain(c, l, client, w, docs).1 == 1 && Drain(c, l, client, w, docs).2
  {
    PingBlocks(c, l, client, w);
  }
}
