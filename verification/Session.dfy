/**
 One connection seen from the server: which lines are answered, with what, and in which order.
 */
module Session {
  import opened Wrappers

  /** An undecoded JSON payload, as a list of its texts. */
  type Payload = seq<string>

  datatype Request = Request(client: string, id: int, kind: string, data: Payload)

  datatype Response = Response(client: string, id: int, code: nat, text: string)

  datatype Doc = Doc(path: string, action: string, detection: string, destModule: string)

  /** JSON as a library: messages as lines, and the two payloads. */
  datatype Codec = Codec(
    message: string -> Option<Request>, encode: Request -> string,
    control: Payload -> Option<string>, encodeControl: string -> Payload,
    sanitize: Payload -> Option<Doc>, encodeSanitize: Doc -> Payload)
  {
    ghost predicate Lawful() {
      && (forall r :: Trim(encode(r)) != "" && message(Trim(encode(r))) == Some(r))
      && (forall a :: control(encodeControl(a)) == Some(a))
      && (forall d :: sanitize(encodeSanitize(d)) == Some(d))
    }
  }

  /** What the server finds when it handles a message, whether it can write an answer, and whether it stops after it. */
  datatype Moment = Moment(workerReady: bool, absOk: bool, writeOk: bool, stops: bool)

  function Respond(r: Request, code: nat, text: string): Response {
    Response(r.client, r.id, code, text)
  }

  /** The answer written to a decoded message, if it gets one. */
  function Answer(c: Codec, r: Request, at: Moment): Option<Response> {
    if !at.writeOk then None
    else if r.kind == "control" then
      match c.control(r.data)
      case None => None
      case Some(action) =>
        if action == "ping" then Some(Respond(r, 200, "pong"))
        else if action == "disconn" || action == "quit" then Some(Respond(r, 200, "ack"))
        else Some(Respond(r, 400, "invalid request"))
    else if r.kind == "sanitize" then
      if c.sanitize(r.data).None? || !at.workerReady || !at.absOk then None
      else Some(Respond(r, 202, "file enqueued"))
    else None
  }

  predicate IsSpace(ch: char) {
    ch == ' ' || ch == '\t' || ch == '\n' || ch == '\r' || ch == '\U{0B}' || ch == '\U{0C}'
  }

  function TrimLeft(s: string): string {
    if s != [] && IsSpace(s[0]) then TrimLeft(s[1..]) else s
  }

  function TrimRight(s: string): string {
    if s != [] && IsSpace(s[|s| - 1]) then TrimRight(s[..|s| - 1]) else s
  }

  function Trim(s: string): string {
    TrimRight(TrimLeft(s))
  }

  /** The message of a line; `None` for blank or undecodable lines and messages without client. */
  function Decoded(c: Codec, line: string): Option<Request> {
    var text := Trim(line);
    if text == "" then None
    else
      match c.message(text)
      case None => None
      case Some(r) => if r.client == "" then None else Some(r)
  }

  function AnswerLine(c: Codec, line: string, at: Moment): Option<Response> {
    match Decoded(c, line)
    case None => None
    case Some(r) => Answer(c, r, at)
  }

  /** The answers to the lines, in order. */
  function Answers(c: Codec, lines: seq<string>, at: seq<Moment>): seq<Response>
    requires |lines| == |at|
  {
    if lines == [] then []
    else
      var n := |lines| - 1;
      Answers(c, lines[..n], at[..n])
      + AsList(AnswerLine(c, lines[n], at[n]))
  }

  function AsList(r: Option<Response>): seq<Response> {
    if r.None? then [] else [r.value]
  }

  /** The answers to one line more. */
  lemma AnswersSnoc(c: Codec, lines: seq<string>, at: seq<Moment>, line: string, m: Moment)
    requires |lines| == |at|
    ensures Answers(c, lines + [line], at + [m]) == Answers(c, lines, at) + AsList(AnswerLine(c, line, m))
  {
    assert (lines + [line])[..|lines|] == lines && (at + [m])[..|at|] == at;
  }

  /** Line `i` is the one that answer `r` belongs to. */
  predicate AnswersTo(c: Codec, lines: seq<string>, at: seq<Moment>, i: nat, r: Response)
    requires |lines| == |at|
  {
    && i < |lines| && AnswerLine(c, lines[i], at[i]) == Some(r)
    && Decoded(c, lines[i]).Some?
    && r.client == Decoded(c, lines[i]).value.client && r.id == Decoded(c, lines[i]).value.id
  }

  /** `from[k]` is the line that answer `k` belongs to, later answers come from later lines, and none is missing. */
  ghost predicate Indexes(c: Codec, lines: seq<string>, at: seq<Moment>, out: seq<Response>, from: seq<nat>)
    requires |lines| == |at|
  {
    && |from| == |out|
    && (forall k :: 0 <= k < |from| ==> AnswersTo(c, lines, at, from[k], out[k]))
    && (forall j, k :: 0 <= j < k < |from| ==> from[j] < from[k])
    && (forall i :: 0 <= i < |lines| && AnswerLine(c, lines[i], at[i]).Some? ==> i in from)
  }

  lemma IndexesSnoc(c: Codec, lines: seq<string>, at: seq<Moment>, out: seq<Response>, from: seq<nat>, line: string,
                    m: Moment)
    requires |lines| == |at| && Indexes(c, lines, at, out, from)
    ensures AnswerLine(c, line, m).None? ==> Indexes(c, lines + [line], at + [m], out, from)
    ensures AnswerLine(c, line, m).Some? ==>
              Indexes(c, lines + [line], at + [m], out + [AnswerLine(c, line, m).value], from + [|lines|])
  {
    var n, lines', at' := |lines|, lines + [line], at + [m];
    forall k | 0 <= k < |from| ensures AnswersTo(c, lines', at', from[k], out[k]) && from[k] < n {
      assert AnswersTo(c, lines, at, from[k], out[k]);
    }
    forall i | 0 <= i < n && AnswerLine(c, lines'[i], at'[i]).Some? ensures i in from {
      assert AnswerLine(c, lines[i], at[i]).Some?;
    }
    if AnswerLine(c, line, m).Some? {
      assert AnswersTo(c, lines', at', n, AnswerLine(c, line, m).value);
      assert n in from + [n];
    }
  }

  /**
   The answers are an in-order filter-map of the lines: each belongs to one line and echoes that
   line's ClientID and MessageID, later answers belong to later lines, and every line whose answer
   could be written is among them.
   */
  lemma {:induction false} AnswersEcho(c: Codec, lines: seq<string>, at: seq<Moment>) returns (from: seq<nat>)
    requires |lines| == |at|
    ensures Indexes(c, lines, at, Answers(c, lines, at), from)
  {
    from := [];
    if lines != [] {
      var n := |lines| - 1;
      from := AnswersEcho(c, lines[..n], at[..n]);
      assert lines == lines[..n] + [lines[n]] && at == at[..n] + [at[n]];
      AnswersSnoc(c, lines[..n], at[..n], lines[n], at[n]);
      IndexesSnoc(c, lines[..n], at[..n], Answers(c, lines[..n], at[..n]), from, lines[n], at[n]);
      assert Answers(c, lines[..n], at[..n]) + [] == Answers(c, lines[..n], at[..n]);
      if AnswerLine(c, lines[n], at[n]).Some? {
        from := from + [n];
      }
    }
  }

  /** Blank and undecodable lines, messages without client and unknown message types get no answer. */
  lemma UnansweredLines(c: Codec, line: string, at: Moment)
    requires Decoded(c, line).None? || Decoded(c, line).value.kind !in {"control", "sanitize"}
    ensures AnswerLine(c, line, at).None?
  {
  }

  /**
   The handler's loop over the lines it is given, until one after which it stops, or until the select
   at its top sees quit: `seesQuit(n)` says whether it does with `n` lines processed.
   */
  method HandleConnection(c: Codec, lines: seq<string>, at: seq<Moment>, seesQuit: nat -> bool)
    returns (out: seq<Response>, processed: nat)
    requires |lines| == |at|
    ensures processed <= |lines| && out == Answers(c, lines[..processed], at[..processed])
    ensures processed < |lines| ==> seesQuit(processed) || (processed > 0 && at[processed - 1].stops)
    ensures forall n :: 0 <= n < processed ==> !seesQuit(n)
  {
    out, processed := [], 0;
    while processed < |lines|
      invariant processed <= |lines| && out == Answers(c, lines[..processed], at[..processed])
      invariant forall n :: 0 <= n < processed ==> !seesQuit(n)
    {
      if seesQuit(processed) {
        return;
      }
      var i := processed;
      assert lines[..i + 1][..i] == lines[..i] && at[..i + 1][..i] == at[..i];
      processed := processed + 1;
      var curMsg := Trim(lines[i]);
      if curMsg == "" {
        continue;
      }
      var rpcMsg := c.message(curMsg);
      if rpcMsg.None? {
        continue;
      }
      if rpcMsg.value.client == "" {
        continue;
      }
      var answer := Answer(c, rpcMsg.value, at[i]);
      if answer.Some? {
        out := out + [answer.value];
      }
      if at[i].stops {
        return;
      }
    }
  }

  // ---------------------------------------------------------------- reader, channel and handler

  const CHANNEL: nat := 100

  /** `lines` have arrived; the reader has read `read` of them and the handler processed `done`. */
  datatype Conn = Conn(read: nat, channel: seq<string>, done: nat, at: seq<Moment>, out: seq<Response>, ended: bool)

  /** A connection just accepted. */
  const ACCEPTED := Conn(0, [], 0, [], [], false)

  datatype Step = ReaderSends | HandlerTakes(at: Moment) | HandlerEnds

  predicate Can(lines: seq<string>, s: Conn, st: Step) {
    match st
    case ReaderSends => s.read < |lines| && |s.channel| < CHANNEL
    case HandlerTakes(_) => !s.ended && s.channel != []
    case HandlerEnds => !s.ended
  }

  function Do(c: Codec, lines: seq<string>, s: Conn, st: Step): Conn
    requires Can(lines, s, st)
  {
    match st
    case ReaderSends => s.(read := s.read + 1, channel := s.channel + [lines[s.read]])
    case HandlerTakes(at) =>
      s.(channel := s.channel[1..], done := s.done + 1, at := s.at + [at], ended := at.stops,
         out := s.out + AsList(AnswerLine(c, s.channel[0], at)))
    case HandlerEnds => s.(ended := true)
  }

  function Run(c: Codec, lines: seq<string>, steps: seq<Step>): Option<Conn> {
    if steps == [] then Some(ACCEPTED)
    else
      match Run(c, lines, steps[..|steps| - 1])
      case None => None
      case Some(s) => if Can(lines, s, steps[|steps| - 1]) then Some(Do(c, lines, s, steps[|steps| - 1])) else None
  }

  ghost predicate PrefixInv(c: Codec, lines: seq<string>, s: Conn) {
    && s.done <= s.read <= |lines| && |s.channel| <= CHANNEL
    && s.channel == lines[s.done..s.read]
    && |s.at| == s.done && s.out == Answers(c, lines[..s.done], s.at)
  }

  lemma PrefixStep(c: Codec, lines: seq<string>, s: Conn, st: Step)
    requires PrefixInv(c, lines, s) && Can(lines, s, st)
    ensures PrefixInv(c, lines, Do(c, lines, s, st))
  {
    if st.HandlerTakes? {
      AnswersSnoc(c, lines[..s.done], s.at, lines[s.done], st.at);
      assert lines[..s.done] + [lines[s.done]] == lines[..s.done + 1];
    }
  }

  /**
   Every interleaving of the reader and the handler: what has been processed is a prefix of the
   received lines, the channel holds exactly the lines read after it, and the answers are the
   answers to that prefix in order.
   */
  lemma {:induction false} ProcessedIsAPrefix(c: Codec, lines: seq<string>, steps: seq<Step>, s: Conn)
    requires Run(c, lines, steps) == Some(s)
    ensures PrefixInv(c, lines, s)
  {
    if steps != [] {
      var before := Run(c, lines, steps[..|steps| - 1]).value;
      ProcessedIsAPrefix(c, lines, steps[..|steps| - 1], before);
      PrefixStep(c, lines, before, steps[|steps| - 1]);
    }
  }

  // ---------------------------------------------------------------- facts for the other end

  lemma {:induction false} AnswersAreFewer(c: Codec, lines: seq<string>, at: seq<Moment>)
    requires |lines| == |at|
    ensures |Answers(c, lines, at)| <= |lines|
  {
    if lines != [] {
      AnswersAreFewer(c, lines[..|lines| - 1], at[..|at| - 1]);
    }
  }

  /** As many answers as lines: every line has its own. */
  lemma {:induction false} AllAnswered(c: Codec, lines: seq<string>, at: seq<Moment>, i: nat)
    requires |lines| == |at| && |Answers(c, lines, at)| == |lines| && i < |lines|
    ensures AnswerLine(c, lines[i], at[i]) == Some(Answers(c, lines, at)[i])
  {
    var n := |lines| - 1;
    AnswersAreFewer(c, lines[..n], at[..n]);
    if i < n {
      AllAnswered(c, lines[..n], at[..n], i);
    }
  }

  /** The answer to an encoded request echoes it. */
  lemma EncodedEcho(c: Codec, r: Request, at: Moment)
    requires c.Lawful() && AnswerLine(c, c.encode(r), at).Some?
    ensures AnswerLine(c, c.encode(r), at).value.client == r.client && AnswerLine(c, c.encode(r), at).value.id == r.id
  {
    assert c.message(Trim(c.encode(r))) == Some(r);
  }
}
