/**
 The search stage as it is scheduled: main starts consumers and searchers that all read one variable
 holding the channel, and main reassigns that variable for the second pair. A run is any list of
 enabled steps.
 */
module SearchSchedule {
  import opened Wrappers
  import opened PathNames
  import opened Search
  import opened Sequences
  import opened SearchStage

  /** What the two searchers would find, how the boosted one ends, and which items are on disk. */
  datatype Plan = Plan(
    setting: Setting, outcome: Outcome, boosted: seq<string>, walk: seq<string>, onDisk: string -> bool)

  /** An unbuffered channel, by how often it was closed and what has passed through it. */
  datatype Chan = Chan(closes: nat, sent: seq<string>)

  datatype Consumer = NoConsumer | ConsumerStarts | Ranging(ch: nat) | Holding(ch: nat, item: string) | ConsumerGone

  datatype Searcher = NoSearcher | SearcherStarts | Sending(ch: nat, rest: seq<string>) | Closed | SearcherGone

  datatype Main =
    | Deciding
    | StartingC1 | StartingS1
    | Waiting1
    | Choosing
    | ClosingUnused
    | Remaking
    | StartingC2 | StartingS2
    | Waiting2
    | Finished

  /** `current` is the variable that holds the channel; `fallback` is the flag the boosted searcher sets. */
  datatype Stage = Stage(
    main: Main, current: nat, chans: seq<Chan>,
    c1: Consumer, s1: Searcher, c2: Consumer, s2: Searcher,
    wg: nat, fallback: bool, found: seq<string>, exit: Option<int>)

  const START := Stage(Deciding, 0, [Chan(0, [])], NoConsumer, NoSearcher, NoConsumer, NoSearcher, 0, false, [], None)

  /** Steps of the first or the second pair of goroutines. */
  datatype Step =
    | MainSteps
    | ConsumerReads(first: bool) | Meet(first: bool) | ConsumerAppends(first: bool) | ConsumerEnds(first: bool)
    | SearcherReads(first: bool) | SearcherCloses(first: bool) | SearcherEnds(first: bool)

  function ConsumerOf(s: Stage, first: bool): Consumer {
    if first then s.c1 else s.c2
  }

  function SearcherOf(s: Stage, first: bool): Searcher {
    if first then s.s1 else s.s2
  }

  function WithConsumer(s: Stage, first: bool, c: Consumer): Stage {
    if first then s.(c1 := c) else s.(c2 := c)
  }

  function WithSearcher(s: Stage, first: bool, r: Searcher): Stage {
    if first then s.(s1 := r) else s.(s2 := r)
  }

  function OutputOf(p: Plan, first: bool): seq<string> {
    if first then p.boosted else p.walk
  }

  predicate WalksToo(p: Plan, s: Stage) {
    !p.setting.onWindows || s.fallback || p.setting.noPriv
  }

  /** A pair meets when the searcher sends on the channel that the consumer receives from. */
  predicate CanMeet(s: Stage, first: bool) {
    var c, r := ConsumerOf(s, first), SearcherOf(s, first);
    c.Ranging? && r.Sending? && r.rest != [] && r.ch == c.ch
  }

  predicate Can(p: Plan, s: Stage, st: Step) {
    s.exit.None? &&
    match st
    case MainSteps => !s.main.Finished? && (s.main.Waiting1? || s.main.Waiting2? ==> s.wg == 0)
    case ConsumerReads(f) => ConsumerOf(s, f).ConsumerStarts?
    case Meet(f) => CanMeet(s, f)
    case ConsumerAppends(f) => ConsumerOf(s, f).Holding?
    case ConsumerEnds(f) =>
      var c := ConsumerOf(s, f); c.Ranging? && c.ch < |s.chans| && s.chans[c.ch].closes > 0
    case SearcherReads(f) => SearcherOf(s, f).SearcherStarts?
    case SearcherCloses(f) => SearcherOf(s, f).Sending? && SearcherOf(s, f).rest == []
    case SearcherEnds(f) => SearcherOf(s, f).Closed?
  }

  function CloseChan(s: Stage, ch: nat): seq<Chan> {
    if ch < |s.chans| then s.chans[ch := s.chans[ch].(closes := s.chans[ch].closes + 1)] else s.chans
  }

  function DoMain(p: Plan, s: Stage): Stage {
    match s.main
    case Deciding =>
      if p.setting.noDiskScan then s.(main := Finished)
      else if TriesBoosted(p.setting) then s.(main := StartingC1)
      else s.(main := Waiting1, fallback := p.setting.onWindows)
    case StartingC1 => s.(main := StartingS1, c1 := ConsumerStarts, wg := s.wg + 1)
    case StartingS1 => s.(main := Waiting1, s1 := SearcherStarts, wg := s.wg + 1)
    case Waiting1 => s.(main := Choosing)
    case Choosing =>
      if !WalksToo(p, s) then s.(main := Waiting2)
      else s.(main := if TriesBoosted(p.setting) then Remaking else ClosingUnused)
    case ClosingUnused => s.(main := Remaking, chans := CloseChan(s, s.current))
    case Remaking => s.(main := StartingC2, current := |s.chans|, chans := s.chans + [Chan(0, [])])
    case StartingC2 => s.(main := StartingS2, c2 := ConsumerStarts, wg := s.wg + 1)
    case StartingS2 => s.(main := Waiting2, s2 := SearcherStarts, wg := s.wg + 1)
    case Waiting2 => s.(main := Finished)
    case Finished => s
  }

  /** The process exits on invalid input, before the searcher is done for the group. */
  function EndSearcher(p: Plan, s: Stage, first: bool): Stage {
    if first && p.outcome.InvalidInput? then s.(exit := Some(5))
    else
      WithSearcher(s, first, SearcherGone)
      .(wg := if s.wg == 0 then 0 else s.wg - 1, fallback := s.fallback || (first && p.outcome.Fallback?))
  }

  function DoMeet(s: Stage, first: bool): Stage
    requires CanMeet(s, first)
  {
    var c, r := ConsumerOf(s, first), SearcherOf(s, first);
    var t := WithSearcher(WithConsumer(s, first, Holding(c.ch, r.rest[0])), first, Sending(r.ch, r.rest[1..]));
    if r.ch >= |s.chans| then t
    else t.(chans := s.chans[r.ch := s.chans[r.ch].(sent := s.chans[r.ch].sent + [r.rest[0]])])
  }

  function Do(p: Plan, s: Stage, st: Step): Stage
    requires Can(p, s, st)
  {
    match st
    case MainSteps => DoMain(p, s)
    case ConsumerReads(f) => WithConsumer(s, f, Ranging(s.current))
    case Meet(f) => DoMeet(s, f)
    case ConsumerAppends(f) =>
      var c := ConsumerOf(s, f);
      WithConsumer(s, f, Ranging(c.ch)).(found := if p.onDisk(c.item) then s.found + [c.item] else s.found)
    case ConsumerEnds(f) => WithConsumer(s, f, ConsumerGone).(wg := if s.wg == 0 then 0 else s.wg - 1)
    case SearcherReads(f) => WithSearcher(s, f, Sending(s.current, OutputOf(p, f)))
    case SearcherCloses(f) => WithSearcher(s, f, Closed).(chans := CloseChan(s, SearcherOf(s, f).ch))
    case SearcherEnds(f) => EndSearcher(p, s, f)
  }

  function Run(p: Plan, steps: seq<Step>): Option<Stage> {
    if steps == [] then Some(START)
    else
      match Run(p, steps[..|steps| - 1])
      case None => None
      case Some(s) => if Can(p, s, steps[|steps| - 1]) then Some(Do(p, s, steps[|steps| - 1])) else None
  }

  // ---------------------------------------------------------------- a pair and its channel

  /** A consumer and a searcher on channel `ch`, and what has passed through it. */
  predicate Paired(chan: Chan, ch: nat, c: Consumer, r: Searcher, output: seq<string>) {
    && (c.Ranging? || c.Holding? ==> c.ch == ch) && (r.Sending? ==> r.ch == ch)
    && (r.NoSearcher? || r.SearcherStarts? ==> chan == Chan(0, []))
    && (r.Sending? ==> chan.closes == 0 && chan.sent + r.rest == output)
    && (r.Closed? || r.SearcherGone? ==> chan == Chan(1, output))
    && (c.Holding? ==> chan.sent != [] && chan.sent[|chan.sent| - 1] == c.item)
    && (c.NoConsumer? || c.ConsumerStarts? ==> chan.sent == [])
    && (c.ConsumerGone? ==> chan.closes == 1)
  }

  /** What the consumer has dealt with. */
  function Dealt(chan: Chan, c: Consumer): seq<string> {
    if c.Holding? && chan.sent != [] then chan.sent[..|chan.sent| - 1] else chan.sent
  }

  predicate LiveConsumer(c: Consumer) {
    !c.NoConsumer? && !c.ConsumerGone?
  }

  predicate LiveSearcher(r: Searcher) {
    !r.NoSearcher? && !r.SearcherGone?
  }

  function Live(s: Stage): nat {
    (if LiveConsumer(s.c1) then 1 else 0) + (if LiveSearcher(s.s1) then 1 else 0)
    + (if LiveConsumer(s.c2) then 1 else 0) + (if LiveSearcher(s.s2) then 1 else 0)
  }

  /** Main is past the first wait. */
  predicate PastFirst(m: Main) {
    m.Choosing? || m.ClosingUnused? || m.Remaking? || m.StartingC2? || m.StartingS2? || m.Waiting2? || m.Finished?
  }

  /** The second channel has been made. */
  predicate Second(s: Stage) {
    |s.chans| == 2
  }

  predicate AfterRemaking(m: Main) {
    m.StartingC2? || m.StartingS2?
  }

  predicate BeforeRemaking(m: Main) {
    m.Deciding? || m.StartingC1? || m.StartingS1? || m.Waiting1? || m.Choosing? || m.ClosingUnused? || m.Remaking?
  }

  /** The first channel, used by the boosted pair or closed by main. */
  predicate FirstPair(p: Plan, s: Stage)
    requires |s.chans| >= 1
  {
    if TriesBoosted(p.setting) then
      && Paired(s.chans[0], 0, s.c1, s.s1, p.boosted)
      && (s.main.Deciding? || s.main.StartingC1? ==> s.c1.NoConsumer?)
      && (s.main.Deciding? || s.main.StartingC1? || s.main.StartingS1? ==> s.s1.NoSearcher?)
      && (s.main.StartingS1? || s.main.Waiting1? ==> !s.c1.NoConsumer?) && (s.main.Waiting1? ==> !s.s1.NoSearcher?)
      && (PastFirst(s.main) ==> s.c1.ConsumerGone? && s.s1.SearcherGone?)
      && (s.s1.SearcherGone? ==> !p.outcome.InvalidInput?)
      && (s.fallback <==> s.s1.SearcherGone? && p.outcome.Fallback?)
      && !s.main.ClosingUnused?
    else
      && s.c1.NoConsumer? && s.s1.NoSearcher? && s.exit.None?
      && !s.main.StartingC1? && !s.main.StartingS1?
      && (!s.main.Deciding? && !p.setting.noDiskScan ==> s.fallback == p.setting.onWindows)
      && s.chans[0] == Chan(if s.main.Remaking? || Second(s) then 1 else 0, [])
  }

  /** The second channel and the pair of the walk. */
  predicate SecondPair(p: Plan, s: Stage)
    requires 1 <= |s.chans| <= 2
  {
    && (BeforeRemaking(s.main) ==> !Second(s)) && (AfterRemaking(s.main) ==> Second(s))
    && (s.main.Waiting2? || s.main.Finished? ==> Second(s) == (WalksToo(p, s) && !p.setting.noDiskScan))
    && (s.main.ClosingUnused? || s.main.Remaking? || Second(s) ==> WalksToo(p, s))
    && (if Second(s) then
          && Paired(s.chans[1], 1, s.c2, s.s2, p.walk)
          && (s.main.StartingC2? ==> s.c2.NoConsumer?)
          && (s.main.StartingC2? || s.main.StartingS2? ==> s.s2.NoSearcher?)
          && (s.main.StartingS2? || s.main.Waiting2? ==> !s.c2.NoConsumer?) && (s.main.Waiting2? ==> !s.s2.NoSearcher?)
          && (s.main.Finished? ==> s.c2.ConsumerGone? && s.s2.SearcherGone?)
        else s.c2.NoConsumer? && s.s2.NoSearcher?)
  }

  /** What has been listed. */
  predicate Listed(p: Plan, s: Stage)
    requires 1 <= |s.chans| <= 2
  {
    s.found == Present(Dealt(s.chans[0], s.c1), p.onDisk)
               + if Second(s) then Present(Dealt(s.chans[1], s.c2), p.onDisk) else []
  }

  predicate Inv(p: Plan, s: Stage) {
    && 1 <= |s.chans| <= 2 && s.current == |s.chans| - 1
    && FirstPair(p, s) && SecondPair(p, s) && Listed(p, s)
    && s.wg == Live(s)
    && (p.setting.noDiskScan ==> s.main.Deciding? || s.main.Finished?)
    && (s.exit.Some? ==> s.exit == Some(5) && TriesBoosted(p.setting) && p.outcome.InvalidInput? && s.s1.Closed?)
  }

  lemma MainKeepsFirst(p: Plan, s: Stage)
    requires Inv(p, s) && Can(p, s, MainSteps)
    ensures FirstPair(p, DoMain(p, s))
  {
  }

  lemma MainKeepsSecond(p: Plan, s: Stage)
    requires Inv(p, s) && Can(p, s, MainSteps)
    ensures 1 <= |DoMain(p, s).chans| <= 2 && DoMain(p, s).current == |DoMain(p, s).chans| - 1
    ensures SecondPair(p, DoMain(p, s))
  {
  }

  lemma MainKeepsList(p: Plan, s: Stage)
    requires Inv(p, s) && Can(p, s, MainSteps)
    ensures 1 <= |DoMain(p, s).chans| <= 2 && Listed(p, DoMain(p, s))
  {
    assert s.found + [] == s.found;
  }

  lemma MainKeeps(p: Plan, s: Stage)
    requires Inv(p, s) && Can(p, s, MainSteps)
    ensures Inv(p, DoMain(p, s))
  {
    MainKeepsFirst(p, s);
    MainKeepsSecond(p, s);
    MainKeepsList(p, s);
  }

  /** Reading the variable finds the pair's own channel: main changes it only while no goroutine runs. */
  lemma ReadsOwn(p: Plan, s: Stage, st: Step)
    requires Inv(p, s) && Can(p, s, st) && (st.ConsumerReads? || st.SearcherReads?)
    ensures s.current == if st.first then 0 else 1
    ensures Inv(p, Do(p, s, st))
  {
  }

  /** Meeting passes the first item of the rest. */
  lemma MeetPaired(chan: Chan, ch: nat, c: Consumer, r: Searcher, output: seq<string>)
    requires Paired(chan, ch, c, r, output) && c.Ranging? && r.Sending? && r.rest != []
    ensures var chan' := chan.(sent := chan.sent + [r.rest[0]]);
            && Paired(chan', ch, Holding(c.ch, r.rest[0]), Sending(r.ch, r.rest[1..]), output)
            && Dealt(chan', Holding(c.ch, r.rest[0])) == Dealt(chan, c)
  {
    TakeFirst(chan.sent, r.rest);
    assert (chan.sent + [r.rest[0]])[..|chan.sent|] == chan.sent;
  }

  lemma MeetKeeps(p: Plan, s: Stage, first: bool)
    requires Inv(p, s) && Can(p, s, Meet(first))
    ensures Inv(p, DoMeet(s, first))
  {
    if first {
      OneAtATime(p, s);
      MeetPaired(s.chans[0], 0, s.c1, s.s1, p.boosted);
    } else {
      MeetPaired(s.chans[1], 1, s.c2, s.s2, p.walk);
    }
  }

  /** The held item is the last one sent. */
  lemma HeldIsLast(chan: Chan, c: Consumer, onDisk: string -> bool)
    requires c.Holding? && chan.sent != [] && chan.sent[|chan.sent| - 1] == c.item
    ensures Present(chan.sent, onDisk)
            == Present(Dealt(chan, c), onDisk) + if onDisk(c.item) then [c.item] else []
  {
  }

  /** While the first pair is at work there is no second channel. */
  lemma OneAtATime(p: Plan, s: Stage)
    requires Inv(p, s) && (LiveConsumer(s.c1) || LiveSearcher(s.s1))
    ensures !Second(s) && s.c2.NoConsumer? && s.s2.NoSearcher? && !PastFirst(s.main)
  {
  }

  lemma AppendKeepsList(p: Plan, s: Stage, first: bool)
    requires Inv(p, s) && Can(p, s, ConsumerAppends(first))
    ensures Listed(p, Do(p, s, ConsumerAppends(first)))
  {
    if first {
      OneAtATime(p, s);
      AppendFirst(p, s);
    } else {
      AppendSecond(p, s);
    }
  }

  lemma AppendFirst(p: Plan, s: Stage)
    requires |s.chans| == 1 && Listed(p, s) && Paired(s.chans[0], 0, s.c1, s.s1, p.boosted) && s.c1.Holding?
    ensures Listed(p, Do(p, s.(exit := None), ConsumerAppends(true)))
  {
    HeldIsLast(s.chans[0], s.c1, p.onDisk);
    assert s.found == Present(Dealt(s.chans[0], s.c1), p.onDisk);
    assert Present(s.chans[0].sent, p.onDisk) + [] == Present(s.chans[0].sent, p.onDisk);
    assert s.found + [] == s.found;
  }

  lemma AppendSecond(p: Plan, s: Stage)
    requires |s.chans| == 2 && Listed(p, s) && Paired(s.chans[1], 1, s.c2, s.s2, p.walk) && s.c2.Holding?
    ensures Listed(p, Do(p, s.(exit := None), ConsumerAppends(false)))
  {
    HeldIsLast(s.chans[1], s.c2, p.onDisk);
    var more := if p.onDisk(s.c2.item) then [s.c2.item] else [];
    var front, back := Present(Dealt(s.chans[0], s.c1), p.onDisk), Present(Dealt(s.chans[1], s.c2), p.onDisk);
    Regroup(front, back, more);
    assert s.found == front + back && s.found + [] == s.found;
  }

  lemma AppendKeeps(p: Plan, s: Stage, first: bool)
    requires Inv(p, s) && Can(p, s, ConsumerAppends(first))
    ensures Inv(p, Do(p, s, ConsumerAppends(first)))
  {
    AppendKeepsList(p, s, first);
  }

  lemma ConsumerEndKeeps(p: Plan, s: Stage, first: bool)
    requires Inv(p, s) && Can(p, s, ConsumerEnds(first))
    ensures Inv(p, Do(p, s, ConsumerEnds(first)))
  {
  }

  /** Closing is the searcher's last use of its channel. */
  lemma ClosePaired(chan: Chan, ch: nat, c: Consumer, r: Searcher, output: seq<string>)
    requires Paired(chan, ch, c, r, output) && r.Sending? && r.rest == []
    ensures Paired(chan.(closes := chan.closes + 1), ch, c, Closed, output)
  {
    assert chan.sent + [] == chan.sent;
  }

  lemma CloseKeeps(p: Plan, s: Stage, first: bool)
    requires Inv(p, s) && Can(p, s, SearcherCloses(first))
    ensures Inv(p, Do(p, s, SearcherCloses(first)))
  {
    if first {
      OneAtATime(p, s);
      ClosePaired(s.chans[0], 0, s.c1, s.s1, p.boosted);
    } else {
      ClosePaired(s.chans[1], 1, s.c2, s.s2, p.walk);
    }
  }

  lemma SearcherEndKeeps(p: Plan, s: Stage, first: bool)
    requires Inv(p, s) && Can(p, s, SearcherEnds(first))
    ensures Inv(p, Do(p, s, SearcherEnds(first)))
  {
    if first {
      OneAtATime(p, s);
    }
  }

  lemma StepKeeps(p: Plan, s: Stage, st: Step)
    requires Inv(p, s) && Can(p, s, st)
    ensures Inv(p, Do(p, s, st))
  {
    match st
    case MainSteps => MainKeeps(p, s);
    case ConsumerReads(f) => ReadsOwn(p, s, st);
    case SearcherReads(f) => ReadsOwn(p, s, st);
    case Meet(f) => MeetKeeps(p, s, f);
    case ConsumerAppends(f) => AppendKeeps(p, s, f);
    case ConsumerEnds(f) => ConsumerEndKeeps(p, s, f);
    case SearcherCloses(f) => CloseKeeps(p, s, f);
    case SearcherEnds(f) => SearcherEndKeeps(p, s, f);
  }

  lemma {:induction false} InvAlways(p: Plan, steps: seq<Step>, s: Stage)
    requires Run(p, steps) == Some(s)
    ensures Inv(p, s)
  {
    if steps != [] {
      var before := Run(p, steps[..|steps| - 1]).value;
      InvAlways(p, steps[..|steps| - 1], before);
      StepKeeps(p, before, steps[|steps| - 1]);
    }
  }

  // ---------------------------------------------------------------- main results

  /**
   Every schedule: a consumer ranges over the channel on which its own searcher sends and which that
   searcher closes, no channel is closed twice, and nothing is sent on a closed channel.
   */
  lemma ConsumersRangeOverTheirSearchersChannel(p: Plan, steps: seq<Step>, s: Stage, first: bool)
    requires Run(p, steps) == Some(s)
    ensures var c, r := ConsumerOf(s, first), SearcherOf(s, first);
            && ((c.Ranging? || c.Holding?) && r.Sending? ==> c.ch == r.ch)
            && (c.ConsumerGone? ==> r.Closed? || r.SearcherGone?)
            && (r.Sending? ==> r.ch < |s.chans| && s.chans[r.ch].closes == 0)
    ensures forall i :: 0 <= i < |s.chans| ==> s.chans[i].closes <= 1
  {
    InvAlways(p, steps, s);
    if first {
      OwnChannels(s.chans[0], 0, s.c1, s.s1, p.boosted);
    } else if Second(s) {
      OwnChannels(s.chans[1], 1, s.c2, s.s2, p.walk);
    }
    ClosedOnce(p, s);
  }

  lemma OwnChannels(chan: Chan, ch: nat, c: Consumer, r: Searcher, output: seq<string>)
    ensures Paired(chan, ch, c, r, output) ==>
              && ((c.Ranging? || c.Holding?) && r.Sending? ==> c.ch == r.ch)
              && (c.ConsumerGone? ==> r.Closed? || r.SearcherGone?)
              && (r.Sending? ==> r.ch == ch && chan.closes == 0)
  {
  }

  lemma ClosedOnce(p: Plan, s: Stage)
    requires Inv(p, s)
    ensures forall i :: 0 <= i < |s.chans| ==> s.chans[i].closes <= 1
  {
  }

  /**
   Every schedule that reaches the end of the stage: unless disk scanning is off, each channel has been
   closed exactly once, and the list is one searcher's output alone, in order. The process exits
   instead only on invalid input.
   */
  lemma StageEnds(p: Plan, steps: seq<Step>, s: Stage)
    requires Run(p, steps) == Some(s) && (p.outcome.Found? || p.boosted == [])
    ensures s.exit.Some? ==> s.exit == Some(5) && TriesBoosted(p.setting) && p.outcome.InvalidInput?
    ensures s.main.Finished? && s.exit.None? ==>
              && !(TriesBoosted(p.setting) && p.outcome.InvalidInput?)
              && (forall i :: 0 <= i < |s.chans| ==> s.chans[i].closes == if p.setting.noDiskScan then 0 else 1)
              && s.found == FinalList(p)
  {
    InvAlways(p, steps, s);
    if s.main.Finished? && s.exit.None? {
      EndCloses(p, s);
      EndList(p, s);
    }
  }

  lemma EndCloses(p: Plan, s: Stage)
    requires Inv(p, s) && s.main.Finished? && s.exit.None?
    ensures !(TriesBoosted(p.setting) && p.outcome.InvalidInput?)
    ensures forall i :: 0 <= i < |s.chans| ==> s.chans[i].closes == if p.setting.noDiskScan then 0 else 1
  {
  }

  /** The list at the end. */
  function FinalList(p: Plan): seq<string> {
    if p.setting.noDiskScan then []
    else if TriesBoosted(p.setting) && p.outcome.Found? then Present(p.boosted, p.onDisk)
    else Present(p.walk, p.onDisk)
  }

  lemma EndList(p: Plan, s: Stage)
    requires Inv(p, s) && s.main.Finished? && s.exit.None? && (p.outcome.Found? || p.boosted == [])
    ensures s.found == FinalList(p)
  {
    var front := Present(s.chans[0].sent, p.onDisk);
    assert s.c1.NoConsumer? || s.c1.ConsumerGone?;
    assert front + [] == front;
    if Second(s) {
      assert s.chans[1].sent == p.walk && s.chans[0].sent == [];
      assert [] + Present(p.walk, p.onDisk) == Present(p.walk, p.onDisk);
    }
  }

  /** The plan that the two searchers and the action path amount to. */
  function PlanOf(setting: Setting, actionPath: string, exts: seq<string>, device: Device, records: seq<Record>,
                  visits: seq<Visit>, onDisk: string -> bool): Plan
    requires actionPath != ""
  {
    var outcome, parts := BoostedOutcome(actionPath, device), SplitColons(Slashed(actionPath));
    Plan(setting, outcome,
         if outcome.Found? && |parts| == 2 then Extracted(records, [actionPath[0]], parts[1], exts) else [],
         Emitted(visits, Slashed(actionPath), exts), onDisk)
  }

  /** The list every schedule ends with is the one `RunSearch` computes in sequence. */
  lemma SchedulesAgreeWithRunSearch(setting: Setting, actionPath: string, exts: seq<string>, device: Device,
                                    records: seq<Record>, visits: seq<Visit>, onDisk: string -> bool)
    requires actionPath != "" && !(TriesBoosted(setting) && BoostedOutcome(actionPath, device).InvalidInput?)
    ensures var p := PlanOf(setting, actionPath, exts, device, records, visits, onDisk);
            && (p.outcome.Found? || p.boosted == [])
            && FinalList(p) == if setting.noDiskScan then []
                               else if BoostedDecides(setting, device)
                               then BoostedList(actionPath, exts, records, onDisk)
                               else WalkList(actionPath, exts, visits, onDisk)
  {
  }

  // ---------------------------------------------------------------- progress

  /** The stage never gets stuck: until it ends or exits some goroutine can step. */
  lemma NeverStuck(p: Plan, steps: seq<Step>, s: Stage) returns (st: Step)
    requires Run(p, steps) == Some(s) && s.exit.None? && !s.main.Finished?
    ensures Can(p, s, st)
  {
    InvAlways(p, steps, s);
    if Can(p, s, MainSteps) {
      st := MainSteps;
    } else {
      var first := LiveConsumer(s.c1) || LiveSearcher(s.s1);
      var c, r := ConsumerOf(s, first), SearcherOf(s, first);
      st := if c.ConsumerStarts? then ConsumerReads(first)
            else if c.Holding? then ConsumerAppends(first)
            else if r.SearcherStarts? then SearcherReads(first)
            else if r.Sending? then (if r.rest == [] then SearcherCloses(first) else Meet(first))
            else if r.Closed? then SearcherEnds(first)
            else ConsumerEnds(first);
    }
  }

  function MainRank(m: Main): nat {
    match m
    case Deciding => 10
    case StartingC1 => 9
    case StartingS1 => 8
    case Waiting1 => 7
    case Choosing => 6
    case ClosingUnused => 5
    case Remaking => 4
    case StartingC2 => 3
    case StartingS2 => 2
    case Waiting2 => 1
    case Finished => 0
  }

  function ConsumerRank(c: Consumer): nat {
    match c
    case NoConsumer => 4
    case ConsumerStarts => 3
    case Ranging(_) => 1
    case Holding(_, _) => 2
    case ConsumerGone => 0
  }

  function SearcherRank(r: Searcher, output: seq<string>): nat {
    match r
    case NoSearcher => 2 * |output| + 4
    case SearcherStarts => 2 * |output| + 3
    case Sending(_, rest) => 2 * |rest| + 2
    case Closed => 1
    case SearcherGone => 0
  }

  /** What is left to do. */
  function Remaining(p: Plan, s: Stage): nat {
    (if s.exit.None? then 1 else 0) + MainRank(s.main)
    + ConsumerRank(s.c1) + SearcherRank(s.s1, p.boosted) + ConsumerRank(s.c2) + SearcherRank(s.s2, p.walk)
  }

  /** Each step leaves less to do, so every schedule ends. */
  lemma StepsLeaveLess(p: Plan, s: Stage, st: Step)
    requires Inv(p, s) && Can(p, s, st)
    ensures Remaining(p, Do(p, s, st)) < Remaining(p, s)
  {
    match st
    case MainSteps => MainLeavesLess(p, s);
    case _ => PairLeavesLess(p, s, st);
  }

  lemma MainLeavesLess(p: Plan, s: Stage)
    requires Inv(p, s) && Can(p, s, MainSteps)
    ensures Remaining(p, DoMain(p, s)) < Remaining(p, s)
  {
    NotStartedYet(p, s);
  }

  /** What main starts has not been started before. */
  lemma NotStartedYet(p: Plan, s: Stage)
    requires Inv(p, s)
    ensures s.main.StartingC1? ==> s.c1.NoConsumer?
    ensures s.main.StartingS1? ==> s.s1.NoSearcher?
    ensures s.main.StartingC2? ==> s.c2.NoConsumer?
    ensures s.main.StartingS2? ==> s.s2.NoSearcher?
  {
  }

  lemma PairLeavesLess(p: Plan, s: Stage, st: Step)
    requires Can(p, s, st) && !st.MainSteps?
    ensures Remaining(p, Do(p, s, st)) < Remaining(p, s)
  {
  }
}
