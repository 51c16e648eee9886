/** The search stage of the agent: which searcher runs, over which channel, and what list results. */
module SearchStage {
  import opened Wrappers
  import opened PathNames
  import opened Search

  /** An unbuffered channel, by what has passed through it. Sending or closing after a close panics. */
  class Channel {
    var sent: seq<string>
    var closes: nat

    ghost predicate Open()
      reads this
    {
      closes == 0
    }

    constructor ()
      ensures Open() && sent == []
    {
      sent, closes := [], 0;
    }

    method Send(x: string)
      requires Open()
      modifies this`sent
      ensures sent == old(sent) + [x]
    {
      sent := sent + [x];
    }

    method Close()
      requires Open()
      modifies this`closes
      ensures closes == 1
    {
      closes := closes + 1;
    }
  }

  /** `elevated` and `ntfs` are what the Windows checks would answer; elsewhere both checks fail. */
  datatype Setting = Setting(noDiskScan: bool, noPriv: bool, onWindows: bool, elevated: bool, ntfs: bool)

  predicate TriesBoosted(s: Setting) {
    !s.noDiskScan && s.onWindows && s.elevated && s.ntfs && !s.noPriv
  }

  /** The items that are on the local disk and not empty. */
  function Present(items: seq<string>, onDisk: string -> bool): seq<string> {
    if items == [] then []
    else Present(items[..|items| - 1], onDisk) + if onDisk(items[|items| - 1]) then [items[|items| - 1]] else []
  }

  /** A searcher sends what it found, one by one, and closes its channel. */
  method Emit(output: seq<string>, ch: Channel)
    requires ch.Open() && ch.sent == []
    modifies ch
    ensures ch.sent == output && ch.closes == 1
  {
    for n := 0 to |output|
      invariant ch.Open() && ch.sent == output[..n]
    {
      ch.Send(output[n]);
    }
    assert output[..|output|] == output;
    ch.Close();
  }

  /** The consumer ranges over a channel until it is closed. */
  method SearchConsumer(ch: Channel, found: seq<string>, onDisk: string -> bool) returns (found': seq<string>)
    requires ch.closes == 1
    ensures found' == found + Present(ch.sent, onDisk)
  {
    found' := found;
    for n := 0 to |ch.sent|
      invariant found' == found + Present(ch.sent[..n], onDisk)
    {
      var item := ch.sent[n];
      assert ch.sent[..n + 1][..n] == ch.sent[..n];
      if !onDisk(item) {
        continue;
      }
      found' := found' + [item];
    }
    assert ch.sent[..|ch.sent|] == ch.sent;
  }

  /** What the boosted search lists, if it gets that far. */
  function BoostedList(actionPath: string, exts: seq<string>, records: seq<Record>, onDisk: string -> bool): seq<string>
    requires actionPath != ""
  {
    var parts := SplitColons(Slashed(actionPath));
    if |parts| != 2 then [] else Present(Extracted(records, [actionPath[0]], parts[1], exts), onDisk)
  }

  function WalkList(actionPath: string, exts: seq<string>, visits: seq<Visit>, onDisk: string -> bool): seq<string> {
    Present(Emitted(visits, Slashed(actionPath), exts), onDisk)
  }

  /** How the boosted search ends, as a caller can tell before it starts. */
  function BoostedOutcome(actionPath: string, device: Device): Outcome
    requires actionPath != ""
  {
    if !IsLetter(actionPath[0]) then InvalidInput
    else if !device.DeviceOk? then Fallback
    else if |SplitColons(Slashed(actionPath))| != 2 then InvalidInput
    else Found
  }

  /** The boosted searcher with its consumer: nothing is listed unless it succeeds. */
  method BoostedWithConsumer(ch: Channel, actionPath: string, allowedExts: seq<string>, device: Device,
                             records: seq<Record>, onDisk: string -> bool)
    returns (outcome: Outcome, found: seq<string>)
    requires actionPath != "" && ch.Open() && ch.sent == []
    modifies ch
    ensures ch.closes == 1 && outcome == BoostedOutcome(actionPath, device)
    ensures found == if outcome.Found? then BoostedList(actionPath, allowedExts, records, onDisk) else []
  {
    var counted, output;
    outcome, counted, output := ExtractAndParseMFTThenSearch(actionPath, allowedExts, device, records);
    Emit(output, ch);
    found := SearchConsumer(ch, [], onDisk);
    assert [] + Present(output, onDisk) == Present(output, onDisk);
  }

  method WalkWithConsumer(ch: Channel, actionPath: string, allowedExts: seq<string>, visits: seq<Visit>,
                          found: seq<string>, onDisk: string -> bool) returns (found': seq<string>)
    requires ch.Open() && ch.sent == []
    modifies ch
    ensures ch.closes == 1 && found' == found + WalkList(actionPath, allowedExts, visits, onDisk)
  {
    var counted, output := GeneralWalkthroughSearch(actionPath, allowedExts, visits);
    Emit(output, ch);
    found' := SearchConsumer(ch, found, onDisk);
  }

  /** The searcher whose output the found list is. */
  predicate BoostedDecides(s: Setting, device: Device) {
    TriesBoosted(s) && device.DeviceOk?
  }

  /**
   The stage up to its last wait. `exit` is the process's exit code if it ends here. Each searcher
   runs against its consumer to the end, which is what the waits in between amount to. Unless disk
   scanning is off, every channel is closed exactly once and the list is one searcher's alone.
   */
  method RunSearch(s: Setting, actionPath: string, allowedExts: seq<string>, device: Device, records: seq<Record>,
                   visits: seq<Visit>, onDisk: string -> bool)
    returns (exit: Option<int>, found: seq<string>, channels: seq<Channel>)
    requires actionPath != ""
    ensures exit == if TriesBoosted(s) && BoostedOutcome(actionPath, device).InvalidInput? then Some(5) else None
    ensures 1 <= |channels| <= 2
    ensures forall i :: 0 <= i < |channels| ==> channels[i].closes == if s.noDiskScan then 0 else 1
    ensures exit.None? ==>
              found == if s.noDiskScan then []
                       else if BoostedDecides(s, device) then BoostedList(actionPath, allowedExts, records, onDisk)
                       else WalkList(actionPath, allowedExts, visits, onDisk)
  {
    exit, found := None, [];
    var searcherOptChan := new Channel();
    channels := [searcherOptChan];
    if s.noDiskScan {
      return;
    }
    var triggeredErrFallback, goesForPrivileged := false, false;
    var isElevated, isNTFS := s.onWindows && s.elevated, s.onWindows && s.ntfs;
    if isElevated && isNTFS && !s.noPriv {
      goesForPrivileged := true;
      var outcome;
      outcome, found := BoostedWithConsumer(searcherOptChan, actionPath, allowedExts, device, records, onDisk);
      if outcome.InvalidInput? {
        return Some(5), found, channels;
      }
      if outcome.Fallback? {
        triggeredErrFallback := true;
      }
    } else if s.onWindows {
      triggeredErrFallback := true;
    }
    if !s.onWindows || triggeredErrFallback || s.noPriv {
      if !goesForPrivileged {
        searcherOptChan.Close();
      }
      var second := new Channel();
      channels := channels + [second];
      found := WalkWithConsumer(second, actionPath, allowedExts, visits, found, onDisk);
    }
  }

  /** A file is listed for scanning exactly when the searcher that ran emitted it and it is present. */
  lemma {:induction false} PresentExactly(items: seq<string>, onDisk: string -> bool, x: string)
    ensures x in Present(items, onDisk) <==> x in items && onDisk(x)
  {
    if items != [] {
      var n := |items| - 1;
      PresentExactly(items[..n], onDisk, x);
      assert items == items[..n] + [items[n]];
    }
  }

  /** Falling back to the walk loses nothing that it could have listed: the boosted list contains the walk's. */
  lemma BoostedListCoversWalkList(actionPath: string, letter: char, segs: seq<string>, volume: Forest,
                                  exts: seq<string>, records: seq<Record>, onDisk: string -> bool, x: string)
    requires Names(actionPath, letter, segs, volume) && ListsVolume(records, volume)
    requires x in Present(WalkOutput(actionPath, exts, Reached(volume, segs).value), onDisk)
    ensures actionPath != "" && x in BoostedList(actionPath, exts, records, onDisk)
  {
    ActionPathSplits(actionPath, letter, segs, volume);
    PresentExactly(WalkOutput(actionPath, exts, Reached(volume, segs).value), onDisk, x);
    BoostedCoversWalk(actionPath, letter, segs, volume, exts, records, x);
    PresentExactly(TableOutput(letter, segs, exts, records), onDisk, x);
  }
}
