/**
 From files to requests: the scanning stage and the dispatcher, which turns scan results into sanitise
 and hardening requests.
 */
module Dispatch {
  import opened Wrappers
  import opened PathNames

  datatype Measure = Measure(action: string, kind: string, dest: string)

  datatype Solution = Solution(
    name: string, destModule: string, action: string, measures: seq<Measure>, allowRepeated: bool)

  datatype ScanResult = ScanResult(rule: string, path: string)

  datatype SanitizeReq = SanitizeReq(path: string, action: string, destModule: string, detection: string)

  datatype HardenReq = HardenReq(name: string, measures: seq<Measure>, allowRepeated: bool)

  function SanitizeFor(f: ScanResult, solu: Solution): SanitizeReq {
    SanitizeReq(f.path, solu.action, solu.destModule, f.rule)
  }

  function HardenFor(f: ScanResult, solu: Solution): HardenReq {
    HardenReq(f.rule, solu.measures, solu.allowRepeated)
  }

  /** The pairs of a result with each solution of that name, in table order. */
  function Matches(f: ScanResult, sols: seq<Solution>): seq<(ScanResult, Solution)> {
    if sols == [] then []
    else (if sols[0].name == f.rule then [(f, sols[0])] else []) + Matches(f, sols[1..])
  }

  /** Everything that has to be requested, in the order of the results. */
  function Wanted(results: seq<ScanResult>, sols: seq<Solution>): seq<(ScanResult, Solution)> {
    if results == [] then [] else Matches(results[0], sols) + Wanted(results[1..], sols)
  }

  function SanitizeAll(ps: seq<(ScanResult, Solution)>): (r: seq<SanitizeReq>)
    ensures |r| == |ps| && forall i :: 0 <= i < |ps| ==> r[i] == SanitizeFor(ps[i].0, ps[i].1)
  {
    seq(|ps|, i requires 0 <= i < |ps| => SanitizeFor(ps[i].0, ps[i].1))
  }

  function HardenAll(ps: seq<(ScanResult, Solution)>): (r: seq<HardenReq>)
    ensures |r| == |ps| && forall i :: 0 <= i < |ps| ==> r[i] == HardenFor(ps[i].0, ps[i].1)
  {
    seq(|ps|, i requires 0 <= i < |ps| => HardenFor(ps[i].0, ps[i].1))
  }

  lemma {:induction false} WantedConcat(a: seq<ScanResult>, b: seq<ScanResult>, sols: seq<Solution>)
    ensures Wanted(a + b, sols) == Wanted(a, sols) + Wanted(b, sols)
  {
    if a == [] {
      assert a + b == b;
    } else {
      assert (a + b)[1..] == a[1..] + b;
      WantedConcat(a[1..], b, sols);
    }
  }

  lemma {:induction false} MatchesConcat(f: ScanResult, a: seq<Solution>, b: seq<Solution>)
    ensures Matches(f, a + b) == Matches(f, a) + Matches(f, b)
  {
    if a == [] {
      assert a + b == b;
    } else {
      assert (a + b)[1..] == a[1..] + b;
      MatchesConcat(f, a[1..], b);
    }
  }

  /** A pair is wanted exactly when it joins a result with a solution of that name. */
  lemma {:induction false} WantedPairs(results: seq<ScanResult>, sols: seq<Solution>, f: ScanResult, solu: Solution)
    ensures (f, solu) in Wanted(results, sols) <==> f in results && solu in sols && solu.name == f.rule
  {
    if results != [] {
      MatchesPairs(results[0], sols, f, solu);
      WantedPairs(results[1..], sols, f, solu);
      assert f in results <==> f == results[0] || f in results[1..];
    }
  }

  lemma {:induction false} MatchesPairs(g: ScanResult, sols: seq<Solution>, f: ScanResult, solu: Solution)
    ensures (f, solu) in Matches(g, sols) <==> f == g && solu in sols && solu.name == g.rule
  {
    if sols != [] {
      MatchesPairs(g, sols[1..], f, solu);
      assert solu in sols <==> solu == sols[0] || solu in sols[1..];
    }
  }

  /** Requests are made pair by pair. */
  lemma RequestsConcat(a: seq<(ScanResult, Solution)>, b: seq<(ScanResult, Solution)>)
    ensures SanitizeAll(a + b) == SanitizeAll(a) + SanitizeAll(b)
    ensures HardenAll(a + b) == HardenAll(a) + HardenAll(b)
  {
  }

  /** One more result adds its matches. */
  lemma WantedSnoc(results: seq<ScanResult>, n: nat, sols: seq<Solution>)
    requires n < |results|
    ensures Wanted(results[..n + 1], sols) == Wanted(results[..n], sols) + Matches(results[n], sols)
  {
    assert results[..n + 1] == results[..n] + [results[n]];
    WantedConcat(results[..n], [results[n]], sols);
    assert Wanted([results[n]], sols) == Matches(results[n], sols) + [];
  }

  /** The inner loop: the requests of one result. */
  method DispatchOne(f: ScanResult, solutions: seq<Solution>, enableHardening: bool)
    returns (sanitize: seq<SanitizeReq>, harden: seq<HardenReq>)
    ensures sanitize == SanitizeAll(Matches(f, solutions))
    ensures harden == if enableHardening then HardenAll(Matches(f, solutions)) else []
  {
    sanitize, harden := [], [];
    assert solutions[..0] == [];
    for k := 0 to |solutions|
      invariant sanitize == SanitizeAll(Matches(f, solutions[..k]))
      invariant harden == if enableHardening then HardenAll(Matches(f, solutions[..k])) else []
    {
      var solu := solutions[k];
      assert solutions[..k + 1] == solutions[..k] + [solu];
      MatchesConcat(f, solutions[..k], [solu]);
      if solu.name == f.rule {
        sanitize := sanitize + [SanitizeFor(f, solu)];
        if enableHardening {
          harden := harden + [HardenFor(f, solu)];
        }
      }
    }
    assert solutions[..|solutions|] == solutions;
  }

  /** The dispatcher's loops, on queues that never fill. */
  method DispatchAll(results: seq<ScanResult>, solutions: seq<Solution>, enableHardening: bool)
    returns (sanitize: seq<SanitizeReq>, harden: seq<HardenReq>)
    ensures sanitize == SanitizeAll(Wanted(results, solutions))
    ensures harden == if enableHardening then HardenAll(Wanted(results, solutions)) else []
  {
    sanitize, harden := [], [];
    assert results[..0] == [];
    for n := 0 to |results|
      invariant sanitize == SanitizeAll(Wanted(results[..n], solutions))
      invariant harden == if enableHardening then HardenAll(Wanted(results[..n], solutions)) else []
    {
      WantedSnoc(results, n, solutions);
      RequestsConcat(Wanted(results[..n], solutions), Matches(results[n], solutions));
      var more, moreHarden := DispatchOne(results[n], solutions, enableHardening);
      sanitize, harden := sanitize + more, harden + moreHarden;
    }
    assert results[..|results|] == results;
  }

  // ---------------------------------------------------------------- the scanning stage

  /** What scanning asks of the disk, of zip and of YARA; `None` stands for an error. */
  datatype Disk = Disk(macroPart: string -> Option<seq<bv8>>, content: string -> Option<seq<bv8>>,
                       rules: seq<bv8> -> Option<seq<string>>)

  /** The rules a file matches; files that cannot be read or scanned contribute none. */
  function RulesOf(d: Disk, file: string): seq<string> {
    var input := if |Ext(file)| > 4 then d.macroPart(file) else d.content(file);
    if input.None? then []
    else var r := d.rules(input.value); if r.None? then [] else r.value
  }

  function ResultsOf(d: Disk, file: string): (r: seq<ScanResult>)
    ensures |r| == |RulesOf(d, file)| && forall i :: 0 <= i < |r| ==> r[i] == ScanResult(RulesOf(d, file)[i], file)
  {
    seq(|RulesOf(d, file)|, i requires 0 <= i < |RulesOf(d, file)| => ScanResult(RulesOf(d, file)[i], file))
  }

  function Scanned(d: Disk, files: seq<string>): seq<ScanResult> {
    if files == [] then [] else Scanned(d, files[..|files| - 1]) + ResultsOf(d, files[|files| - 1])
  }

  /** The loop of the scanning stage: what it sends, in order, before it closes its channel. */
  method ScanFilesWithYara(d: Disk, detList: seq<string>) returns (sent: seq<ScanResult>)
    ensures sent == Scanned(d, detList)
  {
    sent := [];
    for n := 0 to |detList|
      invariant sent == Scanned(d, detList[..n])
    {
      var filep := detList[n];
      ghost var before := sent;
      assert detList[..n + 1][..n] == detList[..n];
      var input := None;
      if |Ext(filep)| > 4 {
        input := d.macroPart(filep);
      } else {
        input := d.content(filep);
      }
      if input.None? {
        assert ResultsOf(d, filep) == [];
        continue;
      }
      var mr := d.rules(input.value);
      if mr.None? {
        assert ResultsOf(d, filep) == [];
        continue;
      }
      for k := 0 to |mr.value|
        invariant sent == before + ResultsOf(d, filep)[..k]
      {
        sent := sent + [ScanResult(mr.value[k], filep)];
      }
      assert ResultsOf(d, filep)[..|mr.value|] == ResultsOf(d, filep);
    }
    assert detList[..|detList|] == detList;
  }

  /** A file reaches the dispatcher under a rule exactly when it was listed and matched that rule. */
  lemma {:induction false} ScannedExactly(d: Disk, files: seq<string>, rule: string, file: string)
    ensures ScanResult(rule, file) in Scanned(d, files) <==> file in files && rule in RulesOf(d, file)
  {
    if files != [] {
      var n := |files| - 1;
      ScannedExactly(d, files[..n], rule, file);
      assert files == files[..n] + [files[n]];
      var r := ResultsOf(d, files[n]);
      if rule in RulesOf(d, file) && file == files[n] {
        var i :| 0 <= i < |RulesOf(d, file)| && RulesOf(d, file)[i] == rule;
        assert r[i] == ScanResult(rule, file);
      }
    }
  }
}
