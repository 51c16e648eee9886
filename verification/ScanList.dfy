/**
 Reading a list of scan results from text, one "rule path" per line. Strings are byte strings, one
 character a byte. Lines are split as `bufio.ScanLines` does, under the scanner's size limit.
 */
module ScanList {
  import opened Wrappers
  import opened Dispatch

  // A line longer than this does not fit the scanner's buffer of 65536 bytes.
  const MAX_LINE: nat := 65535

  /** Position of the first `c`, or the length if there is none. */
  function IndexOf(s: string, c: char): (i: nat)
    ensures i <= |s| && (i < |s| ==> s[i] == c)
    ensures forall k :: 0 <= k < i ==> s[k] != c
  {
    if s == "" || s[0] == c then 0 else 1 + IndexOf(s[1..], c)
  }

  function DropCR(s: string): string {
    if s != "" && s[|s| - 1] == '\r' then s[..|s| - 1] else s
  }

  /** What one line says: a result needs a non-empty rule and at least three bytes after the first space. */
  function ParseLine(line: string): Option<ScanResult> {
    var idx := IndexOf(line, ' ');
    if idx == |line| || idx == 0 || idx + 3 >= |line| then None
    else Some(ScanResult(line[..idx], line[idx + 1..]))
  }

  function AsResults(r: Option<ScanResult>): seq<ScanResult> {
    if r.None? then [] else [r.value]
  }

  /** The results of a text, and whether every line fitted the scanner. */
  datatype Parsed = Parsed(results: seq<ScanResult>, ok: bool)

  /** What a line's results do to the parse of the text after it. */
  function After(first: seq<ScanResult>, p: Parsed): Parsed {
    Parsed(first + p.results, p.ok)
  }

  /** The text after its first line. */
  function Tail(text: string): string {
    var i := IndexOf(text, '\n');
    if i < |text| then text[i + 1..] else ""
  }

  function Head(text: string): string {
    text[..IndexOf(text, '\n')]
  }

  function Parse(text: string): Parsed
    decreases |text|
  {
    if text == "" then Parsed([], true)
    else if |Head(text)| > MAX_LINE then Parsed([], false)
    else After(AsResults(ParseLine(DropCR(Head(text)))), Parse(Tail(text)))
  }

  lemma AfterTwice(a: seq<ScanResult>, b: seq<ScanResult>, p: Parsed)
    ensures After(a, After(b, p)) == After(a + b, p)
  {
    assert a + (b + p.results) == (a + b) + p.results;
  }

  /** The scanner loop; `None` is a file that cannot be opened. */
  method ParseYaraScanResultText(file: Option<string>) returns (output: seq<ScanResult>, ok: bool)
    ensures file.None? ==> output == [] && !ok
    ensures file.Some? ==> Parsed(output, ok) == Parse(file.value)
  {
    output := [];
    if file.None? {
      return [], false;
    }
    var rest := file.value;
    assert After([], Parse(rest)) == Parse(rest);
    while rest != ""
      invariant Parse(file.value) == After(output, Parse(rest))
      decreases |rest|
    {
      var line := Head(rest);
      if |line| > MAX_LINE {
        return output, false;
      }
      var data := DropCR(line);
      AfterTwice(output, AsResults(ParseLine(data)), Parse(Tail(rest)));
      rest := Tail(rest);
      var idx := IndexOf(data, ' ');
      if idx == |data| || idx == 0 || idx + 3 >= |data| {
        assert output + [] == output;
        continue;
      }
      output := output + [ScanResult(data[..idx], data[idx + 1..])];
    }
    ok := true;
  }

  // ---------------------------------------------------------------- one line

  /** A line gives a result exactly when it is a non-empty rule without spaces, one space, and at least three bytes. */
  lemma ParseLineExactly(line: string, r: ScanResult)
    ensures ParseLine(line) == Some(r) <==>
            line == r.rule + " " + r.path && r.rule != "" && ' ' !in r.rule && |r.path| >= 3
  {
    if line == r.rule + " " + r.path && r.rule != "" && ' ' !in r.rule && |r.path| >= 3 {
      assert line[..|r.rule|] == r.rule && line[|r.rule|] == ' ' && line[|r.rule| + 1..] == r.path;
      assert forall k :: 0 <= k < |r.rule| ==> line[k] == r.rule[k] && r.rule[k] in r.rule;
      assert IndexOf(line, ' ') == |r.rule|;
    }
    if ParseLine(line) == Some(r) {
      var idx := IndexOf(line, ' ');
      assert line == line[..idx] + [line[idx]] + line[idx + 1..];
      assert forall k :: 0 <= k < idx ==> line[..idx][k] == line[k];
    }
  }

  // ---------------------------------------------------------------- whole files

  /** A line to print: a result, or text that is none. */
  datatype Line = Good(r: ScanResult) | Junk(text: string)

  function Text(l: Line): string {
    match l
    case Good(r) => r.rule + " " + r.path
    case Junk(text) => text
  }

  /** Printable without harm: a result the format can carry, or text that no parser takes for one. */
  ghost predicate Printable(l: Line) {
    && '\n' !in Text(l) && |Text(l)| <= MAX_LINE
    && match l
       case Good(r) => r.rule != "" && ' ' !in r.rule && |r.path| >= 3 && r.path[|r.path| - 1] != '\r'
       case Junk(text) => ParseLine(DropCR(text)).None?
  }

  function Print(lines: seq<Line>): string {
    if lines == [] then "" else Text(lines[0]) + "\n" + Print(lines[1..])
  }

  function Results(lines: seq<Line>): seq<ScanResult> {
    if lines == [] then [] else ResultOf(lines[0]) + Results(lines[1..])
  }

  /** The first line of a text is what stands before its first newline. */
  lemma HeadAndTail(line: string, rest: string)
    requires '\n' !in line
    ensures Head(line + "\n" + rest) == line && Tail(line + "\n" + rest) == rest
    ensures Head(line) == line && Tail(line) == ""
  {
    var t, n := line + "\n" + rest, |line|;
    assert forall k :: 0 <= k < n ==> t[k] == line[k] && line[k] in line;
    assert t[n] == '\n';
    assert IndexOf(t, '\n') == n;
    assert t[..n] == line && t[n + 1..] == rest;
    assert IndexOf(line, '\n') == n;
    assert line[..n] == line;
  }

  function ResultOf(l: Line): seq<ScanResult> {
    if l.Good? then [l.r] else []
  }

  /** A printable line is read as what it is. */
  lemma PrintableIsRead(l: Line)
    requires Printable(l)
    ensures AsResults(ParseLine(DropCR(Text(l)))) == ResultOf(l)
  {
    if l.Good? {
      assert Text(l)[|Text(l)| - 1] == l.r.path[|l.r.path| - 1];
      ParseLineExactly(Text(l), l.r);
    }
  }

  /** Parsing a text whose first line is printable. */
  lemma ParseFirstLine(l: Line, rest: string)
    requires Printable(l)
    ensures Parse(Text(l) + "\n" + rest) == After(ResultOf(l), Parse(rest))
  {
    HeadAndTail(Text(l), rest);
    PrintableIsRead(l);
  }

  /**
   Printing results and parsing them back gives the same results in the same order, and lines that
   are no results change nothing wherever they stand, whatever text follows.
   */
  lemma {:induction false} ParsePrinted(lines: seq<Line>, rest: string)
    requires forall i :: 0 <= i < |lines| ==> Printable(lines[i])
    ensures Parse(Print(lines) + rest) == After(Results(lines), Parse(rest))
  {
    if lines == [] {
      assert Print(lines) + rest == rest;
    } else {
      var more := Print(lines[1..]) + rest;
      assert Print(lines) + rest == Text(lines[0]) + "\n" + more;
      ParseFirstLine(lines[0], more);
      ParsePrinted(lines[1..], rest);
      AfterTwice(ResultOf(lines[0]), Results(lines[1..]), Parse(rest));
    }
  }

  /** The round trip on a whole file. */
  lemma {:induction false} PrintThenParse(lines: seq<Line>)
    requires forall i :: 0 <= i < |lines| ==> Printable(lines[i])
    ensures Parse(Print(lines)) == Parsed(Results(lines), true)
  {
    ParsePrinted(lines, "");
    assert Print(lines) + "" == Print(lines);
    assert Results(lines) + [] == Results(lines);
  }

  /** A last line without newline counts like any other. */
  lemma {:induction false} LastLineNeedsNoNewline(lines: seq<Line>, last: Line)
    requires (forall i :: 0 <= i < |lines| ==> Printable(lines[i])) && Printable(last)
    ensures Parse(Print(lines) + Text(last)) == After(Results(lines), Parsed(ResultOf(last), true))
  {
    ParsePrinted(lines, Text(last));
    HeadAndTail(Text(last), "");
    PrintableIsRead(last);
    assert ResultOf(last) + [] == ResultOf(last);
  }

  /** A line over the limit is an error, but the results before it have been sent. */
  lemma {:induction false} LongLineStopsTheScan(lines: seq<Line>, long: string)
    requires forall i :: 0 <= i < |lines| ==> Printable(lines[i])
    requires |long| > MAX_LINE && forall k :: 0 <= k <= MAX_LINE ==> long[k] != '\n'
    ensures Parse(Print(lines) + long) == Parsed(Results(lines), false)
  {
    ParsePrinted(lines, long);
    assert IndexOf(long, '\n') > MAX_LINE;
    assert Results(lines) + [] == Results(lines);
  }
}
