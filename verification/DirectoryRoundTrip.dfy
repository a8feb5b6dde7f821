/** What the listing script prints, the parser reads back (app/domain/filebrowse.go). */
module DirectoryRoundTrip {
  import opened Options
  import opened Ordering
  import opened Sequences
  import opened Text
  import opened DirectoryListings
  import opened DirectoryReadBack

  /** Exactly when: the parser shows a directory as it should be shown if and only if every
      link target the script gets to print is one word other than the mark for none. */
  lemma RoundTripExactlyWhen(c: Container, dir: string)
    requires !c.denied
    ensures Parsed(Printed(ScriptLines(c)), dir) == Listed(Expectation(c, dir)) <==> AllCarried(c, c.nodes, 0)
  {
    if AllCarried(c, c.nodes, 0) {
      ScriptRoundTrip(c, dir);
    } else {
      var e :| e in ShownFrom(c.nodes, 0) && !Carried(c, e);
      if e.target.value == "" {
        EmptyTargetRefuses(c, dir, e);
      } else {
        UncleanIsNotParsed(c, dir, e);
      }
    }
  }

  /** When nothing is cut off, every name with a newline is owned up to. */
  lemma {:induction false} AllPassedOver(nodes: seq<Node>, n: nat)
    requires n <= LISTING_ENTRY_CAP && n + |Filter(nodes, CanBeListed())| <= LISTING_ENTRY_CAP
    ensures PassedOver(nodes, n) == |Filter(nodes, (e: Node) => e.Present() && e.HasNewline())|
    decreases |nodes|
  {
    if nodes != [] {
      FirstShown(nodes, n);
      AllPassedOver(nodes[1..], if nodes[0].Listable() then n + 1 else n);
    }
  }

  lemma DeniedIsRefused(c: Container, dir: string)
    requires c.denied
    ensures Parsed(Printed(ScriptLines(c)), dir) == Refused(Denied)
  {
    WholePieces(["denied"]);
    ParsedPrinted(["denied"], dir);
    ReadOne(START, "denied", []);
    assert ["denied"] + [] == ["denied"];
  }

  // ---- A stream cut anywhere ----

  lemma CutInFirst(lines: seq<string>, m: nat)
    requires lines != [] && '\n' !in lines[0] && m <= |lines[0]|
    ensures m <= |Printed(lines)| && Split(Printed(lines)[..m], '\n') == [lines[0][..m]]
  {
    var torn := lines[0][..m];
    assert forall ch | ch in torn :: ch in lines[0];
    SplitSingle(torn, '\n');
    assert Printed(lines)[..m] == torn;
  }

  lemma CutBehindFirst(lines: seq<string>, m: nat)
    requires lines != [] && '\n' !in lines[0] && |lines[0]| < m <= |Printed(lines)|
    ensures m - |lines[0]| - 1 <= |Printed(lines[1..])|
    ensures Split(Printed(lines)[..m], '\n') == [lines[0]] + Split(Printed(lines[1..])[..m - |lines[0]| - 1], '\n')
  {
    var rest := Printed(lines[1..])[..m - |lines[0]| - 1];
    assert Printed(lines)[..m] == lines[0] + ['\n'] + rest;
    SplitCons(lines[0], '\n', rest);
  }

  /** Cut anywhere, a stream is some of its lines and the beginning of the next. */
  lemma {:induction false} CutLines(lines: seq<string>, m: nat) returns (k: nat, torn: string)
    requires m <= |Printed(lines)| && forall l | l in lines :: '\n' !in l
    ensures k <= |lines| && Split(Printed(lines)[..m], '\n') == lines[..k] + [torn]
    ensures if k < |lines| then torn <= lines[k] else torn == ""
    decreases |lines|
  {
    if lines == [] {
      k, torn := 0, "";
      SplitSingle(torn, '\n');
      assert Printed(lines)[..m] == torn;
    } else if m <= |lines[0]| {
      k, torn := 0, lines[0][..m];
      CutInFirst(lines, m);
    } else {
      CutBehindFirst(lines, m);
      k, torn := CutLines(lines[1..], m - |lines[0]| - 1);
      assert [lines[0]] + (lines[1..][..k] + [torn]) == lines[..k + 1] + [torn];
      k := k + 1;
    }
  }

  /** A line of the script's is none of the refusals, nor the beginning of one. */
  predicate Starts(line: string) { line != "" && line[0] != 'u' && line[0] != 'd' }

  lemma {:induction false} LoopLinesStart(c: Container, nodes: seq<Node>, n: nat)
    requires n <= LISTING_ENTRY_CAP
    ensures forall l | l in LoopLines(c, nodes, n) :: Starts(l)
    decreases |nodes|
  {
    if nodes == [] {
      FirstTwo("end " + Decimal(n));
    } else if !nodes[0].Present() {
      LoopLinesStart(c, nodes[1..], n);
    } else if nodes[0].HasNewline() {
      LoopLinesStart(c, nodes[1..], n);
    } else if n + 1 > LISTING_ENTRY_CAP {
      FirstTwo("end " + Decimal(n + 1));
    } else {
      LoopLinesStart(c, nodes[1..], n + 1);
      EntryLineStarts(c, nodes[0]);
      FirstTwo(EntryLine(c, nodes[0]));
    }
  }

  lemma ScriptLinesStart(c: Container)
    requires !c.denied
    ensures forall l | l in ScriptLines(c) :: Starts(l)
  {
    ToolsLineStarts(c);
    FirstTwo(Join(ToolsFields(c), ' '));
    LoopLinesStart(c, c.nodes, 0);
  }

  lemma {:induction false} NamesAppend(a: seq<string>, b: seq<string>)
    ensures NamesIn(a + b) == NamesIn(a) + NamesIn(b)
  {
    if a == [] {
      assert a + b == b;
    } else {
      NamesAppend(a[1..], b);
      assert (a + b)[1..] == a[1..] + b;
    }
  }

  /** The script prints no more names than the cap. */
  lemma {:induction false} LoopNames(c: Container, nodes: seq<Node>, n: nat)
    requires n <= LISTING_ENTRY_CAP
    ensures n + NamesIn(LoopLines(c, nodes, n)) <= LISTING_ENTRY_CAP
    decreases |nodes|
  {
    if nodes == [] {
      FirstTwo("end " + Decimal(n));
      OneName("end " + Decimal(n));
    } else if !nodes[0].Present() {
      LoopNames(c, nodes[1..], n);
    } else if nodes[0].HasNewline() {
      LoopNames(c, nodes[1..], n);
      NamesAppend(["skipped newline"], LoopLines(c, nodes[1..], n));
      FirstTwo("skipped newline");
      OneName("skipped newline");
    } else if n + 1 > LISTING_ENTRY_CAP {
      FirstTwo("end " + Decimal(n + 1));
      NamesAppend(["truncated"], ["end " + Decimal(n + 1)]);
      FirstTwo("truncated");
      OneName("truncated");
      OneName("end " + Decimal(n + 1));
      assert ["truncated"] + ["end " + Decimal(n + 1)] == ["truncated", "end " + Decimal(n + 1)];
    } else {
      EntryNames(c, nodes[0], LoopLines(c, nodes[1..], n + 1));
      LoopNames(c, nodes[1..], n + 1);
    }
  }

  lemma OneName(line: string)
    ensures NamesIn([line]) == if "n " <= line then 1 else 0
  {
    assert [line][1..] == [];
  }

  lemma EntryNames(c: Container, e: Node, rest: seq<string>)
    ensures NamesIn([EntryLine(c, e), "n " + e.name] + rest) == 1 + NamesIn(rest)
  {
    EntryLineStarts(c, e);
    FirstTwo(EntryLine(c, e));
    NamesAppend([EntryLine(c, e), "n " + e.name], rest);
    NamesAppend([EntryLine(c, e)], ["n " + e.name]);
    OneName(EntryLine(c, e));
    OneName("n " + e.name);
    assert [EntryLine(c, e)] + ["n " + e.name] == [EntryLine(c, e), "n " + e.name];
  }

  lemma ScriptNames(c: Container)
    requires !c.denied
    ensures NamesIn(ScriptLines(c)) <= LISTING_ENTRY_CAP
  {
    var line := Join(ToolsFields(c), ' ');
    ToolsLineStarts(c);
    FirstTwo(line);
    LoopNames(c, c.nodes, 0);
    NamesAppend([line], LoopLines(c, c.nodes, 0));
    OneName(line);
  }

  /** Cutting brings no names in. */
  lemma CutNames(lines: seq<string>, k: nat, torn: string)
    requires k <= |lines| && if k < |lines| then torn <= lines[k] else torn == ""
    ensures NamesIn(lines[..k] + [torn]) <= NamesIn(lines)
  {
    NamesAppend(lines[..k], [torn]);
    OneName(torn);
    NamesAppend(lines[..k], lines[k..]);
    assert lines[..k] + lines[k..] == lines;
    if "n " <= torn { NamedFirst(lines[k..], torn); }
  }

  lemma NamedFirst(lines: seq<string>, torn: string)
    requires lines != [] && torn <= lines[0] && "n " <= torn
    ensures NamesIn(lines) >= 1
  {
  }

  lemma WholeScanGetsThrough(c: Container)
    requires !c.denied && AllCarried(c, c.nodes, 0)
    ensures ReadLines(START, ScriptLines(c)).Reading?
  {
    var lines := ScriptLines(c);
    ScriptLinesHaveNoNewline(c);
    WholePieces(lines);
    var dir := "";
    ScriptRoundTrip(c, dir);
    ParsedPrinted(lines, dir);
  }

  lemma PrefixGetsThrough(s: Scan, lines: seq<string>, k: nat)
    requires ReadLines(s, lines).Reading? && k <= |lines|
    ensures ReadLines(s, lines[..k]).Reading?
    ensures k < |lines| ==> ReadLine(ReadLines(s, lines[..k]), lines[k]).Reading?
  {
    ReadAppend(s, lines[..k], lines[k..]);
    assert lines[..k] + lines[k..] == lines;
    if k < |lines| { assert lines[k..][0] == lines[k]; }
  }

  /** An entry's line that does not hold its fields. */
  predicate Torn(line: string) { "e " <= line && ParseEntryLine(line).None? }

  /** The beginning of a line that gets through stops the scan exactly when it is torn. */
  lemma TornRead(s: Scan, line: string, torn: string)
    requires s.Reading? && Starts(line) && ReadLine(s, line).Reading? && torn <= line
    ensures ReadLine(s, torn).Stopped? <==> Torn(torn)
  {
    if "n " <= torn {
      NameLineRead(s, line);
      NameLineRead(s, torn);
      FirstTwo(torn);
    } else if "e " <= torn {
      EntryLineRead(s, torn);
    } else if torn != "" {
      assert torn[0] == line[0];
    }
  }

  /** The scan of a cut stream gets through unless the cut tore an entry's line. */
  lemma CutScan(s: Scan, lines: seq<string>, k: nat, torn: string)
    requires s.Reading? && ReadLines(s, lines).Reading? && forall l | l in lines :: Starts(l)
    requires k <= |lines| && if k < |lines| then torn <= lines[k] else torn == ""
    ensures ReadLines(s, lines[..k] + [torn]).Reading? <==> !Torn(torn)
    ensures forall l | l in lines[..k] :: !Torn(l)
  {
    PrefixGetsThrough(s, lines, k);
    var t := ReadLines(s, lines[..k]);
    ReadAppend(s, lines[..k], [torn]);
    ReadOne(t, torn, []);
    assert [torn] + [] == [torn];
    if k < |lines| { TornRead(t, lines[k], torn); }
    forall l | l in lines[..k] ensures !Torn(l) {
      if Torn(l) { BadLineStops(s, lines[..k], l); }
    }
  }

  /** Shown as a whole listing: accepted, and not marked as cut. */
  predicate ShownWhole(outcome: Outcome) { outcome.Listed? && !outcome.listing.truncated }

  lemma ShownWholeExactlyWhen(lines: seq<string>, dir: string)
    requires ReadLines(START, lines).Reading? && NamesIn(lines) <= LISTING_ENTRY_CAP
    ensures ShownWhole(Concluded(ReadLines(START, lines), dir)) <==>
      "truncated" !in lines && exists l | l in lines :: "n " <= l || "end " <= l
  {
    AcceptedExactlyWhen(lines, dir);
    ScanCounts(START, lines);
    if "truncated" !in lines {
      forall l | l in lines ensures Tells(l) <==> "n " <= l || "end " <= l {}
    }
  }

  /** Exactly when: the stream of a directory, cut after any of its characters, is shown as a
      whole listing if and only if no entry's line was torn, no mark of truncation got through,
      and a name, be it shortened, or the end did. */
  lemma CutExactlyWhen(c: Container, dir: string, m: nat)
    requires !c.denied && AllCarried(c, c.nodes, 0) && m <= |Printed(ScriptLines(c))|
    ensures var out := Printed(ScriptLines(c))[..m]; var lines := Split(out, '\n');
      ShownWhole(Parsed(out, dir)) <==>
        (forall l | l in lines :: !Torn(l)) && "truncated" !in lines && exists l | l in lines :: "n " <= l || "end " <= l
  {
    ScriptLinesHaveNoNewline(c);
    ScriptLinesStart(c);
    ScriptNames(c);
    WholeScanGetsThrough(c);
    var lines := ScriptLines(c);
    var k, torn := CutLines(lines, m);
    CutScan(START, lines, k, torn);
    CutNames(lines, k, torn);
    var through := lines[..k] + [torn];
    assert (forall l | l in through :: !Torn(l)) <==> !Torn(torn);
    if !Torn(torn) { ShownWholeExactlyWhen(through, dir); }
  }

  // ---- A stream cut inside its first name ----

  /** The first lines of a stream whose first candidate is an entry. */
  function OpeningLines(c: Container, e: Node): seq<string> {
    [Join(ToolsFields(c), ' ')] + ([EntryLine(c, e), "n " + e.name] + [])
  }

  lemma OpeningHasNoNewline(c: Container, e: Node)
    requires Carried(c, e) && e.Listable()
    ensures forall l | l in OpeningLines(c, e) :: '\n' !in l
  {
    ToolsLineStarts(c);
    WordsHaveNoNewline(ToolsFields(c));
    EntryLineHasNoNewline(c, e);
  }

  lemma OpeningParsed(c: Container, dir: string, e: Node)
    requires !c.denied && e.Listable() && Carried(c, e)
    ensures Parsed(Printed(OpeningLines(c, e)), dir) == Listed(DirectoryListing(dir, [Expected(c, e)],
      false, LISTING_ENTRY_CAP, if c.stat then "stat" else "", Notes(0, c.stat)))
  {
    OpeningHasNoNewline(c, e);
    WholePieces(OpeningLines(c, e));
    ParsedPrinted(OpeningLines(c, e), dir);
    ToolsRead(c, [EntryLine(c, e), "n " + e.name] + []);
    EntryRead(c, e, START.(sizes := c.stat), []);
    assert [] + [Expected(c, e)] == [Expected(c, e)];
  }

  /** The stream as far as the first entry's line and `j` characters of its name. */
  function NameCut(c: Container, e: Node, j: nat): string
    requires j <= |e.name|
  {
    Printed([Join(ToolsFields(c), ' '), EntryLine(c, e)]) + ("n " + e.name[..j])
  }

  lemma {:induction false} PrintedAppend(a: seq<string>, b: seq<string>)
    ensures Printed(a + b) == Printed(a) + Printed(b)
  {
    if a == [] {
      assert a + b == b;
    } else {
      PrintedAppend(a[1..], b);
      assert (a + b)[1..] == a[1..] + b;
      Text.Regroup(a[0] + ['\n'], Printed(a[1..]), Printed(b));
    }
  }

  lemma PrintedOne(line: string)
    ensures Printed([line]) == line + ['\n']
  {
    assert [line][1..] == [];
  }

  lemma OpeningPrinted(c: Container, e: Node)
    ensures Printed(OpeningLines(c, e)) == NameCut(c, e, |e.name|) + ['\n']
  {
    var two, name := [Join(ToolsFields(c), ' '), EntryLine(c, e)], "n " + e.name;
    assert OpeningLines(c, e) == two + [name] && e.name[..|e.name|] == e.name;
    PrintedAppend(two, [name]);
    PrintedOne(name);
  }

  lemma NameCutIsPrefix(c: Container, j: nat)
    requires !c.denied && c.nodes != [] && c.nodes[0].Listable() && j <= |c.nodes[0].name|
    ensures NameCut(c, c.nodes[0], j) < Printed(ScriptLines(c))
  {
    var e := c.nodes[0];
    var rest := LoopLines(c, c.nodes[1..], 1);
    assert ScriptLines(c) == OpeningLines(c, e) + rest;
    PrintedAppend(OpeningLines(c, e), rest);
    OpeningPrinted(c, e);
    assert "n " + e.name[..j] <= "n " + e.name[..|e.name|];
  }

  lemma NewlineParsed(out: string, dir: string)
    ensures Parsed(out + ['\n'], dir) == Parsed(out, dir)
  {
    var none := "";
    SplitAppend(out, '\n', none);
    SplitSingle(none, '\n');
    assert out + ['\n'] + none == out + ['\n'];
    ReadAppend(START, Split(out, '\n'), [none]);
    BlankRead(ReadLines(START, Split(out, '\n')));
  }

  /** A stream cut inside its first name, or right after it, is taken for a whole listing of one
      entry, by as much of its name as got through. */
  lemma CutStreamIsAccepted(c: Container, dir: string, j: nat)
    requires !c.denied && c.nodes != [] && c.nodes[0].Listable() && Carried(c, c.nodes[0]) && j <= |c.nodes[0].name|
    ensures NameCut(c, c.nodes[0], j) < Printed(ScriptLines(c))
    ensures Parsed(NameCut(c, c.nodes[0], j), dir) == Listed(DirectoryListing(dir,
      [Expected(c, c.nodes[0]).(name := c.nodes[0].name[..j])],
      false, LISTING_ENTRY_CAP, if c.stat then "stat" else "", Notes(0, c.stat)))
  {
    var e := c.nodes[0];
    var short := e.(name := e.name[..j]);
    NameCutIsPrefix(c, j);
    assert EntryFields(c, short) == EntryFields(c, e) && short.name[..j] == short.name;
    OpeningParsed(c, dir, short);
    OpeningPrinted(c, short);
    assert NameCut(c, short, j) == NameCut(c, e, j);
    NewlineParsed(NameCut(c, e, j), dir);
  }
}
