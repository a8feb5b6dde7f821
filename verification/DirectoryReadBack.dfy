/** Reading back, line by line, what the listing script of app/domain/filebrowse.go printed: what
    each kind of line does to the parser's scan, and that the lines of a whole directory survive
    being joined and split. The theorems these lemmas build to are in DirectoryRoundTrip.dfy. */
module DirectoryReadBack {
  import opened Options
  import opened Ordering
  import opened Sequences
  import opened Text
  import opened DirectoryListings

  lemma StatFields(c: Container, e: Node)
    ensures IsWord(SizeField(c, e)) && IsWord(TimeField(c, e))
    ensures ParseInt(SizeField(c, e)) == Expected(c, e).size && ParseInt(TimeField(c, e)) == Expected(c, e).modified
  {
    if c.stat && e.stat.Some? {
      ParseDecimal(e.stat.value.0);
      ParseDecimal(e.stat.value.1);
    } else {
      assert "-"[1..] == "";
    }
  }

  lemma PlainFieldsAreWords(c: Container, e: Node)
    ensures IsWord("e") && IsWord(e.Kind()) && IsKind(e.Kind()) && IsWord(Bit(e.link && e.dir)) && IsWord("-")
  {
  }

  lemma TargetFieldIsWord(c: Container, e: Node)
    requires Carried(c, e)
    ensures IsWord(TargetField(c, e))
  {
    PlainFieldsAreWords(c, e);
  }

  lemma EntryLineFields(c: Container, e: Node)
    requires Carried(c, e)
    ensures Fields(EntryLine(c, e)) == EntryFields(c, e)
  {
    StatFields(c, e);
    PlainFieldsAreWords(c, e);
    TargetFieldIsWord(c, e);
    forall w | w in EntryFields(c, e) ensures IsWord(w) {}
    FieldsJoin(EntryFields(c, e));
  }

  lemma ExpectedFields(c: Container, e: Node)
    requires Carried(c, e)
    ensures Expected(c, e).(name := "")
      == FileEntry("", e.Kind(), ParseInt(SizeField(c, e)), ParseInt(TimeField(c, e)),
                   if TargetField(c, e) != "-" then TargetField(c, e) else "", Bit(e.link && e.dir) == "1")
  {
    StatFields(c, e);
  }

  lemma KindIsKind(e: Node)
    ensures IsKind(e.Kind())
  {
  }

  /** The five fields come back as they were when the target is one word. */
  lemma EntryLineParses(c: Container, e: Node)
    requires Carried(c, e)
    ensures ParseEntryLine(EntryLine(c, e)) == Some(Expected(c, e).(name := ""))
  {
    EntryLineFields(c, e);
    ExpectedFields(c, e);
    KindIsKind(e);
  }

  lemma EntryLineStarts(c: Container, e: Node)
    ensures "e " <= EntryLine(c, e)
  {
    var rest := Join(EntryFields(c, e)[1..], ' ');
    assert EntryLine(c, e) == "e" + [' '] + rest;
  }

  lemma ReadTwo(s: Scan, a: string, b: string, rest: seq<string>)
    requires s.Reading? && ReadLine(s, a).Reading?
    ensures ReadLines(s, [a, b] + rest) == ReadLines(ReadLine(ReadLine(s, a), b), rest)
  {
    assert ([a, b] + rest)[1..] == [b] + rest;
    assert ([b] + rest)[1..] == rest;
  }

  /** An entry's two lines add that entry. */
  lemma EntryRead(c: Container, e: Node, s: Scan, rest: seq<string>)
    requires s.Reading? && |s.entries| < LISTING_ENTRY_CAP && Carried(c, e) && s.pending.None?
    ensures ReadLines(s, [EntryLine(c, e), "n " + e.name] + rest)
      == ReadLines(s.(entries := s.entries + [Expected(c, e)]), rest)
  {
    var line := EntryLine(c, e);
    EntryLineStarts(c, e);
    EntryLineParses(c, e);
    EntryLineRead(s, line);
    var t := ReadLine(s, line);
    NameLineRead(t, "n " + e.name);
    assert ("n " + e.name)[2..] == e.name;
    ReadTwo(s, line, "n " + e.name, rest);
  }

  lemma EndRead(s: Scan, n: nat)
    requires s.Reading?
    ensures ReadLines(s, ["end " + Decimal(n)]) == s.(ended := true)
  {
    var line := "end " + Decimal(n);
    assert "end " <= line;
    assert line[0] == 'e' && line[1] == 'n';
    var lines := [line];
    assert lines[1..] == [];
  }

  lemma TakeCons(x: Node, tail: seq<Node>, k: nat)
    requires k <= |tail|
    ensures ([x] + tail)[..k + 1] == [x] + tail[..k]
  {
  }

  lemma FirstShown(nodes: seq<Node>, n: nat)
    requires nodes != [] && n <= LISTING_ENTRY_CAP
    ensures !nodes[0].Listable() ==> ShownFrom(nodes, n) == ShownFrom(nodes[1..], n)
    ensures nodes[0].Listable() && n < LISTING_ENTRY_CAP ==> ShownFrom(nodes, n) == [nodes[0]] + ShownFrom(nodes[1..], n + 1)
    ensures |Filter(nodes, CanBeListed())| == (if nodes[0].Listable() then 1 else 0) + |Filter(nodes[1..], CanBeListed())|
  {
    var tail := Filter(nodes[1..], CanBeListed());
    if nodes[0].Listable() {
      assert Filter(nodes, CanBeListed()) == [nodes[0]] + tail;
      if n < LISTING_ENTRY_CAP {
        TakeCons(nodes[0], tail, DirectoryListings.Least(|tail|, LISTING_ENTRY_CAP - n - 1));
      }
    } else {
      assert Filter(nodes, CanBeListed()) == tail;
    }
  }

  /** Where reading the loop's lines should lead. */
  function AfterLoop(c: Container, nodes: seq<Node>, s: Scan): Scan
    requires s.Reading? && |s.entries| <= LISTING_ENTRY_CAP
  {
    s.(entries := s.entries + Map(ShownFrom(nodes, |s.entries|), AsListed(c)),
       truncated := |s.entries| + |Filter(nodes, CanBeListed())| > LISTING_ENTRY_CAP,
       newlines := s.newlines + PassedOver(nodes, |s.entries|), ended := true)
  }

  lemma MapCons(c: Container, e: Node, shown: seq<Node>, entries: seq<FileEntry>)
    ensures entries + Map([e] + shown, AsListed(c)) == entries + [Expected(c, e)] + Map(shown, AsListed(c))
  {
  }

  lemma AfterOneEntry(c: Container, nodes: seq<Node>, s: Scan)
    requires s.Reading? && |s.entries| < LISTING_ENTRY_CAP && nodes != [] && nodes[0].Listable()
    ensures AfterLoop(c, nodes, s) == AfterLoop(c, nodes[1..], s.(entries := s.entries + [Expected(c, nodes[0])]))
  {
    FirstShown(nodes, |s.entries|);
    MapCons(c, nodes[0], ShownFrom(nodes[1..], |s.entries| + 1), s.entries);
  }

  lemma CarriedRest(c: Container, nodes: seq<Node>, n: nat)
    requires nodes != [] && n <= LISTING_ENTRY_CAP && AllCarried(c, nodes, n)
    ensures !nodes[0].Listable() ==> AllCarried(c, nodes[1..], n)
    ensures nodes[0].Listable() && n < LISTING_ENTRY_CAP ==> Carried(c, nodes[0]) && AllCarried(c, nodes[1..], n + 1)
  {
    FirstShown(nodes, n);
    if nodes[0].Listable() && n < LISTING_ENTRY_CAP {
      assert nodes[0] in ShownFrom(nodes, n);
    }
  }

  lemma AfterNoEntry(c: Container, nodes: seq<Node>, s: Scan)
    requires s.Reading? && |s.entries| <= LISTING_ENTRY_CAP && nodes != [] && !nodes[0].Listable()
    ensures AfterLoop(c, nodes, s) == AfterLoop(c, nodes[1..],
      if nodes[0].Present() then s.(newlines := s.newlines + 1) else s)
  {
    FirstShown(nodes, |s.entries|);
  }

  /** Reading the loop's lines back adds exactly the entries it got to. */
  lemma {:induction false} LoopRead(c: Container, nodes: seq<Node>, s: Scan)
    requires s.Reading? && s.pending.None? && |s.entries| <= LISTING_ENTRY_CAP && !s.truncated
    requires AllCarried(c, nodes, |s.entries|)
    ensures ReadLines(s, LoopLines(c, nodes, |s.entries|)) == AfterLoop(c, nodes, s)
    decreases |nodes|
  {
    var n := |s.entries|;
    if nodes == [] {
      NothingLeft(c, s);
    } else {
      CarriedRest(c, nodes, n);
      if !nodes[0].Present() {
        AfterNoEntry(c, nodes, s);
        LoopRead(c, nodes[1..], s);
      } else if nodes[0].HasNewline() {
        AfterNoEntry(c, nodes, s);
        LoopRead(c, nodes[1..], s.(newlines := s.newlines + 1));
        SkipRead(s, LoopLines(c, nodes[1..], n));
      } else if n + 1 > LISTING_ENTRY_CAP {
        AtCap(c, nodes, s);
      } else {
        LoopRead(c, nodes[1..], s.(entries := s.entries + [Expected(c, nodes[0])]));
        LoopReadEntry(c, nodes, s);
      }
    }
  }

  lemma LoopReadEntry(c: Container, nodes: seq<Node>, s: Scan)
    requires s.Reading? && s.pending.None? && |s.entries| < LISTING_ENTRY_CAP
    requires nodes != [] && nodes[0].Listable() && Carried(c, nodes[0])
    requires var t := s.(entries := s.entries + [Expected(c, nodes[0])]);
      ReadLines(t, LoopLines(c, nodes[1..], |t.entries|)) == AfterLoop(c, nodes[1..], t)
    ensures ReadLines(s, LoopLines(c, nodes, |s.entries|)) == AfterLoop(c, nodes, s)
  {
    AfterOneEntry(c, nodes, s);
    EntryRead(c, nodes[0], s, LoopLines(c, nodes[1..], |s.entries| + 1));
  }

  lemma NothingLeft(c: Container, s: Scan)
    requires s.Reading? && |s.entries| <= LISTING_ENTRY_CAP && !s.truncated
    ensures ReadLines(s, LoopLines(c, [], |s.entries|)) == AfterLoop(c, [], s)
  {
    EndRead(s, |s.entries|);
    assert s.entries + [] == s.entries;
  }

  lemma AtCap(c: Container, nodes: seq<Node>, s: Scan)
    requires s.Reading? && |s.entries| == LISTING_ENTRY_CAP && nodes != [] && nodes[0].Listable()
    ensures ReadLines(s, LoopLines(c, nodes, |s.entries|)) == AfterLoop(c, nodes, s)
  {
    TruncatedRead(s, |s.entries| + 1);
    AfterCap(c, nodes, s);
  }

  lemma AfterCap(c: Container, nodes: seq<Node>, s: Scan)
    requires s.Reading? && |s.entries| == LISTING_ENTRY_CAP && nodes != [] && nodes[0].Listable()
    ensures AfterLoop(c, nodes, s) == s.(truncated := true, ended := true)
  {
    FirstShown(nodes, |s.entries|);
    assert ShownFrom(nodes, |s.entries|) == [];
    assert s.entries + [] == s.entries;
  }

  lemma ReadOne(s: Scan, line: string, rest: seq<string>)
    requires s.Reading?
    ensures ReadLines(s, [line] + rest) == ReadLines(ReadLine(s, line), rest)
  {
    assert ([line] + rest)[1..] == rest;
  }

  lemma SkipRead(s: Scan, rest: seq<string>)
    requires s.Reading?
    ensures ReadLines(s, ["skipped newline"] + rest) == ReadLines(s.(newlines := s.newlines + 1), rest)
  {
    SkippedLine(s, "skipped newline");
    ReadOne(s, "skipped newline", rest);
  }

  lemma SkippedLine(s: Scan, line: string)
    requires s.Reading? && line == "skipped newline"
    ensures ReadLine(s, line) == s.(newlines := s.newlines + 1)
  {
    PrefixChars("tools ", line);
    assert line[0] == 's' && |line| == 15;
  }

  lemma TruncatedLine(s: Scan, line: string)
    requires s.Reading? && line == "truncated"
    ensures ReadLine(s, line) == s.(truncated := true)
  {
    PrefixChars("tools ", line);
    assert line[1] == 'r' && |line| == 9;
  }

  lemma TruncatedRead(s: Scan, n: nat)
    requires s.Reading?
    ensures ReadLines(s, ["truncated", "end " + Decimal(n)]) == s.(truncated := true, ended := true)
  {
    var last := ["end " + Decimal(n)];
    TruncatedLine(s, "truncated");
    ReadOne(s, "truncated", last);
    EndRead(s.(truncated := true), n);
    assert ["truncated", "end " + Decimal(n)] == ["truncated"] + last;
  }

  lemma ToolsLineRead(c: Container)
    ensures ReadLine(START, Join(ToolsFields(c), ' ')) == START.(sizes := c.stat)
  {
    ToolsLineStarts(c);
    FieldsJoin(ToolsFields(c));
  }

  lemma ToolsRead(c: Container, rest: seq<string>)
    ensures ReadLines(START, [Join(ToolsFields(c), ' ')] + rest) == ReadLines(START.(sizes := c.stat), rest)
  {
    ToolsLineRead(c);
    ReadOne(START, Join(ToolsFields(c), ' '), rest);
  }

  lemma ToolsLineStarts(c: Container)
    ensures var line := Join(ToolsFields(c), ' ');
      "tools " <= line && line != "" && line != "unsupported" && line != "denied"
    ensures forall w | w in ToolsFields(c) :: IsWord(w)
  {
    var rest := Join(ToolsFields(c)[1..], ' ');
    assert Join(ToolsFields(c), ' ') == "tools" + [' '] + rest;
    PrefixChars("tools ", Join(ToolsFields(c), ' '));
  }

  // ---- The whole round trip ----

  /** Splitting what was printed: each line's own pieces, and nothing behind the last newline. */
  function Pieces(lines: seq<string>): seq<string> {
    if lines == [] then [] else Split(lines[0], '\n') + Pieces(lines[1..])
  }

  lemma {:induction false} SplitPrinted(lines: seq<string>)
    ensures Split(Printed(lines), '\n') == Pieces(lines) + [""]
  {
    if lines == [] {
      SplitSingle("", '\n');
    } else {
      SplitPrinted(lines[1..]);
      SplitAppend(lines[0], '\n', Printed(lines[1..]));
      RegroupWords(Split(lines[0], '\n'), Pieces(lines[1..]), [""]);
    }
  }

  lemma {:induction false} WholePieces(lines: seq<string>)
    requires forall l | l in lines :: '\n' !in l
    ensures Pieces(lines) == lines
  {
    if lines != [] {
      assert lines[0] in lines;
      assert forall l | l in lines[1..] :: l in lines;
      SplitSingle(lines[0], '\n');
      WholePieces(lines[1..]);
    }
  }

  lemma {:induction false} ReadAppend(s: Scan, a: seq<string>, b: seq<string>)
    ensures ReadLines(s, a + b) == ReadLines(ReadLines(s, a), b)
    decreases |a|
  {
    if a == [] {
      assert a + b == b;
    } else if s.Reading? {
      ReadAppend(ReadLine(s, a[0]), a[1..], b);
      ReadOne(s, a[0], a[1..] + b);
      assert a + b == [a[0]] + (a[1..] + b);
    }
  }

  lemma BlankRead(s: Scan)
    ensures ReadLines(s, [""]) == s
  {
    if s.Reading? { ReadOne(s, "", []); }
    assert [""] + [] == [""];
  }

  /** What is parsed is the scan of the printed lines' pieces. */
  lemma ParsedPrinted(lines: seq<string>, dir: string)
    ensures Parsed(Printed(lines), dir) == Concluded(ReadLines(START, Pieces(lines)), dir)
  {
    SplitPrinted(lines);
    ReadAppend(START, Pieces(lines), [""]);
    BlankRead(ReadLines(START, Pieces(lines)));
  }

  lemma WordsHaveNoNewline(words: seq<string>)
    requires forall w | w in words :: w == "" || IsWord(w)
    ensures '\n' !in Join(words, ' ')
  {
    var ok := (ch: char) => ch != '\n';
    forall w | w in words ensures All(w, ok) {
      assert w == "" || IsWord(w);
    }
    JoinAll(words, ' ', ok);
  }

  lemma EndHasNoNewline(n: nat)
    ensures '\n' !in "end " + Decimal(n)
  {
    assert IsSpace('\n');
  }

  lemma EntryLineHasNoNewline(c: Container, e: Node)
    requires Carried(c, e)
    ensures '\n' !in EntryLine(c, e)
  {
    StatFields(c, e);
    PlainFieldsAreWords(c, e);
    TargetFieldIsWord(c, e);
    forall w | w in EntryFields(c, e) ensures IsWord(w) {}
    WordsHaveNoNewline(EntryFields(c, e));
  }

  ghost predicate OneLiners(lines: seq<string>) {
    forall l | l in lines :: '\n' !in l
  }

  lemma MoreOneLiners(a: seq<string>, b: seq<string>)
    requires OneLiners(a) && OneLiners(b)
    ensures OneLiners(a + b)
  {
  }

  lemma EntryLinesAreOneLiners(c: Container, e: Node)
    requires Carried(c, e) && e.Listable()
    ensures OneLiners([EntryLine(c, e), "n " + e.name])
  {
    EntryLineHasNoNewline(c, e);
  }

  lemma {:induction false} LoopLinesHaveNoNewline(c: Container, nodes: seq<Node>, n: nat)
    requires n <= LISTING_ENTRY_CAP && AllCarried(c, nodes, n)
    ensures OneLiners(LoopLines(c, nodes, n))
    decreases |nodes|
  {
    if nodes == [] {
      EndHasNoNewline(n);
    } else {
      CarriedRest(c, nodes, n);
      if !nodes[0].Present() {
        LoopLinesHaveNoNewline(c, nodes[1..], n);
      } else if nodes[0].HasNewline() {
        LoopLinesHaveNoNewline(c, nodes[1..], n);
        MoreOneLiners(["skipped newline"], LoopLines(c, nodes[1..], n));
      } else if n + 1 > LISTING_ENTRY_CAP {
        EndHasNoNewline(n + 1);
      } else {
        LoopLinesHaveNoNewline(c, nodes[1..], n + 1);
        EntryLinesAreOneLiners(c, nodes[0]);
        MoreOneLiners([EntryLine(c, nodes[0]), "n " + nodes[0].name], LoopLines(c, nodes[1..], n + 1));
      }
    }
  }

  lemma ScriptLinesHaveNoNewline(c: Container)
    requires !c.denied && AllCarried(c, c.nodes, 0)
    ensures forall l | l in ScriptLines(c) :: '\n' !in l
  {
    ToolsLineStarts(c);
    WordsHaveNoNewline(ToolsFields(c));
    LoopLinesHaveNoNewline(c, c.nodes, 0);
  }

  /** With targets that one field can carry, the parser shows the directory as it should be
      shown: every entry up to the cap, in listing order, nothing invented and nothing lost. */
  lemma ScriptRoundTrip(c: Container, dir: string)
    requires !c.denied && AllCarried(c, c.nodes, 0)
    ensures Parsed(Printed(ScriptLines(c)), dir) == Listed(Expectation(c, dir))
  {
    ScriptLinesHaveNoNewline(c);
    WholePieces(ScriptLines(c));
    ParsedPrinted(ScriptLines(c), dir);
    ToolsRead(c, LoopLines(c, c.nodes, 0));
    LoopRead(c, c.nodes, START.(sizes := c.stat));
    var shown := Map(ShownFrom(c.nodes, 0), AsListed(c));
    assert [] + shown == shown;
  }

  // ---- Targets one field cannot carry ----

  /** What an entry the parser made can say of its link. */
  predicate Clean(e: FileEntry) { e.linkTarget == "" || (IsWord(e.linkTarget) && e.linkTarget != "-") }

  ghost predicate CleanScan(s: Scan) {
    s.Reading? ==> (s.pending.Some? ==> Clean(s.pending.value)) && forall e | e in s.entries :: Clean(e)
  }

  lemma ParsedLineIsClean(line: string)
    ensures ParseEntryLine(line).Some? ==> Clean(ParseEntryLine(line).value)
  {
    FieldsAreWords(line);
  }

  lemma OtherLineKeeps(s: Scan, line: string)
    requires s.Reading? && !("n " <= line) && !("e " <= line) && ReadLine(s, line).Reading?
    ensures ReadLine(s, line).entries == s.entries && ReadLine(s, line).pending == s.pending
  {
  }

  lemma CleanName(s: Scan, line: string)
    requires s.Reading? && CleanScan(s) && "n " <= line
    ensures CleanScan(NameLine(s, line))
  {
  }

  lemma CleanLine(s: Scan, line: string)
    requires s.Reading? && CleanScan(s)
    ensures CleanScan(ReadLine(s, line))
  {
    if "n " <= line {
      NameLineRead(s, line);
      CleanName(s, line);
    } else if "e " <= line {
      EntryLineRead(s, line);
      ParsedLineIsClean(line);
    } else if ReadLine(s, line).Reading? {
      OtherLineKeeps(s, line);
    }
  }

  lemma {:induction false} CleanLines(s: Scan, lines: seq<string>)
    requires CleanScan(s)
    ensures CleanScan(ReadLines(s, lines))
    decreases |lines|
  {
    if s.Reading? && lines != [] {
      CleanLine(s, lines[0]);
      CleanLines(ReadLine(s, lines[0]), lines[1..]);
    }
  }

  /** An entry line that cannot be read refuses the whole listing. */
  lemma {:induction false} BadLineStops(s: Scan, lines: seq<string>, line: string)
    requires line in lines && "e " <= line && ParseEntryLine(line).None?
    ensures ReadLines(s, lines).Stopped?
    decreases |lines|
  {
    if s.Reading? {
      if lines[0] == line {
        EntryLineRead(s, line);
        assert lines == [line] + lines[1..];
      } else {
        assert lines == [lines[0]] + lines[1..];
        BadLineStops(ReadLine(s, lines[0]), lines[1..], line);
      }
    }
  }

  lemma EmptyTargetWords(c: Container, e: Node)
    requires e.link && c.readlink && e.target == Some("")
    ensures forall w | w in EntryFields(c, e) :: w == "" || IsWord(w)
    ensures |NonEmpty(EntryFields(c, e))| == 5
  {
    StatFields(c, e);
    PlainFieldsAreWords(c, e);
    var fields := EntryFields(c, e);
    assert NonEmpty(fields) == [fields[0]] + NonEmpty(fields[1..]);
    assert NonEmpty(fields[1..]) == [fields[1]] + NonEmpty(fields[2..]);
    assert NonEmpty(fields[2..]) == [fields[2]] + NonEmpty(fields[3..]);
    assert NonEmpty(fields[3..]) == [fields[3]] + NonEmpty(fields[4..]);
    assert NonEmpty(fields[4..]) == NonEmpty(fields[5..]);
    assert NonEmpty(fields[5..]) == [fields[5]] + NonEmpty(fields[6..]);
  }

  lemma EmptyTargetFields(c: Container, e: Node)
    requires e.link && c.readlink && e.target == Some("")
    ensures ParseEntryLine(EntryLine(c, e)).None? && '\n' !in EntryLine(c, e)
  {
    EmptyTargetWords(c, e);
    var fields := EntryFields(c, e);
    forall i | 0 <= i < |fields| ensures fields[i] == "" || IsWord(fields[i]) {
      assert fields[i] in fields;
    }
    FieldsNonEmpty(fields);
    WordsHaveNoNewline(EntryFields(c, e));
  }

  lemma {:induction false} ShownIsPrinted(c: Container, nodes: seq<Node>, n: nat, e: Node)
    requires n <= LISTING_ENTRY_CAP && e in ShownFrom(nodes, n)
    ensures EntryLine(c, e) in LoopLines(c, nodes, n)
    decreases |nodes|
  {
    if nodes != [] {
      FirstShown(nodes, n);
      if !nodes[0].Listable() {
        ShownIsPrinted(c, nodes[1..], n, e);
      } else if n < LISTING_ENTRY_CAP && e != nodes[0] {
        ShownIsPrinted(c, nodes[1..], n + 1, e);
      }
    }
  }

  lemma {:induction false} LineIsPiece(lines: seq<string>, line: string)
    requires line in lines && '\n' !in line
    ensures line in Pieces(lines)
  {
    if lines[0] == line {
      SplitSingle(line, '\n');
      assert line in Split(line, '\n');
    } else {
      assert lines == [lines[0]] + lines[1..];
      LineIsPiece(lines[1..], line);
    }
  }

  lemma EmptyTargetRefuses(c: Container, dir: string, e: Node)
    requires !c.denied && e in ShownFrom(c.nodes, 0) && e.link && c.readlink && e.target == Some("")
    ensures Parsed(Printed(ScriptLines(c)), dir).Refused?
  {
    EmptyTargetFields(c, e);
    ShownIsPrinted(c, c.nodes, 0, e);
    LineIsPiece(ScriptLines(c), EntryLine(c, e));
    EntryLineStarts(c, e);
    BadLineStops(START, Pieces(ScriptLines(c)), EntryLine(c, e));
    ParsedPrinted(ScriptLines(c), dir);
  }

  lemma MapIn(c: Container, shown: seq<Node>, e: Node)
    requires e in shown
    ensures Expected(c, e) in Map(shown, AsListed(c))
  {
    var i :| 0 <= i < |shown| && shown[i] == e;
    assert Map(shown, AsListed(c))[i] == Expected(c, e);
  }

  lemma UncleanIsNotParsed(c: Container, dir: string, e: Node)
    requires e in ShownFrom(c.nodes, 0) && !Clean(Expected(c, e))
    ensures Parsed(Printed(ScriptLines(c)), dir) != Listed(Expectation(c, dir))
  {
    var t := ReadLines(START, Split(Printed(ScriptLines(c)), '\n'));
    CleanLines(START, Split(Printed(ScriptLines(c)), '\n'));
    var expected := Map(ShownFrom(c.nodes, 0), AsListed(c));
    MapIn(c, ShownFrom(c.nodes, 0), e);
    SameMembers(expected, StableSort(expected, EntryLess));
    if t.Reading? {
      SameMembers(t.entries, StableSort(t.entries, EntryLess));
    }
  }
}
