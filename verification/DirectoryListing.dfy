/** The directory-listing wire format (app/domain/filebrowse.go). */
module DirectoryListings {
  import opened Options
  import opened Ordering
  import opened Sequences
  import opened Text

  const LISTING_ENTRY_CAP := 2000

  datatype FileEntry = FileEntry(name: string, kind: string, size: Option<int>, modified: Option<int>,
                                 linkTarget: string, resolvesToDir: bool)

  datatype Note = NotListed(count: nat) | NoSizes

  datatype DirectoryListing = DirectoryListing(path: string, entries: seq<FileEntry>, truncated: bool, cap: nat,
                                               sizeSource: string, notes: seq<Note>)

  datatype Failure = NoShell | Denied | Unreadable

  datatype Outcome = Listed(listing: DirectoryListing) | Refused(why: Failure)

  // ---- The order of a listing ----

  predicate IsDirectory(e: FileEntry) { e.kind == "dir" || (e.kind == "symlink" && e.resolvesToDir) }

  /** Directories first, then by name without regard to case. */
  predicate EntryLess(a: FileEntry, b: FileEntry) {
    if IsDirectory(a) != IsDirectory(b) then IsDirectory(a) else Less(ToLower(a.name), ToLower(b.name))
  }

  lemma EntryLessStrictWeak()
    ensures StrictWeak(EntryLess)
  {
    LessStrictWeak();
    forall a: FileEntry, b: FileEntry, c: FileEntry | EntryLess(a, b) ensures EntryLess(a, c) || EntryLess(c, b) {
      assert Less(ToLower(a.name), ToLower(b.name)) ==>
        Less(ToLower(a.name), ToLower(c.name)) || Less(ToLower(c.name), ToLower(b.name));
    }
  }

  method SortListing(entries: array<FileEntry>)
    modifies entries
    ensures entries[..] == StableSort(old(entries[..]), EntryLess)
  {
    var sorted := StableSort(entries[..], EntryLess);
    assert |sorted| == entries.Length by { assert |multiset(sorted)| == |multiset(entries[..])|; }
    forall i | 0 <= i < entries.Length {
      entries[i] := sorted[i];
    }
  }

  /** A listing shows all directories before anything else, and each group in the order of
      its lower-cased names. */
  lemma ListingOrder(entries: seq<FileEntry>, i: nat, j: nat)
    requires i < j < |StableSort(entries, EntryLess)|
    ensures var sorted := StableSort(entries, EntryLess);
      && (IsDirectory(sorted[j]) ==> IsDirectory(sorted[i]))
      && (IsDirectory(sorted[i]) == IsDirectory(sorted[j]) ==> !Less(ToLower(sorted[j].name), ToLower(sorted[i].name)))
  {
    EntryLessStrictWeak();
    StableSortOrdered(entries, EntryLess);
    var sorted := StableSort(entries, EntryLess);
    assert !EntryLess(sorted[j], sorted[i]);
  }

  // ---- Parsing ----

  predicate IsKind(s: string) { s == "file" || s == "dir" || s == "symlink" || s == "other" }

  /** The five fields before a name. */
  function ParseEntryLine(line: string): Option<FileEntry> {
    var fields := Fields(line);
    if |fields| != 6 || !IsKind(fields[1]) then None
    else Some(FileEntry("", fields[1], ParseInt(fields[2]), ParseInt(fields[3]),
                        if fields[4] != "-" then fields[4] else "", fields[5] == "1"))
  }

  datatype Scan =
    | Reading(pending: Option<FileEntry>, newlines: nat, ended: bool, entries: seq<FileEntry>, truncated: bool, sizes: bool)
    | Stopped(why: Failure)

  const START := Reading(None, 0, false, [], false, false)

  function ToolsLine(s: Scan, line: string): Scan
    requires s.Reading?
  {
    var fields := Fields(line);
    if |fields| >= 2 && fields[1] == "1" then s.(sizes := true) else s
  }

  function NameLine(s: Scan, line: string): Scan
    requires s.Reading? && "n " <= line
  {
    if s.pending.None? then Stopped(Unreadable)
    else if |s.entries| >= LISTING_ENTRY_CAP then s.(truncated := true, pending := None)
    else s.(entries := s.entries + [s.pending.value.(name := line[2..])], pending := None)
  }

  /** What one line does. */
  function ReadLine(s: Scan, line: string): Scan
    requires s.Reading?
  {
    if line == "" then s
    else if line == "unsupported" then Stopped(NoShell)
    else if line == "denied" then Stopped(Denied)
    else if "tools " <= line then ToolsLine(s, line)
    else if line == "skipped newline" then s.(newlines := s.newlines + 1)
    else if line == "truncated" then s.(truncated := true)
    else if "end " <= line then s.(ended := true)
    else if "e " <= line then
      var entry := ParseEntryLine(line);
      if entry.None? then Stopped(Unreadable) else s.(pending := entry)
    else if "n " <= line then NameLine(s, line)
    else s
  }

  function ReadLines(s: Scan, lines: seq<string>): Scan
    decreases |lines|
  {
    if s.Stopped? || lines == [] then s
    else ReadLines(ReadLine(s, lines[0]), lines[1..])
  }

  function Notes(newlines: nat, sizes: bool): seq<Note> {
    (if newlines > 0 then [NotListed(newlines)] else []) + (if sizes then [] else [NoSizes])
  }

  /** What a finished scan amounts to. */
  function Concluded(s: Scan, dir: string): Outcome {
    if s.Stopped? then Refused(s.why)
    else if !s.ended && s.entries == [] && !s.truncated then Refused(Unreadable)
    else Listed(DirectoryListing(dir, StableSort(s.entries, EntryLess), s.truncated, LISTING_ENTRY_CAP,
                                 if s.sizes then "stat" else "", Notes(s.newlines, s.sizes)))
  }

  function Parsed(raw: string, dir: string): Outcome {
    Concluded(ReadLines(START, Split(raw, '\n')), dir)
  }

  method ParseListOutput(raw: string, dir: string) returns (outcome: Outcome)
    ensures outcome == Parsed(raw, dir)
  {
    var pending: Option<FileEntry> := None;
    var newlines: nat, ended, truncated, sizes := 0, false, false, false;
    var entries: seq<FileEntry> := [];
    var lines := Split(raw, '\n');
    for i := 0 to |lines|
      invariant ReadLines(START, lines)
        == ReadLines(Reading(pending, newlines, ended, entries, truncated, sizes), lines[i..])
    {
      var line := lines[i];
      assert lines[i..][0] == line && lines[i..][1..] == lines[i + 1..];
      if line == "" {
        continue;
      }
      if line == "unsupported" {
        return Refused(NoShell);
      } else if line == "denied" {
        return Refused(Denied);
      } else if "tools " <= line {
        var fields := Fields(line);
        if |fields| >= 2 && fields[1] == "1" {
          sizes := true;
        }
      } else if line == "skipped newline" {
        newlines := newlines + 1;
      } else if line == "truncated" {
        truncated := true;
      } else if "end " <= line {
        ended := true;
      } else if "e " <= line {
        var entry := ParseEntryLine(line);
        if entry.None? {
          return Refused(Unreadable);
        }
        pending := entry;
      } else if "n " <= line {
        if pending.None? {
          return Refused(Unreadable);
        }
        if |entries| >= LISTING_ENTRY_CAP {
          truncated := true;
        } else {
          entries := entries + [pending.value.(name := line[2..])];
        }
        pending := None;
      }
    }
    if !ended && entries == [] && !truncated {
      return Refused(Unreadable);
    }
    var sorted := Sorted(entries);
    return Listed(DirectoryListing(dir, sorted, truncated, LISTING_ENTRY_CAP, if sizes then "stat" else "",
                                   Notes(newlines, sizes)));
  }

  method Sorted(entries: seq<FileEntry>) returns (sorted: seq<FileEntry>)
    ensures sorted == StableSort(entries, EntryLess)
  {
    var rows := new FileEntry[|entries|](i requires 0 <= i < |entries| => entries[i]);
    assert rows[..] == entries;
    SortListing(rows);
    sorted := rows[..];
  }

  // ---- For any input at all ----

  function NamesIn(lines: seq<string>): nat {
    if lines == [] then 0 else (if "n " <= lines[0] then 1 else 0) + NamesIn(lines[1..])
  }

  function SkippedIn(lines: seq<string>): nat {
    if lines == [] then 0 else (if lines[0] == "skipped newline" then 1 else 0) + SkippedIn(lines[1..])
  }

  function Least(a: nat, b: nat): nat { if a < b then a else b }

  lemma PrefixChars(prefix: string, line: string)
    requires |prefix| >= 2
    ensures prefix <= line ==> |line| >= 2 && line[0] == prefix[0] && line[1] == prefix[1]
  {
  }

  /** What a line does is told by its first two characters, names and entries apart. */
  lemma FirstTwo(line: string)
    ensures "n " <= line ==> |line| >= 2 && line[0] == 'n' && line[1] == ' '
    ensures "e " <= line ==> |line| >= 2 && line[0] == 'e' && line[1] == ' '
    ensures "tools " <= line ==> |line| >= 2 && line[0] == 't'
    ensures "end " <= line ==> |line| >= 2 && line[0] == 'e' && line[1] == 'n'
  {
    PrefixChars("n ", line);
    PrefixChars("e ", line);
    PrefixChars("tools ", line);
    PrefixChars("end ", line);
  }

  lemma SecondBlank(line: string)
    requires |line| >= 2 && line[1] == ' '
    ensures line != "unsupported" && line != "denied" && line != "skipped newline" && line != "truncated"
    ensures !("end " <= line)
  {
    PrefixChars("end ", line);
  }

  lemma NameLineRead(s: Scan, line: string)
    requires s.Reading? && "n " <= line
    ensures ReadLine(s, line) == NameLine(s, line) && line != "truncated" && line != "skipped newline"
  {
    FirstTwo(line);
    SecondBlank(line);
  }

  lemma EntryLineRead(s: Scan, line: string)
    requires s.Reading? && "e " <= line
    ensures ReadLine(s, line)
      == if ParseEntryLine(line).None? then Stopped(Unreadable) else s.(pending := ParseEntryLine(line))
  {
    FirstTwo(line);
    SecondBlank(line);
  }

  lemma OtherLineRead(s: Scan, line: string)
    requires s.Reading? && !("n " <= line) && ReadLine(s, line).Reading?
    ensures var t := ReadLine(s, line);
      && t.entries == s.entries
      && (t.truncated <==> s.truncated || line == "truncated")
      && t.newlines == s.newlines + if line == "skipped newline" then 1 else 0
  {
    if line == "skipped newline" || line == "truncated" {
      PrefixChars("tools ", line);
    } else if "e " <= line {
      EntryLineRead(s, line);
    }
  }

  lemma OneLine(s: Scan, line: string)
    requires s.Reading? && |s.entries| <= LISTING_ENTRY_CAP && ReadLine(s, line).Reading?
    ensures var t, names := ReadLine(s, line), if "n " <= line then 1 else 0;
      && |t.entries| == Least(|s.entries| + names, LISTING_ENTRY_CAP)
      && (t.truncated <==> s.truncated || line == "truncated" || |s.entries| + names > LISTING_ENTRY_CAP)
      && t.newlines == s.newlines + if line == "skipped newline" then 1 else 0
  {
    if "n " <= line {
      NameLineRead(s, line);
    } else {
      OtherLineRead(s, line);
    }
  }

  /** A scan that gets through has one entry for each name up to the cap, is truncated
      exactly when it was told so or met more, and has counted every skipped name. */
  lemma {:induction false} ScanCounts(s: Scan, lines: seq<string>)
    requires s.Reading? && |s.entries| <= LISTING_ENTRY_CAP && ReadLines(s, lines).Reading?
    ensures var t := ReadLines(s, lines);
      && |t.entries| == Least(|s.entries| + NamesIn(lines), LISTING_ENTRY_CAP)
      && (t.truncated <==> s.truncated || "truncated" in lines || |s.entries| + NamesIn(lines) > LISTING_ENTRY_CAP)
      && t.newlines == s.newlines + SkippedIn(lines)
    decreases |lines|
  {
    if lines != [] {
      OneLine(s, lines[0]);
      ScanCounts(ReadLine(s, lines[0]), lines[1..]);
      assert lines == [lines[0]] + lines[1..];
    }
  }

  /** For any input at all, a listing never exceeds the cap, is marked truncated exactly when
      the input says so or names more than the cap, and owns up to every skipped name. */
  lemma ListingIsCapped(raw: string, dir: string)
    requires Parsed(raw, dir).Listed?
    ensures var listing, lines := Parsed(raw, dir).listing, Split(raw, '\n');
      && |listing.entries| == Least(NamesIn(lines), LISTING_ENTRY_CAP) <= listing.cap
      && (listing.truncated <==> "truncated" in lines || NamesIn(lines) > LISTING_ENTRY_CAP)
      && (SkippedIn(lines) > 0 ==> NotListed(SkippedIn(lines)) in listing.notes)
  {
    var t := ReadLines(START, Split(raw, '\n'));
    ScanCounts(START, Split(raw, '\n'));
    assert |multiset(StableSort(t.entries, EntryLess))| == |multiset(t.entries)|;
  }

  /** What tells the parser that there was a listing: a name, a cut, or the end. */
  predicate Tells(line: string) { "n " <= line || line == "truncated" || "end " <= line }

  lemma EndedAfter(s: Scan, line: string)
    requires s.Reading? && ReadLine(s, line).Reading?
    ensures ReadLine(s, line).ended <==> s.ended || "end " <= line
  {
    if "end " <= line {
      PrefixChars("end ", line);
      PrefixChars("tools ", line);
    }
  }

  ghost predicate SomeLine(lines: seq<string>, start: string) {
    exists l | l in lines :: start <= l
  }

  lemma SomeLineHead(lines: seq<string>, start: string)
    requires lines != []
    ensures SomeLine(lines, start) <==> start <= lines[0] || SomeLine(lines[1..], start)
  {
    assert lines[0] in lines;
    if l :| l in lines && start <= l {
      assert l == lines[0] || l in lines[1..];
    }
    if l :| l in lines[1..] && start <= l {
      assert l in lines;
    }
  }

  lemma {:induction false} ScanEnds(s: Scan, lines: seq<string>)
    requires s.Reading? && ReadLines(s, lines).Reading?
    ensures ReadLines(s, lines).ended <==> s.ended || SomeLine(lines, "end ")
    decreases |lines|
  {
    if lines != [] {
      EndedAfter(s, lines[0]);
      ScanEnds(ReadLine(s, lines[0]), lines[1..]);
      SomeLineHead(lines, "end ");
    }
  }

  lemma {:induction false} SomeName(lines: seq<string>)
    ensures NamesIn(lines) > 0 <==> SomeLine(lines, "n ")
  {
    if lines != [] {
      SomeName(lines[1..]);
      SomeLineHead(lines, "n ");
    }
  }

  /** Exactly when: a scan that gets through is taken for a listing if and only if some line of
      it tells so, be it the end or not. */
  lemma AcceptedExactlyWhen(lines: seq<string>, dir: string)
    requires ReadLines(START, lines).Reading?
    ensures Concluded(ReadLines(START, lines), dir).Listed? <==> exists l | l in lines :: Tells(l)
  {
    ScanCounts(START, lines);
    ScanEnds(START, lines);
    SomeName(lines);
    var t := ReadLines(START, lines);
    assert "truncated" in lines ==> Tells("truncated");
    assert t.entries != [] <==> NamesIn(lines) > 0;
  }

  // ---- What the script prints ----

  type Int64 = n: int | IsInt64(n)

  /** What the shell can see of one candidate of the three globs. `exists` follows a link,
      `dir` and `file` do too. */
  datatype Node = Node(name: string, found: bool, link: bool, dir: bool, file: bool,
                       stat: Option<(Int64, Int64)>, target: Option<string>)
  {
    /** Not an unmatched pattern. */
    predicate Present() { found || link }
    predicate HasNewline() { '\n' in name }
    predicate Listable() { Present() && !HasNewline() }
    function Kind(): string {
      if link then "symlink" else if dir then "dir" else if file then "file" else "other"
    }
  }

  /** The container the script runs in. */
  datatype Container = Container(denied: bool, stat: bool, readlink: bool, nodes: seq<Node>)

  function Bit(b: bool): string { if b then "1" else "0" }

  function SizeField(c: Container, e: Node): string {
    if c.stat && e.stat.Some? then Decimal(e.stat.value.0) else "-"
  }

  function TimeField(c: Container, e: Node): string {
    if c.stat && e.stat.Some? then Decimal(e.stat.value.1) else "-"
  }

  function TargetField(c: Container, e: Node): string {
    if e.link && c.readlink && e.target.Some? then e.target.value else "-"
  }

  function EntryFields(c: Container, e: Node): seq<string> {
    ["e", e.Kind(), SizeField(c, e), TimeField(c, e), TargetField(c, e), Bit(e.link && e.dir)]
  }

  function EntryLine(c: Container, e: Node): string { Join(EntryFields(c, e), ' ') }

  /** The lines the loop over the globs prints once `n` entries have been, and the last line. */
  function LoopLines(c: Container, nodes: seq<Node>, n: nat): seq<string> {
    if nodes == [] then ["end " + Decimal(n)]
    else if !nodes[0].Present() then LoopLines(c, nodes[1..], n)
    else if nodes[0].HasNewline() then ["skipped newline"] + LoopLines(c, nodes[1..], n)
    else if n + 1 > LISTING_ENTRY_CAP then ["truncated", "end " + Decimal(n + 1)]
    else [EntryLine(c, nodes[0]), "n " + nodes[0].name] + LoopLines(c, nodes[1..], n + 1)
  }

  function ToolsFields(c: Container): seq<string> { ["tools", Bit(c.stat), Bit(c.readlink)] }

  function ScriptLines(c: Container): seq<string> {
    if c.denied then ["denied"] else [Join(ToolsFields(c), ' ')] + LoopLines(c, c.nodes, 0)
  }

  /** Each line with the newline printf puts behind it. */
  function Printed(lines: seq<string>): string {
    if lines == [] then "" else lines[0] + ['\n'] + Printed(lines[1..])
  }

  /** The script, run. */
  method RunListScript(c: Container) returns (out: string)
    ensures out == Printed(ScriptLines(c))
  {
    if c.denied {
      assert ["denied"][1..] == [];
      assert "denied" + ['\n'] + "" == "denied\n";
      return "denied\n";
    }
    var lines := [Join(ToolsFields(c), ' ')];
    var n := 0;
    var i := 0;
    while i < |c.nodes|
      invariant 0 <= i <= |c.nodes|
      invariant ScriptLines(c) == lines + LoopLines(c, c.nodes[i..], n)
      decreases |c.nodes| - i
    {
      var e := c.nodes[i];
      assert c.nodes[i..][0] == e && c.nodes[i..][1..] == c.nodes[i + 1..];
      i := i + 1;
      if !e.Present() {
        continue;
      }
      if e.HasNewline() {
        lines := lines + ["skipped newline"];
        continue;
      }
      n := n + 1;
      if n > LISTING_ENTRY_CAP {
        lines := lines + ["truncated"];
        assert ScriptLines(c) == lines + ["end " + Decimal(n)];
        break;
      }
      lines := lines + [EntryLine(c, e), "n " + e.name];
    }
    lines := lines + ["end " + Decimal(n)];
    out := Printed(lines);
  }

  // ---- Reading it back ----

  /** What a listing should say of an entry. */
  function Expected(c: Container, e: Node): FileEntry {
    var known := c.stat && e.stat.Some?;
    FileEntry(e.name, e.Kind(), if known then Some(e.stat.value.0) else None,
              if known then Some(e.stat.value.1) else None,
              if e.link && c.readlink && e.target.Some? then e.target.value else "", e.link && e.dir)
  }

  /** A target one field can carry: not empty, no white space, and not the mark for none. */
  predicate Carried(c: Container, e: Node) {
    e.link && c.readlink && e.target.Some? ==> IsWord(e.target.value) && e.target.value != "-"
  }

  function CanBeListed(): Node -> bool { (e: Node) => e.Listable() }

  /** The entries the script gets to. */
  function ShownFrom(nodes: seq<Node>, n: nat): seq<Node>
    requires n <= LISTING_ENTRY_CAP
  {
    var listable := Filter(nodes, CanBeListed());
    listable[..Least(|listable|, LISTING_ENTRY_CAP - n)]
  }

  /** Names passed over for holding a newline, before the cap stops the loop. */
  function PassedOver(nodes: seq<Node>, n: nat): nat {
    if nodes == [] then 0
    else if !nodes[0].Present() then PassedOver(nodes[1..], n)
    else if nodes[0].HasNewline() then 1 + PassedOver(nodes[1..], n)
    else if n + 1 > LISTING_ENTRY_CAP then 0
    else PassedOver(nodes[1..], n + 1)
  }

  function AsListed(c: Container): Node -> FileEntry { (e: Node) => Expected(c, e) }

  /** The listing a directory should be shown as. */
  function Expectation(c: Container, dir: string): DirectoryListing {
    DirectoryListing(dir, StableSort(Map(ShownFrom(c.nodes, 0), AsListed(c)), EntryLess),
                     |Filter(c.nodes, CanBeListed())| > LISTING_ENTRY_CAP, LISTING_ENTRY_CAP,
                     if c.stat then "stat" else "", Notes(PassedOver(c.nodes, 0), c.stat))
  }

  /** Every target the script gets to print is one word. */
  ghost predicate AllCarried(c: Container, nodes: seq<Node>, n: nat)
    requires n <= LISTING_ENTRY_CAP
  {
    forall e | e in ShownFrom(nodes, n) :: Carried(c, e)
  }
}
