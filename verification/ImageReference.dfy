/** Container image references (app/domain/image.go, app/domain/imagereport.go): a grammar of
    them that does not depend on how the program cuts a string up, the validator and the parser
    proved against it, and printing a parsed reference back. */
module ImageReferences {
  import opened Options
  import opened Text
  import opened Ordering

  const DEFAULT_REGISTRY := "docker.io"
  const DEFAULT_NAMESPACE := "library"
  const DEFAULT_TAG := "latest"

  // ---- The patterns ----

  predicate IsLowerAlnum(c: char) { IsLower(c) || IsDigit(c) }
  predicate IsAlnum(c: char) { IsLowerAlnum(c) || IsUpper(c) }
  predicate IsHex(c: char) { IsDigit(c) || 'a' <= c <= 'f' }

  predicate ComponentChar(c: char) { IsLowerAlnum(c) || c == '.' || c == '_' || c == '-' }

  /** Runs of lower-case letters and digits with separators between: `^[a-z0-9]+(?:[._-]+[a-z0-9]+)*$`. */
  predicate IsComponent(s: string) {
    && s != "" && IsLowerAlnum(s[0]) && IsLowerAlnum(s[|s| - 1])
    && forall c | c in s :: ComponentChar(c)
  }

  predicate LabelChar(c: char) { IsAlnum(c) || c == '-' }

  /** One dot-separated label of a host: `[A-Za-z0-9]([A-Za-z0-9-]*[A-Za-z0-9])?`. */
  predicate IsLabel(s: string) {
    && s != "" && IsAlnum(s[0]) && IsAlnum(s[|s| - 1])
    && forall c | c in s :: LabelChar(c)
  }

  /** Labels, then an optional port. */
  predicate IsHost(s: string) {
    var i := IndexOrEnd(s, ':');
    && (forall l | l in Split(s[..i], '.') :: IsLabel(l))
    && (i < |s| ==> i + 1 < |s| && forall c | c in s[i + 1..] :: IsDigit(c))
  }

  predicate TagChar(c: char) { IsAlnum(c) || c == '_' || c == '.' || c == '-' }

  /** `^[A-Za-z0-9_][A-Za-z0-9_.-]{0,127}$`. */
  predicate IsTag(s: string) {
    && 1 <= |s| <= 128 && (IsAlnum(s[0]) || s[0] == '_')
    && forall c | c in s :: TagChar(c)
  }

  predicate AlgorithmSeparator(c: char) { c == '.' || c == '+' || c == '_' || c == '-' }

  /** Runs of lower-case letters and digits with single separators between. */
  predicate IsAlgorithm(s: string) {
    && s != "" && IsLowerAlnum(s[0]) && IsLowerAlnum(s[|s| - 1])
    && (forall c | c in s :: IsLowerAlnum(c) || AlgorithmSeparator(c))
    && forall i | 0 < i < |s| :: IsLowerAlnum(s[i - 1]) || IsLowerAlnum(s[i])
  }

  /** An algorithm, a colon and 32 to 128 hexadecimal characters. */
  predicate IsDigest(s: string) {
    var i := IndexOrEnd(s, ':');
    && i < |s| && IsAlgorithm(s[..i])
    && 32 <= |s| - i - 1 <= 128 && forall c | c in s[i + 1..] :: IsHex(c)
  }

  // ---- The grammar ----

  datatype Parts = Parts(host: Option<string>, path: seq<string>, tag: Option<string>, digest: Option<string>)

  /** What tells a registry host from a path component. */
  predicate LooksLikeHost(s: string) { '.' in s || ':' in s || s == "localhost" }

  /** The parts of a reference. Without a host, the first of several components must not
      look like one. */
  predicate WellFormed(p: Parts) {
    && p.path != [] && (forall c | c in p.path :: IsComponent(c))
    && (p.host.Some? ==> IsHost(p.host.value) && LooksLikeHost(p.host.value))
    && (p.host.None? && |p.path| > 1 ==> !LooksLikeHost(p.path[0]))
    && (p.tag.Some? ==> IsTag(p.tag.value))
    && (p.digest.Some? ==> IsDigest(p.digest.value))
  }

  function Segments(p: Parts): seq<string> {
    (if p.host.Some? then [p.host.value] else []) + p.path
  }

  function Suffix(mark: char, part: Option<string>): string {
    if part.Some? then [mark] + part.value else ""
  }

  function Render(p: Parts): string {
    Join(Segments(p), '/') + Suffix(':', p.tag) + Suffix('@', p.digest)
  }

  /** The strings that are image references: those the grammar writes. */
  ghost predicate IsReference(ref: string) {
    exists p :: WellFormed(p) && Render(p) == ref
  }

  // ---- Cutting a string up ----

  function DigestMark(s: string): int { LastIndex(s, '@') }

  /** The colon before a tag comes after the last slash; any other is a port's. */
  function TagMark(s: string): int {
    var colon := LastIndex(s, ':');
    if colon > LastIndex(s, '/') then colon else -1
  }

  function Before(s: string, mark: int): string
    requires -1 <= mark < |s|
  {
    if mark < 0 then s else s[..mark]
  }

  function Behind(s: string, mark: int): Option<string>
    requires -1 <= mark < |s|
  {
    if mark < 0 then None else Some(s[mark + 1..])
  }

  predicate HasHost(segments: seq<string>) {
    |segments| > 1 && LooksLikeHost(segments[0])
  }

  function CutName(name: string, tag: Option<string>, digest: Option<string>): Parts {
    var segments := Split(name, '/');
    if HasHost(segments) then Parts(Some(segments[0]), segments[1..], tag, digest)
    else Parts(None, segments, tag, digest)
  }

  function Cut(ref: string): Parts {
    var tagged := Before(ref, DigestMark(ref));
    CutName(Before(tagged, TagMark(tagged)), Behind(tagged, TagMark(tagged)), Behind(ref, DigestMark(ref)))
  }

  /** Cutting loses nothing, whatever the string. */
  lemma RenderCut(ref: string)
    ensures Render(Cut(ref)) == ref
  {
    var tagged := Before(ref, DigestMark(ref));
    var name := Before(tagged, TagMark(tagged));
    JoinSplit(name, '/');
    assert Segments(Cut(ref)) == Split(name, '/');
    MarkParts(tagged, TagMark(tagged), ':');
    MarkParts(ref, DigestMark(ref), '@');
  }

  lemma MarkParts(s: string, mark: int, c: char)
    requires -1 <= mark < |s| && (mark >= 0 ==> s[mark] == c)
    ensures s == Before(s, mark) + Suffix(c, Behind(s, mark))
  {
    if mark >= 0 {
      assert s == s[..mark] + [c] + s[mark + 1..];
    }
  }

  // ---- Which characters a part holds ----

  predicate NameChar(c: char) { IsAlnum(c) || c == '.' || c == '_' || c == '-' || c == ':' || c == '/' }

  predicate ReferenceChar(c: char) { NameChar(c) || c == '@' || c == '+' }

  predicate HostChar(c: char) { LabelChar(c) || c == '.' || c == ':' }

  lemma HostChars(s: string)
    requires IsHost(s)
    ensures s != "" && All(s, HostChar)
  {
    var i := IndexOrEnd(s, ':');
    var labels := Split(s[..i], '.');
    JoinSplit(s[..i], '.');
    JoinAll(labels, '.', HostChar);
    assert labels[0] in labels;
    assert s == s[..i] + s[i..];
    if i < |s| { assert s[i..] == [':'] + s[i + 1..]; }
  }

  lemma SegmentChars(p: Parts)
    requires WellFormed(p)
    ensures forall x | x in Segments(p) :: x != "" && All(x, NameChar) && '/' !in x
    ensures forall x | x in p.path :: ':' !in x && x in Segments(p)
  {
    if p.host.Some? { HostChars(p.host.value); }
  }

  lemma NameChars(p: Parts)
    requires WellFormed(p)
    ensures var name := Join(Segments(p), '/'); name != "" && All(name, NameChar)
  {
    SegmentChars(p);
    JoinAll(Segments(p), '/', NameChar);
    assert Segments(p)[0] in Segments(p);
  }

  lemma DigestChars(s: string)
    requires IsDigest(s)
    ensures s != "" && All(s, ReferenceChar) && '@' !in s && '/' !in s
  {
    var i := IndexOrEnd(s, ':');
    assert s == s[..i] + [':'] + s[i + 1..];
    forall c | c in s ensures ReferenceChar(c) && c != '@' && c != '/' {
      assert c in s[..i] || c == ':' || c in s[i + 1..];
      if c in s[..i] { assert IsLowerAlnum(c) || AlgorithmSeparator(c); } else if c != ':' { assert IsHex(c); }
    }
  }

  lemma RenderChars(p: Parts)
    requires WellFormed(p)
    ensures Render(p) != "" && All(Render(p), ReferenceChar)
  {
    NameChars(p);
    if p.digest.Some? { DigestChars(p.digest.value); }
  }

  // ---- The grammar is unambiguous ----

  /** Between the host and the path a slash comes after every colon. */
  lemma NameHasNoTag(p: Parts)
    requires WellFormed(p)
    ensures TagMark(Join(Segments(p), '/')) == -1
  {
    var segments := Segments(p);
    SegmentChars(p);
    var notColon := (c: char) => c != ':';
    if |segments| == 1 {
      assert segments[0] == p.path[0] && p.path[0] in p.path;
    } else {
      var rest := Join(segments[1..], '/');
      forall x | x in segments[1..] ensures All(x, notColon) {
        assert x in p.path;
      }
      JoinAll(segments[1..], '/', notColon);
      SlashAfterColon(segments[0], rest);
    }
  }

  lemma SlashAfterColon(first: string, rest: string)
    requires ':' !in rest
    ensures TagMark(first + ['/'] + rest) == -1
  {
    var s := first + ['/'] + rest;
    assert s[|first|] == '/';
    forall k | |first| < k < |s| ensures s[k] != ':' {
      assert s[k] == rest[k - |first| - 1] && rest[k - |first| - 1] in rest;
    }
  }

  lemma TagMarkOf(p: Parts)
    requires WellFormed(p)
    ensures var name := Join(Segments(p), '/'); var tagged := name + Suffix(':', p.tag);
      TagMark(tagged) == (if p.tag.Some? then |name| else -1)
  {
    var name := Join(Segments(p), '/');
    if p.tag.None? {
      NameHasNoTag(p);
      assert name + "" == name;
    } else {
      var tag := p.tag.value;
      var tagged := name + [':'] + tag;
      assert name + Suffix(':', p.tag) == tagged;
      LastIndexAppend(name, ':', tag);
      forall k | |name| <= k < |tagged| ensures tagged[k] != '/' {
        if k > |name| { assert tagged[k] == tag[k - |name| - 1] && tag[k - |name| - 1] in tag; }
      }
    }
  }

  lemma DigestMarkOf(p: Parts)
    requires WellFormed(p)
    ensures var tagged := Join(Segments(p), '/') + Suffix(':', p.tag);
      DigestMark(Render(p)) == (if p.digest.Some? then |tagged| else -1)
  {
    var tagged := Join(Segments(p), '/') + Suffix(':', p.tag);
    NameChars(p);
    assert '@' !in tagged;
    if p.digest.None? {
      assert Render(p) == tagged;
    } else {
      DigestChars(p.digest.value);
      assert Render(p) == tagged + ['@'] + p.digest.value;
      LastIndexAppend(tagged, '@', p.digest.value);
    }
  }

  /** Cutting up what the grammar wrote gives back the parts. */
  lemma CutRender(p: Parts)
    requires WellFormed(p)
    ensures Cut(Render(p)) == p
  {
    var name := Join(Segments(p), '/');
    var tagged := name + Suffix(':', p.tag);
    DigestMarkOf(p);
    CutAtMark(tagged, '@', p.digest);
    TagMarkOf(p);
    CutAtMark(name, ':', p.tag);
    CutNameOf(p);
  }

  lemma CutAtMark(s: string, mark: char, part: Option<string>)
    ensures var whole, at := s + Suffix(mark, part), if part.Some? then |s| else -1;
      Before(whole, at) == s && Behind(whole, at) == part
  {
    if part.Some? {
      assert (s + [mark] + part.value)[|s| + 1..] == part.value;
      assert s + Suffix(mark, part) == s + [mark] + part.value;
    }
  }

  lemma CutNameOf(p: Parts)
    requires WellFormed(p)
    ensures CutName(Join(Segments(p), '/'), p.tag, p.digest) == p
  {
    SegmentChars(p);
    SplitJoin(Segments(p), '/');
    if p.host.None? {
      assert Segments(p) == p.path;
    } else {
      assert Segments(p)[1..] == p.path;
    }
  }

  /** A reference is exactly a string whose cut parts are well formed. */
  lemma ReferenceIff(ref: string)
    ensures IsReference(ref) <==> WellFormed(Cut(ref))
  {
    if IsReference(ref) {
      var p :| WellFormed(p) && Render(p) == ref;
      CutRender(p);
    }
    RenderCut(ref);
  }

  lemma NoSpaceInReference(ref: string)
    requires WellFormed(Cut(ref))
    ensures ref != "" && forall c | c in ref :: !IsSpace(c)
  {
    RenderCut(ref);
    RenderChars(Cut(ref));
  }

  /** Nothing before the tag or the digest is no reference. */
  lemma EmptyNameIsNoReference(ref: string)
    requires var tagged := Before(ref, DigestMark(ref)); tagged == "" || Before(tagged, TagMark(tagged)) == ""
    ensures !WellFormed(Cut(ref))
  {
    var tagged := Before(ref, DigestMark(ref));
    assert Split("", '/') == [""];
    assert "" in Cut(ref).path && !IsComponent("");
  }

  // ---- Validating ----

  predicate IsBlank(c: char) { c == ' ' || c == '\t' || c == '\n' || c == '\r' }

  method HasBlank(s: string) returns (blank: bool)
    ensures blank <==> s == "" || exists c :: c in s && IsBlank(c)
  {
    for i := 0 to |s|
      invariant forall k | 0 <= k < i :: !IsBlank(s[k])
    {
      if IsBlank(s[i]) {
        assert s[i] in s;
        return true;
      }
    }
    return s == "";
  }

  method AllComponents(segments: seq<string>) returns (all: bool)
    ensures all <==> forall c | c in segments :: IsComponent(c)
  {
    for i := 0 to |segments|
      invariant forall c | c in segments[..i] :: IsComponent(c)
    {
      if !IsComponent(segments[i]) {
        return false;
      }
    }
    assert segments[..|segments|] == segments;
    return true;
  }

  lemma BlankIsNoReference(ref: string)
    requires ref == "" || exists c :: c in ref && IsBlank(c)
    ensures !IsReference(ref)
  {
    ReferenceIff(ref);
    if WellFormed(Cut(ref)) { NoSpaceInReference(ref); }
  }

  /** Whether a string is an image reference: exactly when the grammar writes it. */
  method ValidImageReference(ref: string) returns (valid: bool)
    ensures valid <==> IsReference(ref)
  {
    var blank := HasBlank(ref);
    if blank {
      BlankIsNoReference(ref);
      return false;
    }
    ReferenceIff(ref);
    valid := ValidDigested(ref);
  }

  lemma BadDigestIsNoReference(ref: string)
    requires DigestMark(ref) >= 0 && !IsDigest(ref[DigestMark(ref) + 1..])
    ensures !WellFormed(Cut(ref))
  {
    assert Cut(ref).digest == Some(ref[DigestMark(ref) + 1..]);
  }

  method ValidDigested(ref: string) returns (valid: bool)
    ensures valid <==> WellFormed(Cut(ref))
  {
    var at := LastIndex(ref, '@');
    if at >= 0 {
      if !IsDigest(ref[at + 1..]) {
        BadDigestIsNoReference(ref);
        return false;
      }
      if ref[..at] == "" {
        EmptyNameIsNoReference(ref);
        return false;
      }
    }
    valid := ValidTagged(Before(ref, at), Behind(ref, at));
  }

  /** The part before the digest. */
  method ValidTagged(tagged: string, ghost digest: Option<string>) returns (valid: bool)
    requires digest.Some? ==> IsDigest(digest.value)
    ensures valid <==> WellFormed(CutName(Before(tagged, TagMark(tagged)), Behind(tagged, TagMark(tagged)), digest))
  {
    var rest := tagged;
    var colon := LastIndex(rest, ':');
    if colon >= 0 && colon > LastIndex(rest, '/') {
      if !IsTag(rest[colon + 1..]) {
        return false;
      }
      rest := rest[..colon];
    }
    valid := ValidName(rest, Behind(tagged, TagMark(tagged)), digest);
  }

  /** The host and the path. */
  method ValidName(name: string, ghost tag: Option<string>, ghost digest: Option<string>) returns (valid: bool)
    requires (tag.Some? ==> IsTag(tag.value)) && (digest.Some? ==> IsDigest(digest.value))
    ensures valid <==> WellFormed(CutName(name, tag, digest))
  {
    if name == "" {
      assert Split(name, '/') == [""] && !IsComponent("");
      return false;
    }
    var segments := Split(name, '/');
    var first := segments[0];
    if |segments| > 1 && (('.' in first || ':' in first) || first == "localhost") {
      if !IsHost(first) {
        return false;
      }
      segments := segments[1..];
    }
    valid := AllComponents(segments);
  }

  // ---- Parsing and printing ----

  datatype ImageReference = ImageReference(registry: string, repository: string, tag: string, digest: string)
  {
    function String(): string {
      var out := Repo();
      var out := if tag != "" then out + ":" + tag else out;
      if digest != "" then out + "@" + digest else out
    }

    function Repo(): string { registry + "/" + repository }
  }

  /** The parts with every default a runtime applies written out. */
  function Defaulted(p: Parts): Parts {
    var registry := if p.host.Some? then p.host.value else DEFAULT_REGISTRY;
    Parts(Some(registry),
          if registry == DEFAULT_REGISTRY && |p.path| == 1 then [DEFAULT_NAMESPACE] + p.path else p.path,
          if p.tag.None? && p.digest.None? then Some(DEFAULT_TAG) else p.tag,
          p.digest)
  }

  function OrEmpty(part: Option<string>): string { if part.Some? then part.value else "" }

  /** What a report says of the parts. */
  function Normalised(p: Parts): ImageReference {
    var d := Defaulted(p);
    ImageReference(OrEmpty(d.host), Join(d.path, '/'), OrEmpty(d.tag), OrEmpty(d.digest))
  }

  function Stripped(s: string): string {
    TrimPrefix(TrimPrefix(TrimSpace(s), "docker-pullable://"), "docker://")
  }

  /** What a name parses to, by the grammar. */
  function Parsed(s: string): Option<ImageReference> {
    if WellFormed(Cut(Stripped(s))) then Some(Normalised(Cut(Stripped(s)))) else None
  }

  method ParseImageReference(s: string) returns (parsed: Option<ImageReference>)
    ensures parsed == Parsed(s)
  {
    var ref := TrimSpace(s);
    ref := TrimPrefix(ref, "docker-pullable://");
    ref := TrimPrefix(ref, "docker://");
    var valid := ValidImageReference(ref);
    ReferenceIff(ref);
    if !valid {
      return None;
    }
    var split := SplitReference(ref);
    return Some(split);
  }

  /** Exactly what strips to a reference of the grammar parses, and to that reference's own
      parts, however the grammar is made to write it. */
  lemma ParsedMeans(s: string)
    ensures Parsed(s).Some? <==> IsReference(Stripped(s))
    ensures forall p | WellFormed(p) && Render(p) == Stripped(s) :: Parsed(s) == Some(Normalised(p))
  {
    ReferenceIff(Stripped(s));
    forall p | WellFormed(p) && Render(p) == Stripped(s) ensures Parsed(s) == Some(Normalised(p)) {
      CutRender(p);
    }
  }

  lemma NormalisedFields(p: Parts)
    requires WellFormed(p)
    ensures var tag, digest := OrEmpty(p.tag), OrEmpty(p.digest);
      && Normalised(p).tag == (if tag == "" && digest == "" then DEFAULT_TAG else tag)
      && Normalised(p).digest == digest
  {
    if p.digest.Some? { DigestChars(p.digest.value); }
  }

  /** Takes a valid reference apart, filling in the defaults. */
  method SplitReference(ref: string) returns (parsed: ImageReference)
    requires WellFormed(Cut(ref))
    ensures parsed == Normalised(Cut(ref))
  {
    var rest, digest := Peel(ref, DigestMark(ref));
    var name, tag := Peel(rest, TagMark(rest));
    ghost var p := Cut(ref);
    assert p == CutName(name, p.tag, p.digest) && digest == OrEmpty(p.digest) && tag == OrEmpty(p.tag);
    NormalisedFields(p);
    var registry, repository := SplitName(name, p);
    if tag == "" && digest == "" {
      tag := DEFAULT_TAG;
    }
    parsed := ImageReference(registry, repository, tag, digest);
  }

  /** Cuts a string at a mark, when there is one. */
  method Peel(s: string, mark: int) returns (rest: string, part: string)
    requires -1 <= mark < |s|
    ensures rest == Before(s, mark) && part == OrEmpty(Behind(s, mark))
  {
    rest, part := s, "";
    if mark >= 0 {
      part := s[mark + 1..];
      rest := s[..mark];
    }
  }

  method SplitName(name: string, ghost p: Parts) returns (registry: string, repository: string)
    requires WellFormed(p) && p == CutName(name, p.tag, p.digest)
    ensures registry == Normalised(p).registry && repository == Normalised(p).repository
  {
    var segments := Split(name, '/');
    if |segments| > 1 && (('.' in segments[0] || ':' in segments[0]) || segments[0] == "localhost") {
      registry := segments[0];
      segments := segments[1..];
    } else {
      registry := DEFAULT_REGISTRY;
    }
    if registry == DEFAULT_REGISTRY && |segments| == 1 {
      segments := [DEFAULT_NAMESPACE] + segments;
    }
    repository := Join(segments, '/');
  }

  // ---- Round trips ----

  lemma DefaultNames()
    ensures IsComponent(DEFAULT_NAMESPACE) && IsTag(DEFAULT_TAG)
  {
  }

  lemma HostWithoutPort(s: string, labels: seq<string>)
    requires ':' !in s && Split(s, '.') == labels && forall l | l in labels :: IsLabel(l)
    ensures IsHost(s)
  {
    assert IndexOrEnd(s, ':') == |s| && s[..|s|] == s;
  }

  lemma TwoLabels(a: string, b: string)
    requires IsLabel(a) && IsLabel(b)
    ensures IsHost(a + ['.'] + b) && LooksLikeHost(a + ['.'] + b)
  {
    var s := a + ['.'] + b;
    SplitCons(a, '.', b);
    SplitSingle(b, '.');
    HostWithoutPort(s, [a, b]);
    assert s[|a|] == '.';
  }

  lemma DefaultHost()
    ensures IsHost(DEFAULT_REGISTRY) && LooksLikeHost(DEFAULT_REGISTRY)
  {
    DefaultLabels();
    assert DEFAULT_REGISTRY == "docker" + ['.'] + "io";
    TwoLabels("docker", "io");
  }

  lemma DefaultLabels()
    ensures IsLabel("docker") && IsLabel("io")
  {
  }

  lemma DefaultedHost(p: Parts)
    requires WellFormed(p)
    ensures var host := Defaulted(p).host; host.Some? && IsHost(host.value) && LooksLikeHost(host.value)
  {
    DefaultHost();
  }

  lemma DefaultedPath(p: Parts)
    requires WellFormed(p)
    ensures Defaulted(p).path != [] && forall c | c in Defaulted(p).path :: IsComponent(c)
  {
    DefaultNames();
  }

  /** Writing the defaults out leaves a well-formed reference. */
  lemma DefaultedWellFormed(p: Parts)
    requires WellFormed(p)
    ensures WellFormed(Defaulted(p))
  {
    DefaultedHost(p);
    DefaultedPath(p);
    DefaultNames();
  }

  /** Writing them out again changes nothing. */
  lemma DefaultedTwice(p: Parts)
    requires WellFormed(p)
    ensures Defaulted(Defaulted(p)) == Defaulted(p)
  {
    DefaultedPath(p);
  }

  lemma RepoRenders(p: Parts)
    requires WellFormed(p)
    ensures Normalised(p).Repo() == Join(Segments(Defaulted(p)), '/')
  {
    var d := Defaulted(p);
    assert d.path != [];
    assert Segments(d) == [d.host.value] + d.path;
    assert Segments(d)[1..] == d.path;
  }

  /** A parsed reference prints as the grammar writes its defaulted parts. */
  lemma StringRenders(p: Parts)
    requires WellFormed(p)
    ensures Normalised(p).String() == Render(Defaulted(p))
  {
    RepoRenders(p);
    PrintsSuffixes(Normalised(p).Repo(), Defaulted(p).tag, Defaulted(p).digest, Normalised(p));
    DefaultNames();
    if p.digest.Some? { DigestChars(p.digest.value); }
  }

  lemma PrintsSuffixes(repo: string, tag: Option<string>, digest: Option<string>, r: ImageReference)
    requires (tag.Some? ==> tag.value != "") && (digest.Some? ==> digest.value != "")
    requires r.Repo() == repo && r.tag == OrEmpty(tag) && r.digest == OrEmpty(digest)
    ensures r.String() == repo + Suffix(':', tag) + Suffix('@', digest)
  {
    assert repo + "" == repo;
    if tag.Some? {
      assert repo + ":" + tag.value == repo + Suffix(':', tag);
    }
    var tagged := repo + Suffix(':', tag);
    assert tagged + "" == tagged;
    if digest.Some? {
      assert tagged + "@" + digest.value == tagged + Suffix('@', digest);
    }
  }

  /** Joining non-empty segments never puts two slashes side by side. */
  lemma {:induction false} NoDoubleSlash(parts: seq<string>)
    requires forall x | x in parts :: x != "" && '/' !in x
    ensures var s := Join(parts, '/'); forall i | 0 <= i < |s| - 1 && s[i] == '/' :: s[i + 1] != '/'
    ensures parts != [] ==> Join(parts, '/') != "" && Join(parts, '/')[0] != '/'
  {
    if parts != [] {
      var first := parts[0];
      assert first in parts;
      if |parts| > 1 {
        assert forall x | x in parts[1..] :: x in parts;
        NoDoubleSlash(parts[1..]);
        assert Join(parts, '/') == first + ['/'] + Join(parts[1..], '/');
      }
    }
  }

  lemma NoSlashInSuffix(p: Parts)
    requires WellFormed(p)
    ensures '/' !in Suffix(':', p.tag) && '/' !in Suffix('@', p.digest)
  {
    if p.digest.Some? { DigestChars(p.digest.value); }
  }

  predicate SlashPair(s: string, i: int) {
    0 <= i < |s| - 1 && s[i] == '/' && s[i + 1] == '/'
  }

  lemma NoSlashPair(p: Parts)
    requires WellFormed(p)
    ensures forall i :: !SlashPair(Render(p), i)
  {
    var ref, name, rest := Render(p), Join(Segments(p), '/'), Suffix(':', p.tag) + Suffix('@', p.digest);
    SegmentChars(p);
    NoDoubleSlash(Segments(p));
    NoSlashInSuffix(p);
    assert ref == name + rest;
    forall i ensures !SlashPair(ref, i) {
      if 0 <= i < |ref| - 1 && i + 1 >= |name| {
        assert ref[i + 1] == rest[i + 1 - |name|] && rest[i + 1 - |name|] in rest;
      }
    }
  }

  lemma NoScheme(ref: string, scheme: string)
    requires (forall i :: !SlashPair(ref, i)) && SlashPair(scheme, |scheme| - 2)
    ensures !(scheme <= ref)
  {
    assert !SlashPair(ref, |scheme| - 2);
  }

  /** A valid reference is its own trimmed form: nothing is stripped from it. */
  lemma StrippedReference(p: Parts)
    requires WellFormed(p)
    ensures Stripped(Render(p)) == Render(p)
  {
    NoSpaceRendered(p);
    TrimNothing(Render(p));
    NoSlashPair(p);
    NoPrefix(Render(p));
  }

  lemma NoSpaceRendered(p: Parts)
    requires WellFormed(p)
    ensures forall c | c in Render(p) :: !IsSpace(c)
  {
    RenderChars(p);
  }

  lemma NoPrefix(ref: string)
    requires forall i :: !SlashPair(ref, i)
    ensures TrimPrefix(TrimPrefix(ref, "docker-pullable://"), "docker://") == ref
  {
    NoScheme(ref, "docker-pullable://");
    NoScheme(ref, "docker://");
  }

  /** What a name parses to prints as a valid reference, and parsing that again gives the
      same parts back. */
  lemma ParseRoundTrip(s: string)
    requires Parsed(s).Some?
    ensures IsReference(Parsed(s).value.String())
    ensures Parsed(Parsed(s).value.String()) == Parsed(s)
  {
    var p := Cut(Stripped(s));
    var d := Defaulted(p);
    DefaultedWellFormed(p);
    DefaultedTwice(p);
    StringRenders(p);
    StrippedReference(d);
    CutRender(d);
  }

  /** Parsing what the grammar wrote gives the parts with the defaults filled in. */
  lemma ParseRender(p: Parts)
    requires WellFormed(p)
    ensures Parsed(Render(p)) == Some(Normalised(p))
  {
    StrippedReference(p);
    CutRender(p);
  }

  /** Two names print alike exactly when they parse alike. */
  lemma StringIdentifies(s: string, t: string)
    requires Parsed(s).Some? && Parsed(t).Some?
    ensures Parsed(s).value.String() == Parsed(t).value.String() <==> Parsed(s) == Parsed(t)
  {
    ParseRoundTrip(s);
    ParseRoundTrip(t);
  }

  // ---- The short form on a box ----

  /** What identifies an image on a map's box: its digest cut short, its tag, or the default. */
  function ImageTag(image: string): string {
    if image == "" then ""
    else if DigestMark(image) >= 0 then
      var digest := image[DigestMark(image) + 1..];
      if |digest| > 19 then digest[..19] + "\U{2026}" else digest
    else if TagMark(image) >= 0 then image[TagMark(image) + 1..]
    else DEFAULT_TAG
  }

  /** A valid reference parses to its own parts with the defaults filled in. */
  lemma ParsedReference(s: string)
    requires IsReference(s)
    ensures WellFormed(Cut(s)) && Parsed(s) == Some(Normalised(Cut(s)))
  {
    ReferenceIff(s);
    RenderCut(s);
    ParseRender(Cut(s));
  }

  /** On every valid reference the box and the report agree: on the tag when there is no
      digest, on the start of the digest when there is one. */
  lemma ImageTagAgrees(s: string)
    requires IsReference(s)
    ensures Parsed(s).Some?
    ensures '@' !in s ==> ImageTag(s) == Parsed(s).value.tag && Parsed(s).value.digest == ""
    ensures '@' in s ==> |Parsed(s).value.digest| > 19 && ImageTag(s) == Parsed(s).value.digest[..19] + "\U{2026}"
  {
    ParsedReference(s);
    NormalisedFields(Cut(s));
    NoSpaceInReference(s);
    if '@' in s {
      DigestShown(s);
    } else {
      TagShown(s);
    }
  }

  lemma DigestShown(s: string)
    requires WellFormed(Cut(s)) && '@' in s
    ensures DigestMark(s) >= 0 && OrEmpty(Cut(s).digest) == s[DigestMark(s) + 1..] && |OrEmpty(Cut(s).digest)| > 19
  {
    assert DigestMark(s) >= 0;
  }

  lemma TagShown(s: string)
    requires WellFormed(Cut(s)) && '@' !in s
    ensures DigestMark(s) == -1 && OrEmpty(Cut(s).digest) == ""
    ensures OrEmpty(Cut(s).tag) == if TagMark(s) >= 0 then s[TagMark(s) + 1..] else ""
    ensures TagMark(s) >= 0 ==> OrEmpty(Cut(s).tag) != ""
  {
    assert Before(s, -1) == s;
  }

  // ---- Finding an image on a node ----

  datatype NodeImage = NodeImage(names: seq<string>, sizeBytes: int)

  predicate DigestIs(parsed: Option<ImageReference>, digest: string) {
    parsed.Some? && parsed.value.digest == digest
  }

  predicate SameTag(parsed: Option<ImageReference>, reference: ImageReference) {
    && parsed.Some? && parsed.value.Repo() == reference.Repo()
    && (reference.tag == "" || parsed.value.tag == reference.tag)
  }

  /** How names are read: the matching below is the same for any reader. */
  type Reading = string -> Option<ImageReference>

  ghost function HasDigest(read: Reading, digest: string): string -> bool {
    name => DigestIs(read(name), digest)
  }

  ghost function HasTag(read: Reading, reference: ImageReference): string -> bool {
    name => SameTag(read(name), reference)
  }

  /** The image goes by some name that passes. */
  ghost function Named(ok: string -> bool): NodeImage -> bool {
    (image: NodeImage) => exists name :: name in image.names && ok(name)
  }

  /** The first image that passes. */
  ghost function First(images: seq<NodeImage>, ok: NodeImage -> bool): (r: Option<NodeImage>)
    ensures r.None? <==> forall image | image in images :: !ok(image)
  {
    if images == [] then None
    else if ok(images[0]) then Some(images[0])
    else First(images[1..], ok)
  }

  ghost function ByDigest(read: Reading, images: seq<NodeImage>, digest: string): Option<NodeImage> {
    First(images, Named(HasDigest(read, digest)))
  }

  ghost function ByTag(read: Reading, images: seq<NodeImage>, reference: ImageReference): Option<NodeImage> {
    First(images, Named(HasTag(read, reference)))
  }

  method NamesDigest(read: Reading, image: NodeImage, digest: string) returns (found: bool)
    ensures found <==> Named(HasDigest(read, digest))(image)
  {
    for k := 0 to |image.names|
      invariant forall j | 0 <= j < k :: !HasDigest(read, digest)(image.names[j])
    {
      if DigestIs(read(image.names[k]), digest) {
        assert HasDigest(read, digest)(image.names[k]);
        return true;
      }
    }
    return false;
  }

  method NamesTag(read: Reading, image: NodeImage, reference: ImageReference) returns (found: bool)
    ensures found <==> Named(HasTag(read, reference))(image)
  {
    for k := 0 to |image.names|
      invariant forall j | 0 <= j < k :: !HasTag(read, reference)(image.names[j])
    {
      if SameTag(read(image.names[k]), reference) {
        assert HasTag(read, reference)(image.names[k]);
        return true;
      }
    }
    return false;
  }

  lemma FirstFrom(images: seq<NodeImage>, ok: NodeImage -> bool, i: nat)
    requires i < |images|
    ensures First(images[i..], ok) == if ok(images[i]) then Some(images[i]) else First(images[i + 1..], ok)
  {
    assert images[i..][1..] == images[i + 1..];
  }

  method FindByDigest(read: Reading, images: seq<NodeImage>, digest: string) returns (entry: Option<NodeImage>)
    ensures entry == ByDigest(read, images, digest)
  {
    for i := 0 to |images|
      invariant ByDigest(read, images, digest) == ByDigest(read, images[i..], digest)
    {
      FirstFrom(images, Named(HasDigest(read, digest)), i);
      var found := NamesDigest(read, images[i], digest);
      if found {
        return Some(images[i]);
      }
    }
    return None;
  }

  method FindByTag(read: Reading, images: seq<NodeImage>, reference: ImageReference) returns (entry: Option<NodeImage>)
    ensures entry == ByTag(read, images, reference)
  {
    for i := 0 to |images|
      invariant ByTag(read, images, reference) == ByTag(read, images[i..], reference)
    {
      FirstFrom(images, Named(HasTag(read, reference)), i);
      var found := NamesTag(read, images[i], reference);
      if found {
        return Some(images[i]);
      }
    }
    return None;
  }

  /** The node's entry for an image: by digest first, then by repository and tag. */
  ghost function Matching(read: Reading, images: seq<NodeImage>, reference: ImageReference, digest: string)
    : Option<NodeImage>
  {
    if digest != "" && ByDigest(read, images, digest).Some? then ByDigest(read, images, digest)
    else if reference.repository == "" then None
    else ByTag(read, images, reference)
  }

  method MatchRead(read: Reading, images: seq<NodeImage>, reference: ImageReference, digest: string)
    returns (entry: Option<NodeImage>)
    ensures entry == Matching(read, images, reference, digest)
  {
    if digest != "" {
      entry := FindByDigest(read, images, digest);
      if entry.Some? { return; }
    }
    if reference.repository == "" {
      return None;
    }
    entry := FindByTag(read, images, reference);
  }

  method MatchNodeImage(images: seq<NodeImage>, reference: ImageReference, digest: string)
    returns (entry: Option<NodeImage>)
    ensures entry == Matching(Parsed, images, reference, digest)
  {
    entry := MatchRead(Parsed, images, reference, digest);
  }

  /** The entry found names the image: by its digest, or, when no entry does and the reference has
      a repository, by the same repository and tag. */
  lemma MatchMeans(images: seq<NodeImage>, reference: ImageReference, digest: string)
    ensures var entry := Matching(Parsed, images, reference, digest);
      && (entry.Some? ==> entry.value in images)
      && (digest != "" && (exists image :: image in images && Named(HasDigest(Parsed, digest))(image)) ==>
            entry.Some? && Named(HasDigest(Parsed, digest))(entry.value))
      && (entry.None? && reference.repository != "" ==>
            forall image | image in images :: !Named(HasTag(Parsed, reference))(image))
  {
    FirstIsIn(images, Named(HasDigest(Parsed, digest)));
    FirstIsIn(images, Named(HasTag(Parsed, reference)));
  }

  lemma {:induction false} FirstIsIn(images: seq<NodeImage>, ok: NodeImage -> bool)
    ensures var r := First(images, ok); r.Some? ==> r.value in images && ok(r.value)
  {
    if images != [] && !ok(images[0]) {
      FirstIsIn(images[1..], ok);
    }
  }

  /** Two parsed names have the same Repo exactly when registry and repository both agree,
      so matching on it mixes up no two registries. */
  lemma RepoIdentifies(s: string, t: string)
    requires Parsed(s).Some? && Parsed(t).Some?
    ensures var a, b := Parsed(s).value, Parsed(t).value;
      a.Repo() == b.Repo() <==> a.registry == b.registry && a.repository == b.repository
  {
    var a, b := Parsed(s).value, Parsed(t).value;
    RegistryHasNoSlash(s);
    RegistryHasNoSlash(t);
    SeparatorSplits(a.registry, '/', a.repository, b.registry, b.repository);
  }

  lemma RegistryHasNoSlash(s: string)
    requires Parsed(s).Some?
    ensures '/' !in Parsed(s).value.registry
  {
    RegistryChars(Cut(Stripped(s)));
  }

  lemma RegistryChars(p: Parts)
    requires WellFormed(p)
    ensures '/' !in Normalised(p).registry
  {
    DefaultedHost(p);
    HostHasNoSlash(Defaulted(p).host.value);
  }

  lemma HostHasNoSlash(host: string)
    requires IsHost(host)
    ensures '/' !in host
  {
    HostChars(host);
  }

  /** The other names an image goes by: each once, in order, without what is on screen. */
  method OtherNames(names: seq<string>, onScreen: set<string>) returns (out: seq<string>)
    ensures out == SortedElements((set name | name in names) - onScreen - {""})
  {
    var shown, kept: seq<string> := onScreen, [];
    for i := 0 to |names|
      invariant shown == onScreen + set name | name in kept
      invariant Distinct(kept)
      invariant (set name | name in kept) == (set name | name in names[..i]) - onScreen - {""}
    {
      assert names[..i + 1] == names[..i] + [names[i]];
      if names[i] == "" || names[i] in shown {
        continue;
      }
      shown := shown + {names[i]};
      kept := kept + [names[i]];
    }
    assert names[..|names|] == names;
    SortedElementsOf(kept, set name | name in kept);
    out := SortStrings(kept);
  }
}
