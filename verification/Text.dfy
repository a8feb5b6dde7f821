/** The string library the parsers and printers are written with: trimming, searching, splitting
    and joining, words and decimal numbers, as Go's strings and strconv packages have them. Go
    strings are taken as sequences of characters. The lemmas relate the functions to each other:
    joining undoes splitting, and a printed number reads back as itself. */
module Text {
  import opened Options

  /** `unicode.IsSpace`. */
  predicate IsSpace(c: char) {
    || c == ' ' || '\t' <= c <= '\r'
    || c == '\U{85}' || c == '\U{A0}' || c == '\U{1680}'
    || '\U{2000}' <= c <= '\U{200A}'
    || c == '\U{2028}' || c == '\U{2029}' || c == '\U{202F}' || c == '\U{205F}' || c == '\U{3000}'
  }

  predicate IsDigit(c: char) { '0' <= c <= '9' }
  predicate IsLower(c: char) { 'a' <= c <= 'z' }
  predicate IsUpper(c: char) { 'A' <= c <= 'Z' }

  function ToLowerChar(c: char): char {
    if IsUpper(c) then c - 'A' + 'a' else c
  }

  /** `strings.ToLower`, on the ASCII letters. */
  function ToLower(s: string): string {
    if s == "" then "" else [ToLowerChar(s[0])] + ToLower(s[1..])
  }

  function TrimLeft(s: string): (r: string)
    ensures r == "" || !IsSpace(r[0])
    ensures |r| <= |s| && r == s[|s| - |r|..]
  {
    if s != "" && IsSpace(s[0]) then TrimLeft(s[1..]) else s
  }

  function TrimRight(s: string): (r: string)
    ensures r == "" || !IsSpace(r[|r| - 1])
    ensures r <= s
  {
    if s != "" && IsSpace(s[|s| - 1]) then TrimRight(s[..|s| - 1]) else s
  }

  /** `strings.TrimSpace`. */
  function TrimSpace(s: string): string {
    TrimRight(TrimLeft(s))
  }

  function TrimPrefix(s: string, prefix: string): string {
    if prefix <= s then s[|prefix|..] else s
  }

  /** `strings.LastIndex` of one character: -1 when it does not occur. */
  function LastIndex(s: string, c: char): (i: int)
    ensures -1 <= i < |s|
    ensures i >= 0 ==> s[i] == c
    ensures forall k | i < k < |s| :: s[k] != c
  {
    if s == "" then -1
    else if s[|s| - 1] == c then |s| - 1
    else LastIndex(s[..|s| - 1], c)
  }

  /** `strings.Index` of one character: the length when it does not occur. */
  function IndexOrEnd(s: string, c: char): (i: nat)
    ensures i <= |s|
    ensures i < |s| ==> s[i] == c
    ensures forall k | 0 <= k < i :: s[k] != c
  {
    if s == "" || s[0] == c then 0 else 1 + IndexOrEnd(s[1..], c)
  }

  /** `strings.Split` on one character: never empty. */
  function Split(s: string, sep: char): (parts: seq<string>)
    ensures |parts| >= 1
    ensures forall p | p in parts :: sep !in p
    decreases |s|
  {
    var i := IndexOrEnd(s, sep);
    if i == |s| then [s] else [s[..i]] + Split(s[i + 1..], sep)
  }

  /** `strings.Join` on one character. */
  function Join(parts: seq<string>, sep: char): string {
    if parts == [] then ""
    else if |parts| == 1 then parts[0]
    else parts[0] + [sep] + Join(parts[1..], sep)
  }

  lemma {:induction false} JoinSplit(s: string, sep: char)
    ensures Join(Split(s, sep), sep) == s
    decreases |s|
  {
    var i := IndexOrEnd(s, sep);
    if i < |s| {
      JoinSplit(s[i + 1..], sep);
      assert s == s[..i] + [sep] + s[i + 1..];
    }
  }

  lemma IndexOfAppend(a: string, sep: char, b: string)
    requires sep !in a
    ensures IndexOrEnd(a + [sep] + b, sep) == |a|
  {
    assert (a + [sep] + b)[|a|] == sep;
    forall k | 0 <= k < |a| ensures (a + [sep] + b)[k] != sep {
      assert a[k] in a;
    }
  }

  /** What stands before and behind the first separator is determined by the whole. */
  lemma SeparatorSplits(a: string, sep: char, b: string, c: string, d: string)
    requires sep !in a && sep !in c
    ensures a + [sep] + b == c + [sep] + d <==> a == c && b == d
  {
    IndexOfAppend(a, sep, b);
    IndexOfAppend(c, sep, d);
    if a + [sep] + b == c + [sep] + d {
      assert a == (a + [sep] + b)[..|a|] && b == (a + [sep] + b)[|a| + 1..];
      assert c == (c + [sep] + d)[..|c|] && d == (c + [sep] + d)[|c| + 1..];
    }
  }

  lemma SplitCons(a: string, sep: char, rest: string)
    requires sep !in a
    ensures Split(a + [sep] + rest, sep) == [a] + Split(rest, sep)
  {
    IndexOfAppend(a, sep, rest);
    var s := a + [sep] + rest;
    assert s[..|a|] == a && s[|a| + 1..] == rest;
  }

  lemma SplitSingle(a: string, sep: char)
    requires sep !in a
    ensures Split(a, sep) == [a]
  {
    assert forall i | 0 <= i < |a| :: a[i] in a;
  }

  lemma {:induction false} SplitJoin(parts: seq<string>, sep: char)
    requires |parts| >= 1 && forall p | p in parts :: sep !in p
    ensures Split(Join(parts, sep), sep) == parts
  {
    assert parts[0] in parts;
    if |parts| == 1 {
      SplitSingle(parts[0], sep);
    } else {
      SplitJoin(parts[1..], sep);
      SplitCons(parts[0], sep, Join(parts[1..], sep));
    }
  }

  lemma LastIndexUnique(s: string, c: char, i: int)
    requires -1 <= i < |s|
    requires i >= 0 ==> s[i] == c
    requires forall k | i < k < |s| :: s[k] != c
    ensures LastIndex(s, c) == i
  {
  }

  /** Every character of the string passes. */
  ghost predicate All(s: string, ok: char -> bool) {
    forall c | c in s :: ok(c)
  }

  lemma LastIndexAppend(a: string, c: char, b: string)
    requires c !in b
    ensures LastIndex(a + [c] + b, c) == |a|
  {
    LastIndexUnique(a + [c] + b, c, |a|);
  }

  lemma {:induction false} JoinAll(parts: seq<string>, sep: char, ok: char -> bool)
    requires forall p | p in parts :: All(p, ok)
    requires |parts| >= 2 ==> ok(sep)
    ensures All(Join(parts, sep), ok)
  {
    if |parts| >= 2 {
      assert parts[0] in parts;
      JoinAll(parts[1..], sep, ok);
    } else if |parts| == 1 {
      assert parts[0] in parts;
    }
  }

  lemma TrimNothing(s: string)
    requires forall c | c in s :: !IsSpace(c)
    ensures TrimSpace(s) == s
  {
    if s != "" {
      assert s[0] in s && s[|s| - 1] in s;
    }
  }

  // ---- Fields ----

  predicate IsWord(s: string) { s != "" && forall c | c in s :: !IsSpace(c) }

  function WordEnd(s: string): (i: nat)
    ensures i <= |s| && (i < |s| ==> IsSpace(s[i]))
    ensures forall k | 0 <= k < i :: !IsSpace(s[k])
  {
    if s == "" || IsSpace(s[0]) then 0 else 1 + WordEnd(s[1..])
  }

  /** `strings.Fields`: the words between runs of white space. */
  function Fields(s: string): (words: seq<string>)
    decreases |s|
  {
    var t := TrimLeft(s);
    if t == "" then []
    else
      var i := WordEnd(t);
      [t[..i]] + Fields(t[i..])
  }

  lemma {:induction false} FieldsAreWords(s: string)
    ensures forall w | w in Fields(s) :: IsWord(w)
    decreases |s|
  {
    var t := TrimLeft(s);
    if t != "" {
      FieldsAreWords(t[WordEnd(t)..]);
    }
  }

  lemma WordEndUnique(s: string, i: nat)
    requires i <= |s| && (i < |s| ==> IsSpace(s[i]))
    requires forall k | 0 <= k < i :: !IsSpace(s[k])
    ensures WordEnd(s) == i
  {
  }

  lemma WordEndOf(word: string, rest: string)
    requires IsWord(word) && (rest == "" || IsSpace(rest[0]))
    ensures WordEnd(word + rest) == |word|
  {
    forall k | 0 <= k < |word| ensures !IsSpace((word + rest)[k]) {
      assert word[k] in word;
    }
    WordEndUnique(word + rest, |word|);
  }

  lemma FieldsCons(word: string, rest: string)
    requires IsWord(word) && (rest == "" || IsSpace(rest[0]))
    ensures Fields(word + rest) == [word] + Fields(rest)
  {
    var s := word + rest;
    assert s[0] == word[0] && word[0] in word;
    WordEndOf(word, rest);
    assert TrimLeft(s) == s;
    assert s[..|word|] == word && s[|word|..] == rest;
  }

  lemma FieldsPrepend(word: string, rest: string)
    requires IsWord(word)
    ensures Fields(word + [' '] + rest) == [word] + Fields(rest)
  {
    FieldsCons(word, [' '] + rest);
    Regroup(word, [' '], rest);
  }

  lemma Regroup(a: string, b: string, c: string)
    ensures a + b + c == a + (b + c)
  {
  }

  function NonEmpty(words: seq<string>): seq<string> {
    if words == [] then [] else (if words[0] == "" then [] else [words[0]]) + NonEmpty(words[1..])
  }

  lemma FieldsStep(word: string, rest: string)
    requires word == "" || IsWord(word)
    ensures Fields(word + [' '] + rest) == (if word == "" then [] else [word]) + Fields(rest)
  {
    if word == "" {
      assert "" + [' '] + rest == [' '] + rest;
    } else {
      FieldsPrepend(word, rest);
    }
  }

  lemma FieldsLast(word: string)
    requires word == "" || IsWord(word)
    ensures Fields(word) == NonEmpty([word])
  {
    if word != "" { FieldsOne(word); }
  }

  /** Between two blanks there is no field. */
  lemma {:induction false} FieldsNonEmpty(words: seq<string>)
    requires forall i | 0 <= i < |words| :: words[i] == "" || IsWord(words[i])
    ensures Fields(Join(words, ' ')) == NonEmpty(words)
  {
    if |words| == 1 {
      FieldsLast(words[0]);
    } else if words != [] {
      FieldsNonEmpty(words[1..]);
      FieldsStep(words[0], Join(words[1..], ' '));
    }
  }

  lemma {:induction false} AllNonEmpty(words: seq<string>)
    requires forall i | 0 <= i < |words| :: words[i] != ""
    ensures NonEmpty(words) == words
  {
    if words != [] {
      AllNonEmpty(words[1..]);
    }
  }

  /** Words joined by single blanks are their own fields. */
  lemma FieldsJoin(words: seq<string>)
    requires forall w | w in words :: IsWord(w)
    ensures Fields(Join(words, ' ')) == words
  {
    forall i | 0 <= i < |words| ensures IsWord(words[i]) {
      assert words[i] in words;
    }
    FieldsNonEmpty(words);
    AllNonEmpty(words);
  }

  lemma FieldsOne(word: string)
    requires IsWord(word)
    ensures Fields(word) == [word]
  {
    FieldsCons(word, "");
    assert word + "" == word;
  }

  // ---- Numbers ----

  function DigitValue(c: char): nat
    requires IsDigit(c)
  {
    c as int - '0' as int
  }

  predicate AllDigits(s: string) { s != "" && forall i | 0 <= i < |s| :: IsDigit(s[i]) }

  function Value(s: string): nat
    requires forall i | 0 <= i < |s| :: IsDigit(s[i])
  {
    if s == "" then 0 else Value(s[..|s| - 1]) * 10 + DigitValue(s[|s| - 1])
  }

  function Digits(n: nat): (s: string)
    ensures AllDigits(s)
  {
    if n < 10 then ['0' + n as char] else Digits(n / 10) + ['0' + (n % 10) as char]
  }

  function Decimal(n: int): string {
    if n < 0 then "-" + Digits(-n) else Digits(n)
  }

  predicate IsInt64(n: int) { -0x8000_0000_0000_0000 <= n < 0x8000_0000_0000_0000 }

  /** `strconv.ParseInt` in base 10 for 64 bits. */
  function ParseInt(s: string): Option<int> {
    var signed := s != "" && (s[0] == '-' || s[0] == '+');
    var digits := if signed then s[1..] else s;
    if !AllDigits(digits) then None
    else
      var n: int := if signed && s[0] == '-' then 0 - Value(digits) else Value(digits) + 0;
      if IsInt64(n) then Some(n) else None
  }

  lemma {:induction false} ValueDigits(n: nat)
    ensures Value(Digits(n)) == n
  {
    if n >= 10 {
      ValueDigits(n / 10);
      var s := Digits(n);
      assert s[..|s| - 1] == Digits(n / 10);
    }
  }

  lemma ParseDecimal(n: int)
    requires IsInt64(n)
    ensures ParseInt(Decimal(n)) == Some(n)
  {
    ValueDigits(if n < 0 then -n else n);
    var s := Decimal(n);
    if n < 0 {
      assert s[1..] == Digits(-n);
    } else {
      assert IsDigit(s[0]);
    }
  }

  // ---- Lines ----

  /** Splitting at every separator splits at any one of them. */
  lemma {:induction false} SplitAppend(a: string, sep: char, b: string)
    ensures Split(a + [sep] + b, sep) == Split(a, sep) + Split(b, sep)
    decreases |a|
  {
    var i := IndexOrEnd(a, sep);
    if i == |a| {
      SplitSingle(a, sep);
      SplitCons(a, sep, b);
    } else {
      var head, rest := a[..i], a[i + 1..];
      SplitAppend(rest, sep, b);
      SplitBehind(head, sep, rest, b);
      assert a == head + [sep] + rest;
    }
  }

  lemma SplitBehind(head: string, sep: char, rest: string, b: string)
    requires sep !in head && Split(rest + [sep] + b, sep) == Split(rest, sep) + Split(b, sep)
    ensures Split(head + [sep] + rest + [sep] + b, sep) == Split(head + [sep] + rest, sep) + Split(b, sep)
  {
    SplitCons(head, sep, rest);
    SplitCons(head, sep, rest + [sep] + b);
    RegroupTail(head + [sep], rest, [sep], b);
    RegroupWords([head], Split(rest, sep), Split(b, sep));
  }

  lemma RegroupTail(a: string, b: string, c: string, d: string)
    ensures a + b + c + d == a + (b + c + d)
  {
  }

  lemma RegroupWords(a: seq<string>, b: seq<string>, c: seq<string>)
    ensures a + b + c == a + (b + c)
  {
  }
}
