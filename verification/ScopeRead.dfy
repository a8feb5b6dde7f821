/** Reading over a scope (app/application/scope.go, browse.go). */
module ScopeRead {
  import opened Options
  import opened NamespaceScopes
  import opened Sequences

  /** How the API server refuses a list. Only Forbidden sends a named scope to
      one list per namespace. */
  datatype Refusal = Forbidden | Failed(reason: string)

  datatype Answer<+T> = Got(value: T) | Refused(refusal: Refusal)

  /** Plain is the caller's own error; InNamespace names the namespace that failed. */
  datatype ReadError = Plain(refusal: Refusal) | InNamespace(ns: NamespaceName, refusal: Refusal)

  datatype Result<+T> = Ok(value: T) | Err(error: ReadError)

  type Reader<!T> = NamespaceName -> Answer<T>

  function InNamespaceOnly<T>(namespaceOf: T -> NamespaceName, ns: NamespaceName): T -> bool {
    item => namespaceOf(item) == ns
  }

  function InScope<T>(namespaceOf: T -> NamespaceName, scope: NamespaceScope): T -> bool {
    item => scope.Includes(namespaceOf(item))
  }

  /** The position of the first refused namespace, or the length when there is none. */
  function FirstRefused<T>(names: seq<NamespaceName>, read: Reader<T>): (i: nat)
    ensures i <= |names|
    ensures i < |names| ==> read(names[i]).Refused?
    ensures forall k | 0 <= k < i :: read(names[k]).Got?
  {
    if names == [] || read(names[0]).Refused? then 0 else 1 + FirstRefused(names[1..], read)
  }

  /** One read per namespace. A single namespace keeps its own error text. */
  function EachNamespace<T>(names: seq<NamespaceName>, read: Reader<T>): Result<seq<T>> {
    var i := FirstRefused(names, read);
    if i == |names| then Ok(seq(|names|, k requires 0 <= k < |names| => read(names[k]).value))
    else if |names| == 1 then Err(Plain(read(names[0]).refusal))
    else Err(InNamespace(names[i], read(names[i]).refusal))
  }

  function ListScoped<T>(scope: NamespaceScope, namespaceOf: T -> NamespaceName, list: Reader<seq<T>>)
    : Result<seq<T>>
  {
    var wide := list(NAMESPACE_ALL);
    if scope.Everything() then
      match wide case Got(items) => Ok(items) case Refused(e) => Err(Plain(e))
    else if scope.ListsClusterWide() && wide.Got? then
      Ok(Filter(wide.value, InScope(namespaceOf, scope)))
    else if scope.ListsClusterWide() && wide.refusal != Forbidden then
      Err(Plain(wide.refusal))
    else
      match EachNamespace(scope.namespaces, list)
      case Ok(parts) => Ok(Concat(parts))
      case Err(e) => Err(e)
  }

  /** The concurrent reads of a named scope. Each task writes only its own slot, and
      the schedule, here any order at all, cannot be told from the result. */
  method PerNamespace<T>(scope: NamespaceScope, read: Reader<T>) returns (r: Result<seq<T>>)
    requires scope.namespaces != []
    ensures r == EachNamespace(scope.namespaces, read)
  {
    var names := scope.namespaces;
    if |names| == 1 {
      var one := read(names[0]);
      if one.Refused? { return Err(Plain(one.refusal)); }
      assert [one.value] == seq(|names|, k requires 0 <= k < |names| => read(names[k]).value);
      return Ok([one.value]);
    }

    var results := new Option<Answer<T>>[|names|](_ => None);
    var waiting := set i {:trigger names[i]} | 0 <= i < |names|;
    while waiting != {}
      invariant forall i | i in waiting :: 0 <= i < |names|
      invariant forall i | 0 <= i < |names| && i !in waiting :: results[i] == Some(read(names[i]))
      decreases waiting
    {
      var i :| i in waiting;
      results[i] := Some(read(names[i]));
      waiting := waiting - {i};
    }

    var parts: seq<T> := [];
    for i := 0 to |names|
      invariant |parts| == i
      invariant forall k | 0 <= k < i :: read(names[k]) == Got(parts[k])
    {
      var answer := results[i].value;
      if answer.Refused? {
        return Err(InNamespace(names[i], answer.refusal));
      }
      parts := parts + [answer.value];
    }
    assert parts == seq(|names|, k requires 0 <= k < |names| => read(names[k]).value);
    r := Ok(parts);
  }

  method ReadScoped<T>(scope: NamespaceScope, namespaceOf: T -> NamespaceName, list: Reader<seq<T>>)
    returns (r: Result<seq<T>>)
    requires scope.Valid()
    ensures r == ListScoped(scope, namespaceOf, list)
  {
    if scope.Everything() {
      var all := list(NAMESPACE_ALL);
      return match all case Got(items) => Ok(items) case Refused(e) => Err(Plain(e));
    }
    if scope.ListsClusterWide() {
      var wide := list(NAMESPACE_ALL);
      if wide.Got? {
        var kept := KeepIncluded(wide.value, scope, namespaceOf);
        return Ok(kept);
      }
      if wide.refusal != Forbidden {
        return Err(Plain(wide.refusal));
      }
    }
    var parts := PerNamespace(scope, list);
    if parts.Err? {
      return Err(parts.error);
    }
    assert parts.value[0..] == parts.value;
    var out: seq<T> := [];
    for i := 0 to |parts.value|
      invariant Concat(parts.value) == out + Concat(parts.value[i..])
    {
      assert parts.value[i..][1..] == parts.value[i + 1..];
      out := out + parts.value[i];
    }
    assert Concat(parts.value[|parts.value|..]) == [];
    assert out == Concat(parts.value);
    r := Ok(out);
  }

  /** The rows of a cluster-wide list that the scope includes, each looked up by
      binary search. */
  method KeepIncluded<T>(items: seq<T>, scope: NamespaceScope, namespaceOf: T -> NamespaceName)
    returns (kept: seq<T>)
    requires scope.Valid()
    ensures kept == Filter(items, InScope(namespaceOf, scope))
  {
    kept := [];
    ghost var keep := InScope(namespaceOf, scope);
    for i := 0 to |items|
      invariant Filter(items, keep) == kept + Filter(items[i..], keep)
    {
      assert items[i..][1..] == items[i + 1..];
      var included := scope.Search(namespaceOf(items[i]));
      if included {
        kept := kept + [items[i]];
      }
    }
  }

  // ---- What the two strategies promise about a cluster ----

  /** The answers a cluster holding `objects` can give: whatever is not refused is
      complete. Which lists are refused is arbitrary. */
  ghost predicate Consistent<T>(objects: seq<T>, namespaceOf: T -> NamespaceName, list: Reader<seq<T>>) {
    && (list(NAMESPACE_ALL).Got? ==> multiset(list(NAMESPACE_ALL).value) == multiset(objects))
    && forall ns | ns != NAMESPACE_ALL && list(ns).Got? ::
         multiset(list(ns).value) == multiset(Filter(objects, InNamespaceOnly(namespaceOf, ns)))
  }

  /** Lists of distinct namespaces, put end to end, count every object of those
      namespaces once. */
  lemma {:induction false} ConcatCount<T>(objects: seq<T>, namespaceOf: T -> NamespaceName,
      names: seq<NamespaceName>, parts: seq<seq<T>>, x: T)
    requires |names| == |parts| && Distinct(names)
    requires forall k | 0 <= k < |names| ::
      multiset(parts[k]) == multiset(Filter(objects, InNamespaceOnly(namespaceOf, names[k])))
    ensures multiset(Concat(parts))[x] == if namespaceOf(x) in names then multiset(objects)[x] else 0
  {
    if names != [] {
      ConcatCount(objects, namespaceOf, names[1..], parts[1..], x);
      FilterCount(objects, InNamespaceOnly(namespaceOf, names[0]), x);
      assert names == [names[0]] + names[1..];
      assert names[0] !in names[1..];
    }
  }

  ghost predicate Distinct(names: seq<NamespaceName>) {
    forall i, j | 0 <= i < j < |names| :: names[i] != names[j]
  }

  lemma ValidDistinct(scope: NamespaceScope)
    requires scope.Valid()
    ensures Distinct(scope.namespaces)
  {
    forall i, j | 0 <= i < j < |scope.namespaces| ensures scope.namespaces[i] != scope.namespaces[j] {
      Ordering.LessTotal(scope.namespaces[i], scope.namespaces[j]);
    }
  }

  /** All or nothing: a read that succeeds is, as a multiset, exactly the objects whose
      namespace the scope includes, whichever strategy answered. */
  lemma ReadIsExactlyTheScope<T>(objects: seq<T>, scope: NamespaceScope,
      namespaceOf: T -> NamespaceName, list: Reader<seq<T>>)
    requires scope.Valid() && Consistent(objects, namespaceOf, list)
    requires ListScoped(scope, namespaceOf, list).Ok?
    ensures multiset(ListScoped(scope, namespaceOf, list).value)
      == multiset(Filter(objects, InScope(namespaceOf, scope)))
  {
    var included := InScope(namespaceOf, scope);
    if scope.Everything() {
      FilterAll(objects, included);
    } else if scope.ListsClusterWide() && list(NAMESPACE_ALL).Got? {
      FilterSameMultiset(list(NAMESPACE_ALL).value, objects, included);
    } else {
      ValidDistinct(scope);
      var parts := EachNamespace(scope.namespaces, list).value;
      forall x | x in Concat(parts) + Filter(objects, included)
        ensures multiset(Concat(parts))[x] == multiset(Filter(objects, included))[x]
      {
        ConcatCount(objects, namespaceOf, scope.namespaces, parts, x);
        FilterCount(objects, included, x);
      }
    }
  }

  /** When a read fails, and with which error: a refused cluster-wide list is the
      answer for All, and for a named scope only when the refusal is not Forbidden;
      otherwise the first refused namespace in scope order is named, unless it is the
      scope's only one. */
  lemma ReadFailsExactlyWhen<T>(scope: NamespaceScope, namespaceOf: T -> NamespaceName, list: Reader<seq<T>>,
      e: ReadError)
    ensures ListScoped(scope, namespaceOf, list) == Err(e) <==>
      var wide := list(NAMESPACE_ALL);
      || (e.Plain? && scope.ListsClusterWide() && wide == Refused(e.refusal)
          && (scope.Everything() || e.refusal != Forbidden))
      || (!scope.Everything() && (scope.ListsClusterWide() ==> wide == Refused(Forbidden))
          && exists i :: 0 <= i < |scope.namespaces|
               && list(scope.namespaces[i]) == Refused(e.refusal)
               && (forall k | 0 <= k < i :: list(scope.namespaces[k]).Got?)
               && e == if |scope.namespaces| == 1 then Plain(e.refusal)
                       else InNamespace(scope.namespaces[i], e.refusal))
  {
    var i := FirstRefused(scope.namespaces, list);
    if i < |scope.namespaces| {
      assert list(scope.namespaces[i]).Refused?;
    }
  }

  // ---- Tables ----

  /** A generic table: its rows, and the cap that stopped the read when one did. */
  datatype Table<T> = Table(rows: seq<T>, truncated: bool, cap: nat)

  function FilterTable<T>(table: Table<T>, scope: NamespaceScope, namespaceOf: T -> NamespaceName): Table<T> {
    Table(Filter(table.rows, InScope(namespaceOf, scope)),
          table.truncated, if table.truncated then table.cap else 0)
  }

  function Max(a: nat, b: nat): nat { if a < b then b else a }

  function MergedCap<T>(tables: seq<Table<T>>): nat {
    if tables == [] then 0
    else
      var last := tables[|tables| - 1];
      var before := MergedCap(tables[..|tables| - 1]);
      if last.truncated then Max(before, last.cap) else before
  }

  function RowsOf<T>(tables: seq<Table<T>>): seq<seq<T>> {
    seq(|tables|, i requires 0 <= i < |tables| => tables[i].rows)
  }

  function Merged<T>(tables: seq<Table<T>>): Table<T> {
    Table(Concat(RowsOf(tables)), exists i :: 0 <= i < |tables| && tables[i].truncated, MergedCap(tables))
  }

  function TableScoped<T>(scope: NamespaceScope, namespaceOf: T -> NamespaceName, read: Reader<Table<T>>)
    : Result<Table<T>>
  {
    var wide := read(NAMESPACE_ALL);
    if scope.Everything() then
      match wide case Got(t) => Ok(t) case Refused(e) => Err(Plain(e))
    else if scope.ListsClusterWide() && wide.Got? then Ok(FilterTable(wide.value, scope, namespaceOf))
    else if scope.ListsClusterWide() && wide.refusal != Forbidden then Err(Plain(wide.refusal))
    else
      match EachNamespace(scope.namespaces, read)
      case Ok(tables) => Ok(Merged(tables))
      case Err(e) => Err(e)
  }

  method MergeTables<T>(tables: seq<Table<T>>) returns (merged: Table<T>)
    ensures merged == Merged(tables)
  {
    var rows: seq<T>, truncated, limit := [], false, 0;
    assert RowsOf(tables)[0..] == RowsOf(tables);
    for i := 0 to |tables|
      invariant Concat(RowsOf(tables)) == rows + Concat(RowsOf(tables)[i..])
      invariant truncated <==> exists k :: 0 <= k < i && tables[k].truncated
      invariant limit == MergedCap(tables[..i])
    {
      assert RowsOf(tables)[i..][1..] == RowsOf(tables)[i + 1..];
      assert tables[..i + 1][..i] == tables[..i];
      rows := rows + tables[i].rows;
      if tables[i].truncated {
        truncated := true;
        limit := Max(limit, tables[i].cap);
      }
    }
    assert tables[..|tables|] == tables;
    assert Concat(RowsOf(tables)[|tables|..]) == [];
    merged := Table(rows, truncated, limit);
  }

  method ReadTableScoped<T>(scope: NamespaceScope, namespaceOf: T -> NamespaceName, read: Reader<Table<T>>)
    returns (r: Result<Table<T>>)
    requires scope.Valid()
    ensures r == TableScoped(scope, namespaceOf, read)
  {
    if scope.Everything() {
      return match read(NAMESPACE_ALL) case Got(t) => Ok(t) case Refused(e) => Err(Plain(e));
    }
    if scope.ListsClusterWide() {
      var wide := read(NAMESPACE_ALL);
      if wide.Got? {
        var rows := KeepIncluded(wide.value.rows, scope, namespaceOf);
        return Ok(Table(rows, wide.value.truncated, if wide.value.truncated then wide.value.cap else 0));
      }
      if wide.refusal != Forbidden {
        return Err(Plain(wide.refusal));
      }
    }
    var tables := PerNamespace(scope, read);
    if tables.Err? {
      return Err(tables.error);
    }
    var merged := MergeTables(tables.value);
    r := Ok(merged);
  }

  /** A cut table holds some of the objects asked for; an uncut one holds them all. */
  ghost predicate Honest<T>(table: Table<T>, objects: seq<T>) {
    && multiset(table.rows) <= multiset(objects)
    && (!table.truncated ==> multiset(table.rows) == multiset(objects))
  }

  ghost predicate HonestReader<T>(objects: seq<T>, namespaceOf: T -> NamespaceName, read: Reader<Table<T>>) {
    && (read(NAMESPACE_ALL).Got? ==> Honest(read(NAMESPACE_ALL).value, objects))
    && forall ns | ns != NAMESPACE_ALL && read(ns).Got? ::
         Honest(read(ns).value, Filter(objects, InNamespaceOnly(namespaceOf, ns)))
  }

  lemma {:induction false} ConcatAtMost<T>(objects: seq<T>, namespaceOf: T -> NamespaceName,
      names: seq<NamespaceName>, parts: seq<seq<T>>, x: T)
    requires |names| == |parts| && Distinct(names)
    requires forall k | 0 <= k < |names| ::
      multiset(parts[k]) <= multiset(Filter(objects, InNamespaceOnly(namespaceOf, names[k])))
    ensures multiset(Concat(parts))[x] <= if namespaceOf(x) in names then multiset(objects)[x] else 0
  {
    if names != [] {
      ConcatAtMost(objects, namespaceOf, names[1..], parts[1..], x);
      FilterCount(objects, InNamespaceOnly(namespaceOf, names[0]), x);
      assert names == [names[0]] + names[1..];
      assert names[0] !in names[1..];
    }
  }

  /** A merged or filtered table never claims to be whole unless it holds every row of
      the scope, and never holds a row from outside it. */
  lemma TableReadIsHonest<T>(objects: seq<T>, scope: NamespaceScope,
      namespaceOf: T -> NamespaceName, read: Reader<Table<T>>)
    requires scope.Valid() && HonestReader(objects, namespaceOf, read)
    requires TableScoped(scope, namespaceOf, read).Ok?
    ensures Honest(TableScoped(scope, namespaceOf, read).value, Filter(objects, InScope(namespaceOf, scope)))
  {
    var included := InScope(namespaceOf, scope);
    if scope.Everything() {
      FilterAll(objects, included);
    } else if scope.ListsClusterWide() && read(NAMESPACE_ALL).Got? {
      FilterSubset(read(NAMESPACE_ALL).value.rows, objects, included);
      if !read(NAMESPACE_ALL).value.truncated {
        FilterSameMultiset(read(NAMESPACE_ALL).value.rows, objects, included);
      }
    } else {
      ValidDistinct(scope);
      var tables := EachNamespace(scope.namespaces, read).value;
      MergedIsHonest(objects, scope, namespaceOf, tables);
    }
  }

  lemma MergedIsHonest<T>(objects: seq<T>, scope: NamespaceScope,
      namespaceOf: T -> NamespaceName, tables: seq<Table<T>>)
    requires !scope.Everything() && Distinct(scope.namespaces) && |tables| == |scope.namespaces|
    requires forall k | 0 <= k < |tables| ::
      Honest(tables[k], Filter(objects, InNamespaceOnly(namespaceOf, scope.namespaces[k])))
    ensures Honest(Merged(tables), Filter(objects, InScope(namespaceOf, scope)))
  {
    var included := InScope(namespaceOf, scope);
    var rows := Concat(RowsOf(tables));
    forall x | x in multiset(rows) ensures multiset(rows)[x] <= multiset(Filter(objects, included))[x] {
      assert x in rows;
      ConcatAtMost(objects, namespaceOf, scope.namespaces, RowsOf(tables), x);
      FilterCount(objects, included, x);
    }
    if !Merged(tables).truncated {
      forall x | x in rows + Filter(objects, included)
        ensures multiset(rows)[x] == multiset(Filter(objects, included))[x]
      {
        ConcatCount(objects, namespaceOf, scope.namespaces, RowsOf(tables), x);
        FilterCount(objects, included, x);
      }
    }
  }
}
