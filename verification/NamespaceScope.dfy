/** Which namespaces a read covers (app/domain/namespace.go). */
module NamespaceScopes {
  import opened Options
  import opened Ordering
  import Text

  type NamespaceName = string

  /** Every namespace the caller may read. */
  const NAMESPACE_ALL: NamespaceName := ""
  const MAX_NAMESPACE_NAME_LENGTH := 63
  const NAMESPACE_LIST_CAP := 3

  predicate IsLabelChar(c: char) { Text.IsLower(c) || Text.IsDigit(c) }

  /** A label of RFC 1123: lower-case letters, digits and inner hyphens. */
  predicate IsDnsLabel(s: string) {
    && 0 < |s| <= MAX_NAMESPACE_NAME_LENGTH
    && IsLabelChar(s[0]) && IsLabelChar(s[|s| - 1])
    && forall i | 0 <= i < |s| :: IsLabelChar(s[i]) || s[i] == '-'
  }

  /** None is the refusal of a name that is not a label. */
  function NewNamespaceName(raw: string): Option<NamespaceName> {
    var trimmed := Text.TrimSpace(raw);
    if trimmed == "" then Some(NAMESPACE_ALL)
    else if IsDnsLabel(trimmed) then Some(trimmed)
    else None
  }

  datatype NamespaceScope = NamespaceScope(namespaces: seq<NamespaceName>, all: bool) {
    /** What the constructors establish: sorted, distinct, and naming real namespaces. */
    ghost predicate Valid() {
      && StrictlyOrdered(namespaces, Less)
      && NAMESPACE_ALL !in namespaces
    }

    /** The zero scope names nothing and is read as every namespace. */
    predicate Everything() { all || namespaces == [] }

    predicate Includes(ns: NamespaceName) { Everything() || ns in namespaces }

    predicate ListsClusterWide() { Everything() || |namespaces| > NAMESPACE_LIST_CAP }

    /** What a cache calls the scope. */
    function Key(): string { if Everything() then "" else Text.Join(namespaces, ',') }

    /** `slices.BinarySearch`, the way Includes looks a namespace up. */
    method Search(ns: NamespaceName) returns (found: bool)
      requires Valid()
      ensures found <==> Includes(ns)
    {
      if Everything() { return true; }
      var i, j := 0, |namespaces|;
      while i < j
        invariant 0 <= i <= j <= |namespaces|
        invariant forall k | 0 <= k < i :: Less(namespaces[k], ns)
        invariant forall k | j <= k < |namespaces| :: !Less(namespaces[k], ns)
      {
        var h := (i + j) / 2;
        if Less(namespaces[h], ns) {
          forall k | 0 <= k < h ensures Less(namespaces[k], ns) {
            LessTransitive(namespaces[k], namespaces[h], ns);
          }
          i := h + 1;
        } else {
          forall k | h <= k < |namespaces| ensures !Less(namespaces[k], ns) {
            if k > h && Less(namespaces[k], ns) {
              LessTransitive(namespaces[h], namespaces[k], ns);
            }
          }
          j := h;
        }
      }
      found := i < |namespaces| && namespaces[i] == ns;
      LessTotal(ns, ns);
      assert forall k | 0 <= k < |namespaces| && namespaces[k] == ns :: i <= k;
      assert forall k | i < k < |namespaces| :: Less(namespaces[i], namespaces[k]);
    }
  }

  /** The scope of one namespace, or of all of them. */
  function ScopeOf(ns: NamespaceName): (scope: NamespaceScope)
    ensures scope.Valid() && forall name :: scope.Includes(name) <==> ns == NAMESPACE_ALL || name == ns
  {
    if ns == NAMESPACE_ALL then NamespaceScope([], true) else NamespaceScope([ns], false)
  }

  /** The namespaces a list of entries names under a reading of one entry. */
  ghost predicate Names(raw: seq<string>, parse: string -> Option<NamespaceName>, ns: NamespaceName) {
    ns != NAMESPACE_ALL && exists i :: 0 <= i < |raw| && parse(raw[i]) == Some(ns)
  }

  /** None when an entry is not a namespace name. Otherwise the scope names exactly
      the entries that are not blank, and is All when there is none. */
  method NewNamespaceScope(raw: seq<string>) returns (r: Option<NamespaceScope>)
    ensures r.None? <==> exists i :: 0 <= i < |raw| && NewNamespaceName(raw[i]).None?
    ensures r.Some? ==> r.value.Valid()
    ensures r.Some? ==> (r.value.all <==> forall ns :: !Names(raw, NewNamespaceName, ns))
    ensures r.Some? ==> forall ns :: ns in r.value.namespaces <==> Names(raw, NewNamespaceName, ns)
  {
    r := ScopeFrom(raw, NewNamespaceName);
  }

  method ScopeFrom(raw: seq<string>, parse: string -> Option<NamespaceName>)
    returns (r: Option<NamespaceScope>)
    ensures r.None? <==> exists i :: 0 <= i < |raw| && parse(raw[i]).None?
    ensures r.Some? ==> r.value.Valid()
    ensures r.Some? ==> (r.value.all <==> forall ns :: !Names(raw, parse, ns))
    ensures r.Some? ==> forall ns :: ns in r.value.namespaces <==> Names(raw, parse, ns)
  {
    var out: seq<NamespaceName> := [];
    for i := 0 to |raw|
      invariant forall k | 0 <= k < i :: parse(raw[k]).Some?
      invariant Distinct(out) && NAMESPACE_ALL !in out
      invariant forall ns | ns in out :: Names(raw, parse, ns)
      invariant forall k | 0 <= k < i :: parse(raw[k]).value == NAMESPACE_ALL || parse(raw[k]).value in out
    {
      var name := parse(raw[i]);
      if name.None? {
        return None;
      }
      if name.value != NAMESPACE_ALL && name.value !in out {
        out := out + [name.value];
      }
    }
    if out == [] {
      return Some(NamespaceScope([], true));
    }
    assert out[0] in out;
    r := Some(SortedScope(out));
  }

  function SortedScope(names: seq<NamespaceName>): (r: NamespaceScope)
    requires Distinct(names) && NAMESPACE_ALL !in names
    ensures r.Valid() && !r.all
    ensures forall ns :: ns in r.namespaces <==> ns in names
  {
    SortStringsStrict(names);
    SameMembers(names, SortStrings(names));
    NamespaceScope(SortStrings(names), false)
  }

  /** Comma-free labels make the key say which scope it is. */
  lemma KeyInjective(a: NamespaceScope, b: NamespaceScope)
    requires a.Valid() && b.Valid()
    requires forall n | n in a.namespaces + b.namespaces :: ',' !in n
    ensures a.Key() == b.Key() <==> (forall ns :: a.Includes(ns) <==> b.Includes(ns))
  {
    if !a.Everything() && !b.Everything() {
      if a.Key() == b.Key() {
        Text.SplitJoin(a.namespaces, ',');
        Text.SplitJoin(b.namespaces, ',');
      } else if forall ns :: a.Includes(ns) <==> b.Includes(ns) {
        LessStrictWeak();
        assert forall ns :: ns in a.namespaces <==> a.Includes(ns);
        assert forall ns :: ns in b.namespaces <==> b.Includes(ns);
        StrictlyOrderedUnique(a.namespaces, b.namespaces, Less);
      }
    } else if !a.Everything() {
      assert !a.Includes(NAMESPACE_ALL) && b.Includes(NAMESPACE_ALL);
    } else if !b.Everything() {
      assert a.Includes(NAMESPACE_ALL) && !b.Includes(NAMESPACE_ALL);
    }
  }

}
