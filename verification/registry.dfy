/**
 * What the provider registries of both generations share: a table of anchored prefix
 * patterns, some case-insensitive, searched in declaration order with `Array.find`.
 */
module Registry {
  import opened Types
  import opened Strings

  /** A regular expression of the form `/^prefix/` or `/^prefix/i` with an ASCII prefix. */
  datatype Pattern = Pattern(prefix: string, ignoreCase: bool)

  /** `pattern.test(path)` */
  predicate Matches(p: Pattern, path: string)
  {
    if p.ignoreCase then StartsWithIgnoreCase(path, p.prefix) else StartsWith(path, p.prefix)
  }

  /** The provider classes a registry can name. */
  datatype ProviderKind = QwenProvider | DeepseekProvider | TransformersProvider

  datatype Entry = Entry(pattern: Pattern, kind: ProviderKind)

  /** `entries.find(({ pattern }) => pattern.test(path))`, as the index of the entry found. */
  function FindEntry(entries: seq<Entry>, path: string): (r: Option<nat>)
    ensures r.Some? ==> r.value < |entries| && Matches(entries[r.value].pattern, path)
    ensures r.Some? ==> forall j :: 0 <= j < r.value ==> !Matches(entries[j].pattern, path)
    ensures r.None? ==> forall j :: 0 <= j < |entries| ==> !Matches(entries[j].pattern, path)
  {
    if entries == [] then None
    else if Matches(entries[0].pattern, path) then Some(0)
    else
      match FindEntry(entries[1..], path)
      case None => None
      case Some(k) => Some(k + 1)
  }

  /** The entry found is the only one that can be found: a later matching entry is never chosen. */
  lemma FindEntryUnique(entries: seq<Entry>, path: string, k: nat)
    requires k < |entries| && Matches(entries[k].pattern, path)
    requires forall j :: 0 <= j < k ==> !Matches(entries[j].pattern, path)
    ensures FindEntry(entries, path) == Some(k)
  {
  }

  /** A pattern does not match a path that differs from its prefix, in any letter case, at position `i`. */
  lemma MismatchAt(p: Pattern, path: string, i: nat)
    requires i < |p.prefix| && i < |path| && LowerChar(path[i]) != LowerChar(p.prefix[i])
    ensures !Matches(p, path)
  {
  }

  /** Which object a lookup hands back: the instance stored in entry `entry`, or a newly built one. */
  datatype Instance = Shared(entry: nat) | Fresh

  datatype ProviderRef = ProviderRef(kind: ProviderKind, instance: Instance)
}
