/**
 * The provider registry of the newer package (`packages/wandler/providers/registry.ts`):
 * the entries name provider classes, and every lookup constructs a new provider.
 */
module WandlerRegistry {
  import opened Types
  import opened Strings
  import opened Registry

  /** `PROVIDER_REGISTRY`, in declaration order. */
  const Entries: seq<Entry> := [
    Entry(Pattern("onnx-community/qwen", true), QwenProvider),
    Entry(Pattern("qwen/", true), QwenProvider),
    Entry(Pattern("onnx-community/deepseek", true), DeepseekProvider),
    Entry(Pattern("deepseek/", false), DeepseekProvider),
    Entry(Pattern("stabilityai/", false), TransformersProvider)]

  /** `getProvider(path)`: a new instance of the first matching entry's class, else a new `TransformersProvider`. */
  function GetProvider(path: string): (p: ProviderRef)
    ensures p.instance == Fresh
    ensures FindEntry(Entries, path).Some? ==> p.kind == Entries[FindEntry(Entries, path).value].kind
    ensures (forall j :: 0 <= j < |Entries| ==> !Matches(Entries[j].pattern, path)) ==> p.kind == TransformersProvider
  {
    match FindEntry(Entries, path)
    case Some(k) => ProviderRef(Entries[k].kind, Fresh)
    case None => ProviderRef(TransformersProvider, Fresh)
  }

  /** Ids starting with `onnx-community/qwen` or `qwen/`, in any letter case, get `QwenProvider`. */
  lemma QwenIds(path: string)
    requires StartsWithIgnoreCase(path, "onnx-community/qwen") || StartsWithIgnoreCase(path, "qwen/")
    ensures GetProvider(path).kind == QwenProvider
  {
    if !Matches(Entries[0].pattern, path) {
      assert Matches(Entries[1].pattern, path);
      FindEntryUnique(Entries, path, 1);
    } else {
      FindEntryUnique(Entries, path, 0);
    }
  }

  /** Ids starting with `stabilityai/` get `TransformersProvider`. */
  lemma StabilityIds(path: string)
    requires StartsWith(path, "stabilityai/")
    ensures GetProvider(path).kind == TransformersProvider
  {
    assert path[0] == path[..12][0];
    MismatchAt(Entries[0].pattern, path, 0);
    MismatchAt(Entries[1].pattern, path, 0);
    MismatchAt(Entries[2].pattern, path, 0);
    MismatchAt(Entries[3].pattern, path, 0);
    FindEntryUnique(Entries, path, 4);
  }

  /** `deepseek/` is matched with its letter case. */
  lemma DeepseekExact()
    ensures GetProvider("deepseek/r1").kind == DeepseekProvider
  {
    var d := "deepseek/r1";
    MismatchAt(Entries[0].pattern, d, 0);
    MismatchAt(Entries[1].pattern, d, 0);
    MismatchAt(Entries[2].pattern, d, 0);
    assert d[..9] == "deepseek/";
    FindEntryUnique(Entries, d, 3);
  }

  /** `DeepSeek/…` matches no entry, since `deepseek/` is case-sensitive, and falls through to the default. */
  lemma DeepseekCaseSensitive()
    ensures GetProvider("DeepSeek/r1").kind == TransformersProvider
  {
    var d := "DeepSeek/r1";
    MismatchAt(Entries[0].pattern, d, 0);
    MismatchAt(Entries[1].pattern, d, 0);
    MismatchAt(Entries[2].pattern, d, 0);
    assert d[..9][0] != "deepseek/"[0];
    MismatchAt(Entries[4].pattern, d, 0);
  }

  /** Ids starting with `onnx-community/deepseek`, in any letter case, get `DeepseekProvider`. */
  lemma OnnxDeepseekIds(path: string)
    requires StartsWithIgnoreCase(path, "onnx-community/deepseek")
    ensures GetProvider(path).kind == DeepseekProvider
  {
    assert LowerChar(path[15]) == 'd' && LowerChar(path[0]) == 'o';
    MismatchAt(Entries[0].pattern, path, 15);
    MismatchAt(Entries[1].pattern, path, 0);
    FindEntryUnique(Entries, path, 2);
  }
}
