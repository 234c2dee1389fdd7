/**
 * The provider registry of the older package (`packages/core/providers/registry.ts`): the
 * entries hold provider instances built once, so a matching id always gets the same object.
 * There is no Qwen entry.
 */
module CoreRegistry {
  import opened Types
  import opened Strings
  import opened Registry

  /** `PROVIDER_REGISTRY`, in declaration order. */
  const Entries: seq<Entry> := [
    Entry(Pattern("onnx-community/deepseek", true), DeepseekProvider),
    Entry(Pattern("deepseek/", false), DeepseekProvider),
    Entry(Pattern("stabilityai/", false), TransformersProvider)]

  /** `getProvider(path)`: the shared instance of the first matching entry, else a new `TransformersProvider`. */
  function GetProvider(path: string): (p: ProviderRef)
    ensures FindEntry(Entries, path).Some? ==>
      p == ProviderRef(Entries[FindEntry(Entries, path).value].kind, Shared(FindEntry(Entries, path).value))
    ensures FindEntry(Entries, path).None? ==> p == ProviderRef(TransformersProvider, Fresh)
  {
    match FindEntry(Entries, path)
    case Some(k) => ProviderRef(Entries[k].kind, Shared(k))
    case None => ProviderRef(TransformersProvider, Fresh)
  }

  /** No id is ever given a `QwenProvider`. */
  lemma NeverQwen(path: string)
    ensures GetProvider(path).kind != QwenProvider
  {
  }

  /** Qwen ids fall back to a new `TransformersProvider`. */
  lemma QwenFallsBack(path: string)
    requires StartsWithIgnoreCase(path, "onnx-community/qwen") || StartsWithIgnoreCase(path, "qwen/")
    ensures GetProvider(path) == ProviderRef(TransformersProvider, Fresh)
  {
    assert LowerChar(path[0]) == 'o' || LowerChar(path[0]) == 'q';
    if LowerChar(path[0]) == 'o' {
      assert LowerChar(path[15]) == 'q';
      MismatchAt(Entries[0].pattern, path, 15);
    } else {
      MismatchAt(Entries[0].pattern, path, 0);
    }
    MismatchAt(Entries[1].pattern, path, 0);
    MismatchAt(Entries[2].pattern, path, 0);
  }

  /** Ids starting with `onnx-community/deepseek`, in any letter case, get the first entry's shared instance. */
  lemma OnnxDeepseekIds(path: string)
    requires StartsWithIgnoreCase(path, "onnx-community/deepseek")
    ensures GetProvider(path) == ProviderRef(DeepseekProvider, Shared(0))
  {
    FindEntryUnique(Entries, path, 0);
  }

  /** `DeepSeek/…` matches no entry, since `deepseek/` is case-sensitive, and gets a new default provider. */
  lemma DeepseekCaseSensitive()
    ensures GetProvider("DeepSeek/r1") == ProviderRef(TransformersProvider, Fresh)
  {
    var d := "DeepSeek/r1";
    MismatchAt(Entries[0].pattern, d, 0);
    assert d[..9][0] != "deepseek/"[0];
    MismatchAt(Entries[2].pattern, d, 0);
  }

  /** Two lookups of a matching id return the same instance; an unmatched id gets a new one each time. */
  lemma SharedIffMatched(path: string)
    ensures GetProvider(path).instance.Shared? <==> exists j :: 0 <= j < |Entries| && Matches(Entries[j].pattern, path)
  {
    if GetProvider(path).instance.Shared? {
      var k := FindEntry(Entries, path).value;
      assert Matches(Entries[k].pattern, path);
    }
  }
}
