/**
 * The first bot's prefix loader (`src/prefixes.ts`): every `[guildID, prefix]`
 * entry of the stored JSON document is set into the module-level `prefixes`
 * collection, except the `default` key that importing a JSON file as a
 * module adds. The promise resolves with that same collection.
 */
module LegacyPrefixes {
  import opened Wrappers
  import opened Lists
  import opened EntryMaps

  /** The entries `loadPrefixes` copies: all but the key `default`. */
  predicate Copied(e: Entry) {
    e.0 != "default"
  }

  /** The filter changes which entries name `default`, and nothing about the others. */
  lemma {:induction false} LastValueCopied(entries: seq<Entry>, key: string)
    ensures key != "default" ==> LastValue(Filter(entries, Copied), key) == LastValue(entries, key)
    ensures LastValue(Filter(entries, Copied), "default").None?
    decreases |entries|
  {
    if entries != [] {
      LastValueCopied(entries[..|entries| - 1], key);
      var init := Filter(entries[..|entries| - 1], Copied);
      var last := entries[|entries| - 1];
      if Copied(last) {
        assert (init + [last])[..|init|] == init;
      }
    }
  }

  /**
   * After loading, a guild named in the document has the prefix of its last
   * entry, `default` is a key only if it already was, and every other key is
   * untouched.
   */
  lemma LoadedPrefixes(before: map<string, string>, entries: seq<Entry>, key: string)
    ensures key != "default" && LastValue(entries, key).Some? ==>
      key in SetAll(before, Filter(entries, Copied), s => s) &&
      SetAll(before, Filter(entries, Copied), s => s)[key] == LastValue(entries, key).value
    ensures key == "default" || LastValue(entries, key).None? ==>
      (key in SetAll(before, Filter(entries, Copied), s => s) <==> key in before) &&
      (key in before ==> SetAll(before, Filter(entries, Copied), s => s)[key] == before[key])
  {
    LastValueCopied(entries, key);
    SetAllLookup(before, Filter(entries, Copied), s => s, key);
  }

  /** The module-level `prefixes` collection. */
  class LegacyPrefixes {
    var prefixes: map<string, string>

    constructor ()
      ensures prefixes == map[]
    {
      prefixes := map[];
    }

    /** `loadPrefixes()`: the `forEach` over the stored entries; resolves with this same collection. */
    method LoadPrefixes(stored: seq<Entry>) returns (r: LegacyPrefixes)
      modifies this
      ensures r == this
      ensures prefixes == SetAll(old(prefixes), Filter(stored, Copied), s => s)
    {
      var i := 0;
      while i < |stored|
        invariant 0 <= i <= |stored|
        invariant prefixes == SetAll(old(prefixes), Filter(stored[..i], Copied), s => s)
      {
        var entry := stored[i];
        assert stored[..i + 1][..i] == stored[..i];
        if entry.0 != "default" {
          SetAllSnoc(old(prefixes), Filter(stored[..i], Copied), entry, s => s);
          prefixes := prefixes[entry.0 := entry.1];
        }
        i := i + 1;
      }
      assert stored[..i] == stored;
      r := this;
    }
  }
}
