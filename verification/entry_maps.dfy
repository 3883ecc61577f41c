/**
 * Filling a guild-to-prefix collection from a list of `[guildID, prefix]`
 * entries, one `set` per entry, as both bots' prefix loaders do: a later
 * entry for the same guild overwrites an earlier one, and guilds that no
 * entry names keep what they had.
 */
module EntryMaps {
  import opened Wrappers

  type Entry = (string, string)

  /** The collection after `m.set(key, value(raw))` for each entry in turn. */
  function SetAll(m: map<string, string>, entries: seq<Entry>, value: string -> string): map<string, string>
    decreases |entries|
  {
    if entries == [] then m
    else
      var last := entries[|entries| - 1];
      SetAll(m, entries[..|entries| - 1], value)[last.0 := value(last.1)]
  }

  /** The raw value of the last entry for `key`, if any entry names it. */
  function LastValue(entries: seq<Entry>, key: string): (r: Option<string>)
    ensures r.None? <==> forall i :: 0 <= i < |entries| ==> entries[i].0 != key
    ensures r.Some? ==> exists i :: (0 <= i < |entries| && entries[i] == (key, r.value) &&
      forall j :: i < j < |entries| ==> entries[j].0 != key)
    decreases |entries|
  {
    if entries == [] then None
    else if entries[|entries| - 1].0 == key then Some(entries[|entries| - 1].1)
    else LastValue(entries[..|entries| - 1], key)
  }

  /** A key is in the filled collection exactly when it was before or an entry names it; the last such entry decides its value. */
  lemma {:induction false} SetAllLookup(m: map<string, string>, entries: seq<Entry>, value: string -> string, key: string)
    ensures key in SetAll(m, entries, value) <==> key in m || LastValue(entries, key).Some?
    ensures LastValue(entries, key).Some? ==> SetAll(m, entries, value)[key] == value(LastValue(entries, key).value)
    ensures LastValue(entries, key).None? && key in m ==> SetAll(m, entries, value)[key] == m[key]
    decreases |entries|
  {
    if entries != [] {
      SetAllLookup(m, entries[..|entries| - 1], value, key);
    }
  }

  /** One more entry at the end is one more `set`. */
  lemma SetAllSnoc(m: map<string, string>, entries: seq<Entry>, e: Entry, value: string -> string)
    ensures SetAll(m, entries + [e], value) == SetAll(m, entries, value)[e.0 := value(e.1)]
  {
    assert (entries + [e])[..|entries|] == entries;
  }
}
