/**
 * Looking a device up in the cached directory by alias:
 * `deviceList.find(d => d.alias === alias)`. The directory is whatever value
 * the device-list response held, so the lookup also covers the ways
 * `find` throws on it.
 */
module Directory {
  import opened JsValues

  /** The result of a lookup. `TypeError` is what the JavaScript runtime throws. */
  datatype Lookup = Found(device: Json) | NotFound | TypeError

  /** The predicate given to `find`. */
  predicate HasAlias(entry: Json, alias: string)
  {
    Get(Def(entry), "alias") == Def(JStr(alias))
  }

  /**
   * `find` over the entries: the first entry whose alias matches; reading
   * `alias` of a `null` entry throws before any later entry is examined.
   */
  function SearchEntries(entries: seq<Json>, alias: string): Lookup
  {
    if entries == [] then NotFound
    else if entries[0] == JNull then TypeError
    else if HasAlias(entries[0], alias) then Found(entries[0])
    else SearchEntries(entries[1..], alias)
  }

  /** Only an array has `find`; calling it on anything else throws. */
  function Search(list: Value, alias: string): Lookup
  {
    if list.Def? && list.json.JArr? then SearchEntries(list.json.items, alias) else TypeError
  }

  /** No entry before `k` is `null` or carries the alias. */
  predicate PassedOver(entries: seq<Json>, alias: string, k: int)
    requires 0 <= k <= |entries|
  {
    forall j :: 0 <= j < k ==> entries[j] != JNull && !HasAlias(entries[j], alias)
  }

  /**
   * The lookup is a first-match search, in both directions: it finds the
   * entry at `k` exactly when every earlier entry was passed over and the
   * entry at `k` matches; it reports no match exactly when every entry is
   * passed over; and it throws exactly when a `null` entry comes first.
   */
  lemma {:induction false} SearchIsFirstMatch(entries: seq<Json>, alias: string)
    ensures SearchEntries(entries, alias).Found? <==>
              exists k :: 0 <= k < |entries| && PassedOver(entries, alias, k) && entries[k] != JNull && HasAlias(entries[k], alias)
    ensures forall k :: 0 <= k < |entries| && PassedOver(entries, alias, k) && entries[k] != JNull && HasAlias(entries[k], alias) ==>
              SearchEntries(entries, alias) == Found(entries[k])
    ensures SearchEntries(entries, alias) == NotFound <==> PassedOver(entries, alias, |entries|)
    ensures SearchEntries(entries, alias) == TypeError <==>
              exists k :: 0 <= k < |entries| && PassedOver(entries, alias, k) && entries[k] == JNull
  {
    if entries != [] {
      var tail := entries[1..];
      SearchIsFirstMatch(tail, alias);
      forall k | 1 <= k <= |entries| ensures PassedOver(entries, alias, k) <==>
                  entries[0] != JNull && !HasAlias(entries[0], alias) && PassedOver(tail, alias, k - 1) {
        if PassedOver(entries, alias, k) {
          forall j | 0 <= j < k - 1 ensures tail[j] != JNull && !HasAlias(tail[j], alias) {
            assert tail[j] == entries[j + 1];
          }
        }
        if entries[0] != JNull && !HasAlias(entries[0], alias) && PassedOver(tail, alias, k - 1) {
          forall j | 0 <= j < k ensures entries[j] != JNull && !HasAlias(entries[j], alias) {
            if j > 0 {
              assert entries[j] == tail[j - 1];
            }
          }
        }
      }
      if SearchEntries(entries, alias).Found? && entries[0] != JNull && !HasAlias(entries[0], alias) {
        var k :| 0 <= k < |tail| && PassedOver(tail, alias, k) && tail[k] != JNull && HasAlias(tail[k], alias);
        assert entries[k + 1] == tail[k];
      }
      if exists k :: 0 <= k < |entries| && PassedOver(entries, alias, k) && entries[k] != JNull && HasAlias(entries[k], alias) {
        var k :| 0 <= k < |entries| && PassedOver(entries, alias, k) && entries[k] != JNull && HasAlias(entries[k], alias);
        if k > 0 {
          assert tail[k - 1] == entries[k];
        }
      }
      if SearchEntries(entries, alias) == TypeError && entries[0] != JNull {
        var k :| 0 <= k < |tail| && PassedOver(tail, alias, k) && tail[k] == JNull;
        assert entries[k + 1] == tail[k];
      }
      if exists k :: 0 <= k < |entries| && PassedOver(entries, alias, k) && entries[k] == JNull {
        var k :| 0 <= k < |entries| && PassedOver(entries, alias, k) && entries[k] == JNull;
        if k > 0 {
          assert tail[k - 1] == entries[k];
        }
      }
    }
  }

  /** The linear scan of `find`, stopping at the first match or the first throw. */
  method SearchDirectory(list: Value, alias: string) returns (r: Lookup)
    ensures r == Search(list, alias)
  {
    if !(list.Def? && list.json.JArr?) {
      return TypeError;
    }
    var entries := list.json.items;
    var i := 0;
    while i < |entries|
      invariant 0 <= i <= |entries|
      invariant SearchEntries(entries[i..], alias) == SearchEntries(entries, alias)
    {
      var entry := entries[i];
      assert entries[i..][0] == entry && entries[i..][1..] == entries[i + 1..];
      if entry == JNull {
        return TypeError;
      }
      if Get(Def(entry), "alias") == Def(JStr(alias)) {
        return Found(entry);
      }
      i := i + 1;
    }
    return NotFound;
  }

  /** Aliases are not required to be unique: the earlier of two entries wins. */
  lemma FirstOfDuplicatesWins(a: Json, b: Json, alias: string)
    requires a != JNull && HasAlias(a, alias) && HasAlias(b, alias)
    ensures Search(Def(JArr([a, b])), alias) == Found(a)
  {
  }
}
