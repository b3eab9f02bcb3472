/**
 * The cache index as it is persisted: the manifest `cache.json` holds the
 * index's entries as a list of `[key, value]` pairs.
 */
module CacheIndex {
  import opened Types

  /** The manifest's contents: a list of pairs, or something unreadable, unparseable or not a pair list. */
  datatype ManifestFile = Pairs(entries: seq<(string, string)>) | Corrupt

  /** No pair after position `i` has the key of pair `i`. */
  predicate LastForKey(entries: seq<(string, string)>, i: int)
    requires 0 <= i < |entries|
  {
    forall j :: i < j < |entries| ==> entries[j].0 != entries[i].0
  }

  /**
   * `new Map(entries)`: each pair is set in turn, so the last pair always
   * wins. `MapOfPairsKeys` and `MapOfPairsLastWins` state the whole map.
   */
  function MapOfPairs(entries: seq<(string, string)>): (m: map<string, string>)
    ensures entries != [] ==> entries[|entries| - 1].0 in m && m[entries[|entries| - 1].0] == entries[|entries| - 1].1
  {
    if entries == [] then map[]
    else
      var last := entries[|entries| - 1];
      MapOfPairs(entries[..|entries| - 1])[last.0 := last.1]
  }

  /** The keys a pair list lists. */
  function KeysOf(entries: seq<(string, string)>): set<string>
  {
    set i | 0 <= i < |entries| :: entries[i].0
  }

  /** The map built from any pair list has exactly the keys listed. */
  lemma {:induction false} MapOfPairsKeys(entries: seq<(string, string)>)
    ensures MapOfPairs(entries).Keys == KeysOf(entries)
  {
    if entries != [] {
      var init, last := entries[..|entries| - 1], entries[|entries| - 1];
      assert MapOfPairs(entries) == MapOfPairs(init)[last.0 := last.1];
      MapOfPairsKeys(init);
      forall i | 0 <= i < |init| ensures init[i].0 in KeysOf(entries) {
        assert entries[i] == init[i];
      }
      forall i | 0 <= i < |entries| - 1 ensures entries[i].0 in KeysOf(init) {
        assert entries[i] == init[i];
      }
      assert KeysOf(entries) == KeysOf(init) + {last.0};
    }
  }

  /** In the map built from any pair list, each key maps to the value of its last pair. */
  lemma {:induction false} MapOfPairsLastWins(entries: seq<(string, string)>)
    ensures forall i :: 0 <= i < |entries| && LastForKey(entries, i) ==>
              entries[i].0 in MapOfPairs(entries) && MapOfPairs(entries)[entries[i].0] == entries[i].1
  {
    if entries != [] {
      var init, last := entries[..|entries| - 1], entries[|entries| - 1];
      var m, mi := MapOfPairs(entries), MapOfPairs(init);
      assert m == mi[last.0 := last.1];
      MapOfPairsLastWins(init);
      forall i | 0 <= i < |init| && LastForKey(entries, i) ensures entries[i].0 in m && m[entries[i].0] == entries[i].1 {
        assert LastForKey(init, i) by {
          forall j | i < j < |init| ensures init[j].0 != init[i].0 {
            assert entries[j] == init[j];
          }
        }
        assert entries[i] == init[i];
      }
    }
  }

  /** No key occurs twice, as in the entries of a `Map`. */
  predicate DistinctKeys(entries: seq<(string, string)>)
  {
    forall i, j :: 0 <= i < j < |entries| ==> entries[i].0 != entries[j].0
  }

  /** The map built from pairs with distinct keys holds exactly those pairs. */
  lemma {:induction false} MapOfDistinctPairs(entries: seq<(string, string)>)
    requires DistinctKeys(entries)
    ensures forall e :: e in entries <==> e.0 in MapOfPairs(entries) && MapOfPairs(entries)[e.0] == e.1
  {
    if entries != [] {
      var init, last := entries[..|entries| - 1], entries[|entries| - 1];
      assert entries == init + [last];
      assert DistinctKeys(init);
      MapOfDistinctPairs(init);
      forall e ensures e in entries <==> e.0 in MapOfPairs(entries) && MapOfPairs(entries)[e.0] == e.1 {
        if e in init {
          var i :| 0 <= i < |init| && init[i] == e;
          assert entries[i] == e;
        }
      }
    }
  }

  /**
   * Reloading depends on the pairs, not on their order: two pair lists with
   * distinct keys that are permutations of each other give the same index.
   */
  lemma PairsOrderIrrelevant(p: seq<(string, string)>, q: seq<(string, string)>)
    requires DistinctKeys(p) && DistinctKeys(q)
    requires multiset(p) == multiset(q)
    ensures MapOfPairs(p) == MapOfPairs(q)
  {
    MapOfDistinctPairs(p);
    MapOfDistinctPairs(q);
    var mp, mq := MapOfPairs(p), MapOfPairs(q);
    forall k | k in mp ensures k in mq && mq[k] == mp[k] {
      assert (k, mp[k]) in multiset(p);
      assert (k, mp[k]) in q;
    }
    forall k | k in mq ensures k in mp {
      assert (k, mq[k]) in multiset(q);
      assert (k, mq[k]) in p;
    }
  }

  /**
   * `[...State.Cache.entries()]`: the index's entries as pairs, each key
   * once; reading them back with `new Map(...)` gives the same index.
   */
  method Entries(index: map<string, string>) returns (entries: seq<(string, string)>)
    ensures DistinctKeys(entries)
    ensures MapOfPairs(entries) == index
  {
    entries := [];
    var rest := index.Keys;
    while rest != {}
      invariant rest <= index.Keys
      invariant forall i :: 0 <= i < |entries| ==> entries[i].0 in index.Keys - rest
      invariant DistinctKeys(entries)
      invariant MapOfPairs(entries) == map k | k in index.Keys - rest :: index[k]
      decreases rest
    {
      var k :| k in rest;
      entries := entries + [(k, index[k])];
      rest := rest - {k};
    }
  }

  /** The manifest after `collect` makes sure it exists: a missing file is created as `[]`. */
  function Ensured(manifest: Option<ManifestFile>): (m: ManifestFile)
    ensures manifest.Some? ==> m == manifest.value
    ensures manifest.None? ==> m == Pairs([])
  {
    if manifest.None? then Pairs([]) else manifest.value
  }

  /**
   * The index `collect` loads: the manifest's pairs read with `new Map`,
   * and the empty index for a manifest that is missing or corrupt.
   */
  function LoadIndex(manifest: Option<ManifestFile>): (index: map<string, string>)
    ensures Ensured(manifest).Corrupt? || manifest.None? ==> index == map[]
    ensures manifest.Some? && manifest.value.Pairs? && DistinctKeys(manifest.value.entries) ==>
              forall e :: e in manifest.value.entries <==> e.0 in index && index[e.0] == e.1
  {
    match Ensured(manifest)
    case Corrupt => map[]
    case Pairs(entries) =>
      assert DistinctKeys(entries) ==> forall e :: e in entries <==> e.0 in MapOfPairs(entries) && MapOfPairs(entries)[e.0] == e.1 by {
        if DistinctKeys(entries) {
          MapOfDistinctPairs(entries);
        }
      }
      MapOfPairs(entries)
  }

  /** Flushing an index and loading the manifest back reproduces the index. */
  lemma FlushThenLoad(index: map<string, string>, entries: seq<(string, string)>)
    requires MapOfPairs(entries) == index
    ensures LoadIndex(Some(Pairs(entries))) == index
  {
  }
}
