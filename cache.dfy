/**
 * The memo of computed fingerings per instrument and chord symbol
 * (js/chord-logic.js:258-274).
 */
module Cache {
  import opened Fingerings

  /** A cache entry is named by its instrument key and its chord symbol. */
  datatype CacheKey = CacheKey(instrument: string, symbol: string)

  /** The string under which the source stores an entry. */
  function JoinedKey(key: CacheKey): string
  {
    key.instrument + "|" + key.symbol
  }

  /** In a joined key the first separator comes right after the instrument. */
  lemma SeparatorAt(instrument: string, rest: string)
    requires '|' !in instrument
    ensures (instrument + "|" + rest)[|instrument|] == '|'
    ensures forall j :: 0 <= j < |instrument| ==> (instrument + "|" + rest)[j] != '|'
  {
    var s := instrument + "|" + rest;
    forall j | 0 <= j < |instrument|
      ensures s[j] != '|'
    {
      assert s[j] == instrument[j];
    }
  }

  /** Two entries with the same string key are the same entry when instrument keys hold no separator. */
  lemma JoinedKeyInjective(a: CacheKey, b: CacheKey)
    requires '|' !in a.instrument && '|' !in b.instrument
    requires JoinedKey(a) == JoinedKey(b)
    ensures a == b
  {
    var s := JoinedKey(a);
    SeparatorAt(a.instrument, a.symbol);
    SeparatorAt(b.instrument, b.symbol);
    var n := |a.instrument|;
    assert n == |b.instrument|;
    assert a.instrument == s[..n] == b.instrument;
    assert a.symbol == s[n + 1..] == b.symbol;
  }

  predicate StartsWith(s: string, prefix: string)
  {
    |prefix| <= |s| && s[..|prefix|] == prefix
  }

  /** The prefix test of clearInstrumentCache selects exactly the entries of that instrument. */
  lemma PrefixMeansInstrument(key: CacheKey, k: string)
    requires '|' !in key.instrument && '|' !in k
    ensures StartsWith(JoinedKey(key), k + "|") <==> key.instrument == k
  {
    var s, p := JoinedKey(key), k + "|";
    var n := |key.instrument|;
    SeparatorAt(key.instrument, key.symbol);
    SeparatorAt(k, "");
    assert k + "|" + "" == p;
    if key.instrument == k {
      assert s[..|p|] == p;
    }
    if StartsWith(s, p) {
      assert forall j :: 0 <= j < |p| ==> s[j] == p[j];
      assert n == |k|;
      assert key.instrument == s[..n] == p[..n] == k;
    }
  }

  /** getCachedFingerings on a map: the stored list, or the empty list. */
  function Stored(m: map<CacheKey, seq<Fingering>>, key: CacheKey): seq<Fingering>
  {
    if key in m then m[key] else []
  }

  /** The map once every entry of instrument `k` is deleted. */
  function Cleared(m: map<CacheKey, seq<Fingering>>, k: string): map<CacheKey, seq<Fingering>>
  {
    map key | key in m && key.instrument != k :: m[key]
  }

  /** A lookup returns what the last store for that key put, and a store leaves other keys alone. */
  lemma StoreThenLookup(m: map<CacheKey, seq<Fingering>>, key: CacheKey, fs: seq<Fingering>, other: CacheKey)
    ensures Stored(m[key := fs], key) == fs
    ensures other != key ==> Stored(m[key := fs], other) == Stored(m, other)
  {
  }

  /** After clearing instrument `k`, its entries read as empty and all other entries are unchanged. */
  lemma ClearThenLookup(m: map<CacheKey, seq<Fingering>>, k: string, key: CacheKey)
    ensures key.instrument == k ==> key !in Cleared(m, k) && Stored(Cleared(m, k), key) == []
    ensures key.instrument != k ==> (key in Cleared(m, k) <==> key in m) && Stored(Cleared(m, k), key) == Stored(m, key)
  {
  }

  class FingeringCache {
    var entries: map<CacheKey, seq<Fingering>>

    constructor()
      ensures entries == map[]
    {
      entries := map[];
    }

    /** cacheFingerings */
    method Store(instrument: string, symbol: string, fs: seq<Fingering>)
      modifies this
      ensures entries == old(entries)[CacheKey(instrument, symbol) := fs]
    {
      entries := entries[CacheKey(instrument, symbol) := fs];
    }

    /** getCachedFingerings */
    method Lookup(instrument: string, symbol: string) returns (r: seq<Fingering>)
      ensures r == Stored(entries, CacheKey(instrument, symbol))
    {
      var key := CacheKey(instrument, symbol);
      if key in entries {
        r := entries[key];
      } else {
        r := [];
      }
    }

    /** clearInstrumentCache: visit every key and delete those of instrument `k`. */
    method ClearInstrument(k: string)
      modifies this
      ensures entries == Cleared(old(entries), k)
    {
      ghost var start := entries;
      var pending := entries.Keys;
      while pending != {}
        invariant pending <= start.Keys
        invariant entries == map key | key in start && (key in pending || key.instrument != k) :: start[key]
        decreases |pending|
      {
        var key :| key in pending;
        if key.instrument == k {
          entries := entries - {key};
        }
        pending := pending - {key};
      }
    }
  }
}
