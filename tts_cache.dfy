/**
 * The bounded text-to-speech cache of the voice engine, seen through the
 * insertion order of its keys (Python dictionaries keep insertion order).
 * A newly generated clip is appended; when the cache then holds more than
 * `MaxEntries` clips, the `EvictBatch` oldest keys are deleted.
 */
module TtsCache {

  /**
   * The cache key. The source uses the string `f"{voice_id}:{hash(text)}"`;
   * here it is the pair itself, so distinct requests never share a key.
   */
  datatype CacheKey = CacheKey(voiceId: string, text: string)

  const MaxEntries: nat := 50
  const EvictBatch: nat := 10

  predicate Distinct(keys: seq<CacheKey>) {
    forall i, j :: 0 <= i < j < |keys| ==> keys[i] != keys[j]
  }

  /** The order after `del cache[key]`. */
  function RemoveKey(keys: seq<CacheKey>, key: CacheKey): (r: seq<CacheKey>)
    ensures forall k :: k in r <==> k in keys && k != key
  {
    if keys == [] then []
    else (if keys[0] == key then [] else [keys[0]]) + RemoveKey(keys[1..], key)
  }

  lemma {:induction false} RemoveAbsent(keys: seq<CacheKey>, key: CacheKey)
    requires key !in keys
    ensures RemoveKey(keys, key) == keys
  {
    if keys != [] {
      RemoveAbsent(keys[1..], key);
      assert keys == [keys[0]] + keys[1..];
    }
  }

  /** Deleting the oldest key of a duplicate-free order drops the first element. */
  lemma RemoveOldest(keys: seq<CacheKey>)
    requires keys != [] && Distinct(keys)
    ensures RemoveKey(keys, keys[0]) == keys[1..]
  {
    assert keys[0] !in keys[1..] by {
      forall j | 0 <= j < |keys[1..]| ensures keys[1..][j] != keys[0] {
        assert keys[1..][j] == keys[j + 1];
      }
    }
    RemoveAbsent(keys[1..], keys[0]);
  }

  /** The insertion order after caching a clip under a key not yet cached. */
  function AfterInsert(keys: seq<CacheKey>, key: CacheKey): seq<CacheKey> {
    var grown := keys + [key];
    if |grown| > MaxEntries then grown[EvictBatch..] else grown
  }

  /**
   * Inserting keeps the cache within `MaxEntries` clips, keeps the new clip,
   * evicts nothing but the oldest keys and keeps the survivors' relative
   * order (the new order is a suffix of the old order followed by the key).
   */
  lemma InsertBounded(keys: seq<CacheKey>, key: CacheKey)
    requires |keys| <= MaxEntries
    ensures var r := AfterInsert(keys, key);
      && |r| <= MaxEntries
      && r != [] && r[|r| - 1] == key
      && (|keys| < MaxEntries ==> r == keys + [key])
      && (|keys| == MaxEntries ==> r == keys[EvictBatch..] + [key])
  {
    var grown := keys + [key];
    if |grown| > MaxEntries {
      assert grown[EvictBatch..] == keys[EvictBatch..] + [key];
    }
  }

  /** Inserting a key not yet cached into a duplicate-free order keeps it duplicate-free. */
  lemma InsertDistinct(keys: seq<CacheKey>, key: CacheKey)
    requires Distinct(keys) && key !in keys
    ensures Distinct(keys + [key])
    ensures Distinct(AfterInsert(keys, key))
    ensures forall k :: k in AfterInsert(keys, key) ==> k in keys || k == key
  {
    var grown := keys + [key];
    assert Distinct(grown) by {
      forall i, j | 0 <= i < j < |grown| ensures grown[i] != grown[j] {
        if j == |keys| { assert grown[i] == keys[i]; }
      }
    }
    if |grown| > MaxEntries {
      var r := grown[EvictBatch..];
      forall i, j | 0 <= i < j < |r| ensures r[i] != r[j] {
        assert r[i] == grown[i + EvictBatch] && r[j] == grown[j + EvictBatch];
      }
      forall k | k in r ensures k in grown {
        var i :| 0 <= i < |r| && r[i] == k;
        assert grown[i + EvictBatch] == k;
      }
    }
  }

  /** The order after caching `keys` one after the other, each a miss. */
  function InsertAll(order: seq<CacheKey>, keys: seq<CacheKey>): seq<CacheKey> {
    if keys == [] then order
    else AfterInsert(InsertAll(order, keys[..|keys| - 1]), keys[|keys| - 1])
  }

  /** However many clips are generated, the cache never holds more than `MaxEntries`. */
  lemma {:induction false} InsertAllBounded(order: seq<CacheKey>, keys: seq<CacheKey>)
    requires |order| <= MaxEntries
    ensures |InsertAll(order, keys)| <= MaxEntries
    ensures keys != [] ==> InsertAll(order, keys)[|InsertAll(order, keys)| - 1] == keys[|keys| - 1]
  {
    if keys != [] {
      InsertAllBounded(order, keys[..|keys| - 1]);
      InsertBounded(InsertAll(order, keys[..|keys| - 1]), keys[|keys| - 1]);
    }
  }
}
