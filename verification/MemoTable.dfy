/** The memo table, proved to behave as a set. */
module MemoTable {
  import opened Wrappers
  import opened Search
  import Bitset

  datatype CacheEntry<!S> = CacheEntry(linearized: array<bv64>, state: S)

  /** A hash as a map key. */
  datatype Key = Key(hash: bv64)

  type Cache<!S> = map<Key, seq<CacheEntry<S>>>

  /** The words of the bitsets in the table, as they were when they were inserted. */
  type Words = map<array<bv64>, seq<bv64>>

  /** No bitset in the table has changed since it was inserted. */
  ghost predicate Frozen(bits: Words)
    reads bits.Keys
  {
    forall a :: a in bits ==> a[..] == bits[a]
  }

  /** The configuration a cache entry stands for. */
  ghost function ConfigOf<S>(e: CacheEntry<S>, words: seq<bv64>): (c: Config<S>) {
    Config(Bitset.Elements(words), Some(e.state))
  }

  /** The entry stands in the bucket of its hash, and stands for a member of `seen`. */
  ghost predicate Filed<S>(key: Key, e: CacheEntry<S>, bits: Words, seen: set<Config<S>>, size: nat) {
    && e.linearized in bits
    && |bits[e.linearized]| == size
    && key == Key(Bitset.HashOf(bits[e.linearized]))
    && ConfigOf(e, bits[e.linearized]) in seen
  }

  /** Entry `i` of bucket `key` stands for `c`. */
  ghost predicate StoredAt<S>(cache: Cache<S>, bits: Words, c: Config<S>, key: Key, i: int) {
    && key in cache && 0 <= i < |cache[key]|
    && cache[key][i].linearized in bits
    && ConfigOf(cache[key][i], bits[cache[key][i].linearized]) == c
  }

  ghost predicate Stored<S>(cache: Cache<S>, bits: Words, c: Config<S>) {
    exists key, i :: StoredAt(cache, bits, c, key, i)
  }

  /** The table holds exactly the configurations `seen`. */
  ghost predicate Represents<S>(cache: Cache<S>, bits: Words, seen: set<Config<S>>, size: nat) {
    && (forall key, i {:trigger cache[key][i]} :: key in cache && 0 <= i < |cache[key]| ==>
          Filed(key, cache[key][i], bits, seen, size))
    && (forall c :: c in seen ==> Stored(cache, bits, c))
  }

  /** `cacheContains`: the answer is membership; no hash collision and no representation can fool it. */
  method CacheContains<S(==)>(cache: Cache<S>, entry: CacheEntry<S>, ghost bits: Words, ghost seen: set<Config<S>>)
    returns (found: bool)
    requires Represents(cache, bits, seen, entry.linearized.Length) && Frozen(bits)
    ensures found <==> ConfigOf(entry, entry.linearized[..]) in seen
  {
    var word := Bitset.Hash(entry.linearized);
    var hash := Key(word);
    ghost var words := entry.linearized[..];
    if hash in cache {
      var bucket := cache[hash];
      for i := 0 to |bucket|
        invariant forall j :: 0 <= j < i ==> !StoredAt(cache, bits, ConfigOf(entry, words), hash, j)
      {
        assert Filed(hash, cache[hash][i], bits, seen, |words|);
        var same := Bitset.Equals(entry.linearized, bucket[i].linearized);
        if same && entry.state == bucket[i].state {
          return true;
        }
      }
    }
    NotStored(cache, entry, words, bits, seen, hash);
    return false;
  }

  /** A configuration that its own bucket does not hold is nowhere in the table. */
  lemma NotStored<S>(cache: Cache<S>, entry: CacheEntry<S>, words: seq<bv64>, bits: Words, seen: set<Config<S>>,
                     hash: Key)
    requires Represents(cache, bits, seen, |words|)
    requires hash == Key(Bitset.HashOf(words))
    requires hash in cache ==>
               forall j :: 0 <= j < |cache[hash]| ==> !StoredAt(cache, bits, ConfigOf(entry, words), hash, j)
    ensures ConfigOf(entry, words) !in seen
  {
    if ConfigOf(entry, words) in seen {
      assert Stored(cache, bits, ConfigOf(entry, words));
      var key, i :| StoredAt(cache, bits, ConfigOf(entry, words), key, i);
      assert Filed(key, cache[key][i], bits, seen, |words|);
      Bitset.Canonical(words, bits[cache[key][i].linearized]);
    }
  }

  /** Appending an entry to the bucket of its hash adds its configuration. */
  method Insert<S>(cache: Cache<S>, entry: CacheEntry<S>, ghost bits: Words, ghost seen: set<Config<S>>)
    returns (cache': Cache<S>)
    requires Represents(cache, bits, seen, entry.linearized.Length)
    requires entry.linearized !in bits
    ensures var words := entry.linearized[..];
            Represents(cache', bits[entry.linearized := words], seen + {ConfigOf(entry, words)},
                entry.linearized.Length)
  {
    var word := Bitset.Hash(entry.linearized);
    var hash := Key(word);
    var bucket := if hash in cache then cache[hash] else [];
    cache' := cache[hash := bucket + [entry]];
    InsertRepresents(cache, cache', entry, entry.linearized[..], hash, bucket, bits, seen);
  }

  lemma InsertRepresents<S>(cache: Cache<S>, cache': Cache<S>, entry: CacheEntry<S>, words: seq<bv64>, hash: Key,
                            bucket: seq<CacheEntry<S>>, bits: Words, seen: set<Config<S>>)
    requires Represents(cache, bits, seen, |words|)
    requires entry.linearized !in bits
    requires hash == Key(Bitset.HashOf(words))
    requires bucket == if hash in cache then cache[hash] else []
    requires cache' == cache[hash := bucket + [entry]]
    ensures Represents(cache', bits[entry.linearized := words], seen + {ConfigOf(entry, words)}, |words|)
  {
    var bits', seen' := bits[entry.linearized := words], seen + {ConfigOf(entry, words)};
    assert cache'[hash][|bucket|] == entry;
    forall key, i | key in cache' && 0 <= i < |cache'[key]| ensures Filed(key, cache'[key][i], bits', seen', |words|) {
      if key != hash || i < |bucket| {
        assert cache'[key][i] == cache[key][i];
        assert Filed(key, cache[key][i], bits, seen, |words|);
      }
    }
    forall c | c in seen' ensures Stored(cache', bits', c) {
      if c in seen {
        assert Stored(cache, bits, c);
        var key, i :| StoredAt(cache, bits, c, key, i);
        assert cache'[key][i] == cache[key][i];
        assert StoredAt(cache', bits', c, key, i);
      } else {
        assert StoredAt(cache', bits', c, hash, |bucket|);
      }
    }
  }
}
