/** The Go client's prompt cache: at most 500 entries, the oldest insertion evicted first. Times are reals. */
module PromptCache {
  import opened Basics

  const MAX_ENTRIES: nat := 500

  /** A prompt as deployed: here, just its version. */
  type Prompt = nat

  datatype Stored = Stored(prompt: Prompt, expires: real)

  // ----- the specification: entries, and their keys from the oldest insertion to the newest

  datatype Cache = Cache(entries: map<string, Stored>, recent: seq<string>)

  const EMPTY := Cache(map[], [])

  function Without(keys: seq<string>, key: string): seq<string> {
    if keys == [] then [] else (if keys[0] == key then [] else [keys[0]]) + Without(keys[1..], key)
  }

  function Moved(keys: seq<string>, key: string): seq<string> {
    Without(keys, key) + [key]
  }

  /** The newest keys, as many as the cache may hold. */
  function Newest(keys: seq<string>): (newest: seq<string>)
    ensures |newest| <= MAX_ENTRIES
  {
    if |keys| <= MAX_ENTRIES then keys else keys[|keys| - MAX_ENTRIES..]
  }

  function Restrict<V>(m: map<string, V>, keys: seq<string>): map<string, V> {
    map k | k in m && k in keys :: m[k]
  }

  function Put(c: Cache, key: string, s: Stored): Cache {
    var recent := Newest(Moved(c.recent, key));
    Cache(Restrict(c.entries[key := s], recent), recent)
  }

  lemma {:induction false} DistinctJoin(a: seq<string>, b: seq<string>)
    requires Distinct(a) && Distinct(b) && forall k | k in a :: k !in b
    ensures Distinct(a + b)
  {
    assert forall i | 0 <= i < |b| :: b[i] in b;
    assert forall i | 0 <= i < |a| :: a[i] in a;
  }

  lemma {:induction false} WithoutMeans(keys: seq<string>, key: string)
    ensures forall k :: k in Without(keys, key) <==> k in keys && k != key
    ensures Distinct(keys) ==> Distinct(Without(keys, key))
    ensures |Without(keys, key)| <= |keys|
  {
    if keys != [] {
      WithoutMeans(keys[1..], key);
      assert keys == [keys[0]] + keys[1..];
      if Distinct(keys) {
        assert keys[0] !in keys[1..];
        DistinctJoin(if keys[0] == key then [] else [keys[0]], Without(keys[1..], key));
      }
    }
  }

  lemma {:induction false} WithoutConcat(a: seq<string>, b: seq<string>, key: string)
    ensures Without(a + b, key) == Without(a, key) + Without(b, key)
  {
    if a == [] {
      assert a + b == b;
    } else {
      assert (a + b)[0] == a[0] && (a + b)[1..] == a[1..] + b;
      WithoutConcat(a[1..], b, key);
    }
  }

  lemma {:induction false} WithoutAbsent(keys: seq<string>, key: string)
    requires key !in keys
    ensures Without(keys, key) == keys
  {
    if keys != [] {
      WithoutAbsent(keys[1..], key);
      assert keys == [keys[0]] + keys[1..];
    }
  }

  lemma {:induction false} WithoutOne(keys: seq<string>, key: string)
    requires Distinct(keys) && key in keys
    ensures |Without(keys, key)| == |keys| - 1
  {
    if keys[0] == key {
      WithoutAbsent(keys[1..], key);
    } else {
      assert keys == [keys[0]] + keys[1..];
      WithoutOne(keys[1..], key);
    }
  }

  /** Distinct keys, as many as the set they form. */
  lemma {:induction false} SetSize(keys: seq<string>)
    requires Distinct(keys)
    ensures |set k | k in keys| == |keys|
  {
    if keys == [] {
      assert (set k | k in keys) == {};
    } else {
      SetSize(keys[1..]);
      assert keys == [keys[0]] + keys[1..];
      assert (set k | k in keys) == {keys[0]} + set k | k in keys[1..];
    }
  }

  // ----- which keys are held

  /** All keys ever inserted, ordered by their last insertion. */
  function Recency(inserted: seq<string>): seq<string> {
    if inserted == [] then [] else Moved(Recency(inserted[..|inserted| - 1]), inserted[|inserted| - 1])
  }

  /** The keys the cache lists after a sequence of insertions. */
  function Held(inserted: seq<string>): seq<string> {
    if inserted == [] then [] else Newest(Moved(Held(inserted[..|inserted| - 1]), inserted[|inserted| - 1]))
  }

  lemma {:induction false} RecencyIsDistinct(inserted: seq<string>)
    ensures Distinct(Recency(inserted))
    ensures forall k :: k in Recency(inserted) <==> k in inserted
  {
    if inserted != [] {
      var n := |inserted| - 1;
      RecencyIsDistinct(inserted[..n]);
      WithoutMeans(Recency(inserted[..n]), inserted[n]);
      DistinctJoin(Without(Recency(inserted[..n]), inserted[n]), [inserted[n]]);
      assert inserted == inserted[..n] + [inserted[n]];
    }
  }

  /** Moving within the newest keys is moving within all of them. */
  lemma {:induction false} NewestOfMoved(keys: seq<string>, key: string)
    requires Distinct(keys)
    ensures Newest(Moved(Newest(keys), key)) == Newest(Moved(keys, key))
  {
    if |keys| > MAX_ENTRIES {
      var cut := |keys| - MAX_ENTRIES;
      var older, newer := keys[..cut], keys[cut..];
      assert keys == older + newer;
      WithoutConcat(older, newer, key);
      if key in newer {
        assert key !in older;
        WithoutOne(newer, key);
        WithoutAbsent(older, key);
        assert Moved(keys, key) == older + Moved(newer, key);
      } else {
        WithoutAbsent(newer, key);
        assert Moved(keys, key) == Without(older, key) + Moved(newer, key);
      }
      NewestOfTail(Without(older, key), Moved(newer, key));
    }
  }

  lemma {:induction false} NewestOfTail(front: seq<string>, tail: seq<string>)
    requires |tail| >= MAX_ENTRIES
    ensures Newest(front + tail) == Newest(tail)
  {
  }

  /** After any insertions the cache holds exactly the most recently inserted keys, as many as fit. */
  lemma {:induction false} HeldAreTheNewest(inserted: seq<string>)
    ensures Held(inserted) == Newest(Recency(inserted))
  {
    if inserted != [] {
      var n := |inserted| - 1;
      HeldAreTheNewest(inserted[..n]);
      RecencyIsDistinct(inserted[..n]);
      NewestOfMoved(Recency(inserted[..n]), inserted[n]);
    }
  }

  /** The position of the last insertion of a key. */
  function LastInsertion(inserted: seq<string>, key: string): nat
    requires key in inserted
  {
    if inserted[|inserted| - 1] == key then |inserted| - 1 else LastInsertion(inserted[..|inserted| - 1], key)
  }

  /** `Recency` orders the keys by their last insertion. */
  lemma {:induction false} RecencyIsByLastInsertion(inserted: seq<string>, i: nat, j: nat)
    requires i < j < |Recency(inserted)|
    ensures Recency(inserted)[i] in inserted && Recency(inserted)[j] in inserted
    ensures LastInsertion(inserted, Recency(inserted)[i]) < LastInsertion(inserted, Recency(inserted)[j])
  {
    RecencyIsDistinct(inserted);
    var n := |inserted| - 1;
    var before, key := Recency(inserted[..n]), inserted[n];
    RecencyIsDistinct(inserted[..n]);
    var x, y := Recency(inserted)[i], Recency(inserted)[j];
    assert x in Recency(inserted) && y in Recency(inserted);
    WithoutMeans(before, key);
    if j == |Recency(inserted)| - 1 {
      assert y == key && x != key;
      assert x in inserted[..n] by {
        assert inserted == inserted[..n] + [key];
      }
      InsertionIsEarlier(inserted[..n], x);
    } else {
      var i', j' := WithoutKeepsOrder(before, key, i, j);
      RecencyIsByLastInsertion(inserted[..n], i', j');
      assert x != key && y != key;
    }
  }

  lemma {:induction false} InsertionIsEarlier(inserted: seq<string>, key: string)
    requires key in inserted
    ensures LastInsertion(inserted, key) < |inserted|
  {
    if inserted[|inserted| - 1] != key {
      InsertionIsEarlier(inserted[..|inserted| - 1], key);
    }
  }

  lemma {:induction false} WithoutKeepsOrder(keys: seq<string>, key: string, i: nat, j: nat) returns (i': nat, j': nat)
    requires i < j < |Without(keys, key)|
    ensures i' < j' < |keys| && keys[i'] == Without(keys, key)[i] && keys[j'] == Without(keys, key)[j]
  {
    var skip := if keys[0] == key then 0 else 1;
    if i < skip {
      j' := WithoutKeeps(keys[1..], key, j - skip);
      i', j' := 0, j' + 1;
    } else {
      i', j' := WithoutKeepsOrder(keys[1..], key, i - skip, j - skip);
      i', j' := i' + 1, j' + 1;
    }
  }

  lemma {:induction false} WithoutKeeps(keys: seq<string>, key: string, i: nat) returns (i': nat)
    requires i < |Without(keys, key)|
    ensures i' < |keys| && keys[i'] == Without(keys, key)[i]
  {
    var skip := if keys[0] == key then 0 else 1;
    if i < skip {
      i' := 0;
    } else {
      i' := WithoutKeeps(keys[1..], key, i - skip);
      i' := i' + 1;
    }
  }

  lemma {:induction false} WithoutAround(before: seq<string>, x: string, after: seq<string>, key: string)
    requires x != key
    ensures Without(before + [x] + after, key) == Without(before, key) + [x] + Without(after, key)
  {
    WithoutConcat(before + [x], after, key);
    WithoutConcat(before, [x], key);
    WithoutAbsent([x], key);
  }

  /** Around the last insertion of a key: what is newer in `recency` is what was inserted since. */
  lemma {:induction false} RecencyAround(inserted: seq<string>, j: nat) returns (older: seq<string>, newer: seq<string>)
    requires j < |inserted| && forall m | j < m < |inserted| :: inserted[m] != inserted[j]
    ensures Recency(inserted) == older + [inserted[j]] + newer
    ensures Distinct(newer) && inserted[j] !in newer
    ensures forall k :: k in newer <==> k in inserted[j + 1..]
    decreases |inserted|
  {
    var n, key := |inserted| - 1, inserted[|inserted| - 1];
    if j == n {
      older, newer := Without(Recency(inserted[..n]), key), [];
      assert older + [key] + [] == older + [key];
    } else {
      var x := inserted[j];
      var before, after := RecencyAround(inserted[..n], j);
      older, newer := Without(before, key), Without(after, key) + [key];
      WithoutAround(before, x, after, key);
      assert Recency(inserted) == (Without(before, key) + [x] + Without(after, key)) + [key];
      WithoutMeans(after, key);
      hide Without, Recency, Moved;
      DistinctJoin(Without(after, key), [key]);
      assert inserted[j + 1..] == inserted[..n][j + 1..] + [key];
      assert older + [x] + newer == (Without(before, key) + [x] + Without(after, key)) + [key];
    }
  }

  /** The different keys inserted after position `j`. */
  function KeysAfter(inserted: seq<string>, j: nat): set<string> {
    set m | j < m < |inserted| :: inserted[m]
  }

  /** A key is still held exactly when fewer other keys than the cache may hold were inserted since its last insertion. */
  lemma {:induction false} HeldIff(inserted: seq<string>, j: nat)
    requires j < |inserted| && forall m | j < m < |inserted| :: inserted[m] != inserted[j]
    ensures inserted[j] in Held(inserted) <==> |KeysAfter(inserted, j)| < 500
  {
    HeldAreTheNewest(inserted);
    RecencyIsDistinct(inserted);
    var older, newer := RecencyAround(inserted, j);
    SetSize(newer);
    assert KeysAfter(inserted, j) == set k | k in newer by {
      var rest := inserted[j + 1..];
      assert forall m | j < m < |inserted| :: inserted[m] == rest[m - j - 1];
      assert forall k :: k in rest <==> k in KeysAfter(inserted, j);
    }
    NewestOfSplit(older, inserted[j], newer);
  }

  lemma {:induction false} NewestOfSplit(older: seq<string>, key: string, newer: seq<string>)
    requires Distinct(older + [key] + newer)
    ensures key in Newest(older + [key] + newer) <==> |newer| < MAX_ENTRIES
  {
    var all := older + [key] + newer;
    var cut := |all| - MAX_ENTRIES;
    assert all[|older|] == key;
    if cut > 0 {
      var newest := all[cut..];
      if |older| >= cut {
        assert newest[|older| - cut] == key;
      } else {
        assert forall i | 0 <= i < |newest| :: newest[i] == all[cut + i] && newest[i] != key;
      }
    }
  }

  lemma {:induction false} HeldWereInserted(inserted: seq<string>, key: string)
    requires key in Held(inserted)
    ensures key in inserted
  {
    HeldAreTheNewest(inserted);
    RecencyIsDistinct(inserted);
  }

  // ----- the client's fields

  datatype Entry = Entry(prompt: Prompt, expires: real, inserted: nat)

  /** `recent` lists the keys of the cache by growing insertion number. */
  ghost predicate IsOrder(cache: map<string, Entry>, recent: seq<string>, inserts: nat) {
    && Distinct(recent)
    && (forall k :: k in cache <==> k in recent)
    && (forall i, j | 0 <= i < j < |recent| :: cache[recent[i]].inserted < cache[recent[j]].inserted)
    && (forall k | k in cache :: cache[k].inserted <= inserts)
  }

  function Contents(cache: map<string, Entry>): map<string, Stored> {
    map k | k in cache :: Stored(cache[k].prompt, cache[k].expires)
  }

  lemma {:induction false} OrderSize(cache: map<string, Entry>, recent: seq<string>, inserts: nat)
    requires IsOrder(cache, recent, inserts)
    ensures |cache| == |recent|
  {
    SetSize(recent);
    assert cache.Keys == set k | k in recent;
    assert |cache| == |cache.Keys|;
  }

  lemma {:induction false} OrderAfterInsert(cache: map<string, Entry>, recent: seq<string>, inserts: nat, key: string, e: Entry)
    requires IsOrder(cache, recent, inserts) && e.inserted == inserts + 1
    ensures IsOrder(cache[key := e], Moved(recent, key), inserts + 1)
  {
    var moved := Moved(recent, key);
    WithoutMeans(recent, key);
    forall i, j | 0 <= i < j < |moved|
      ensures moved[i] in cache[key := e] && moved[j] in cache[key := e]
      ensures cache[key := e][moved[i]].inserted < cache[key := e][moved[j]].inserted
    {
      assert moved[i] in moved && moved[j] in moved;
      if j < |moved| - 1 {
        var i', j' := WithoutKeepsOrder(recent, key, i, j);
      }
    }
  }

  lemma {:induction false} RestMeans(recent: seq<string>)
    requires Distinct(recent) && recent != []
    ensures Distinct(recent[1..])
    ensures forall k :: k in recent[1..] <==> k in recent && k != recent[0]
  {
    assert recent == [recent[0]] + recent[1..];
  }

  lemma {:induction false} OrderAfterEviction(cache: map<string, Entry>, recent: seq<string>, inserts: nat)
    requires IsOrder(cache, recent, inserts) && recent != []
    ensures IsOrder(cache - {recent[0]}, recent[1..], inserts)
  {
    RestMeans(recent);
    hide Distinct;
    var rest, kept := recent[1..], cache - {recent[0]};
    forall i, j | 0 <= i < j < |rest| ensures kept[rest[i]].inserted < kept[rest[j]].inserted {
      assert rest[i] in rest && rest[j] in rest;
      assert rest[i] == recent[i + 1] && rest[j] == recent[j + 1];
    }
  }

  /** The scan for the smallest insertion number, in whatever order the map is walked. */
  method FindOldest(cache: map<string, Entry>, ghost recent: seq<string>, ghost inserts: nat) returns (oldestKey: string)
    requires IsOrder(cache, recent, inserts) && recent != []
    ensures oldestKey == recent[0]
  {
    var oldest: int := -1;
    oldestKey := "";
    var todo := cache.Keys;
    while todo != {}
      invariant todo <= cache.Keys
      invariant oldest < 0 ==> todo == cache.Keys
      invariant oldest >= 0 ==> oldestKey in cache && cache[oldestKey].inserted == oldest
      invariant oldest >= 0 ==> forall k | k in cache && k !in todo :: oldest <= cache[k].inserted
      decreases |todo|
    {
      var k :| k in todo;
      if oldest < 0 || cache[k].inserted < oldest {
        oldestKey, oldest := k, cache[k].inserted;
      }
      todo := todo - {k};
    }
    assert recent[0] in cache;
    ghost var i :| 0 <= i < |recent| && recent[i] == oldestKey;
  }

  class PromptStore {
    var promptCache: map<string, Entry>
    var promptInserts: nat
    ghost var recent: seq<string>

    ghost predicate Valid()
      reads this
    {
      IsOrder(promptCache, recent, promptInserts) && |recent| <= MAX_ENTRIES
    }

    ghost function View(): Cache
      reads this
    {
      Cache(Contents(promptCache), recent)
    }

    constructor ()
      ensures Valid() && View() == EMPTY
    {
      promptCache, promptInserts, recent := map[], 0, [];
    }

    method Clear()
      modifies this
      ensures Valid() && View() == EMPTY
    {
      promptCache, recent := map[], [];
    }

    method Set(key: string, prompt: Prompt, now: real, ttl: real)
      requires Valid()
      modifies this
      ensures Valid() && |promptCache| <= 500 && key in promptCache
      ensures View() == Put(old(View()), key, Stored(prompt, now + ttl))
    {
      hide IsOrder, Moved, Newest, Put, Contents, Restrict;
      ghost var before, order := promptCache, recent;
      OrderAfterInsert(before, order, promptInserts, key, Entry(prompt, now + ttl, promptInserts + 1));
      promptInserts := promptInserts + 1;
      promptCache := promptCache[key := Entry(prompt, now + ttl, promptInserts)];
      ghost var full := promptCache;
      Evict(Moved(order, key));
      recent := Newest(Moved(order, key));
      OrderSize(promptCache, recent, promptInserts);
      KeptIsPut(full, promptCache, before, order, promptInserts, key);
    }

    /** Deletes oldest insertions while there are too many entries. */
    method Evict(ghost order: seq<string>)
      requires IsOrder(promptCache, order, promptInserts)
      modifies `promptCache
      ensures IsOrder(promptCache, Newest(order), promptInserts)
      ensures forall k | k in promptCache :: k in old(promptCache) && promptCache[k] == old(promptCache[k])
    {
      hide IsOrder, Newest;
      ghost var dropped := 0;
      OrderSize(promptCache, order, promptInserts);
      assert order[0..] == order;
      while |promptCache| > MAX_ENTRIES
        invariant 0 <= dropped <= |order| && (dropped > 0 ==> |order| - dropped >= MAX_ENTRIES)
        invariant IsOrder(promptCache, order[dropped..], promptInserts)
        invariant |promptCache| == |order| - dropped
        invariant forall k | k in promptCache :: k in old(promptCache) && promptCache[k] == old(promptCache[k])
        decreases |order| - dropped
      {
        ghost var left := order[dropped..];
        var oldestKey := FindOldest(promptCache, left, promptInserts);
        OrderAfterEviction(promptCache, left, promptInserts);
        promptCache := promptCache - {oldestKey};
        assert left[1..] == order[dropped + 1..];
        dropped := dropped + 1;
        OrderSize(promptCache, order[dropped..], promptInserts);
      }
      TrimmedIsNewest(order, dropped);
    }

    method Get(key: string) returns (e: Entry, found: bool)
      ensures found <==> key in View().entries
      ensures found ==> Stored(e.prompt, e.expires) == View().entries[key]
    {
      if key in promptCache {
        return promptCache[key], true;
      }
      return Entry(0, 0.0, 0), false;
    }
  }

  lemma {:induction false} LastIsNewest(recent: seq<string>, key: string)
    ensures key in Newest(Moved(recent, key))
  {
    var m := Moved(recent, key);
    var n := Newest(m);
    assert n[|n| - 1] == m[|m| - 1] == key;
  }

  lemma {:induction false} TrimmedIsNewest(order: seq<string>, dropped: nat)
    requires dropped <= |order| && |order| - dropped <= MAX_ENTRIES
    requires dropped > 0 ==> |order| - dropped >= MAX_ENTRIES
    ensures order[dropped..] == Newest(order)
  {
  }

  /** A cache with the new entry, cut to the newest keys, is the specified one. */
  lemma {:induction false} KeptIsPut(full: map<string, Entry>, kept: map<string, Entry>, before: map<string, Entry>,
                                     recent: seq<string>, inserts: nat, key: string)
    requires IsOrder(kept, Newest(Moved(recent, key)), inserts) && key in full
    requires full == before[key := full[key]]
    requires forall k | k in kept :: k in full && kept[k] == full[k]
    ensures Cache(Contents(kept), Newest(Moved(recent, key))) ==
            Put(Cache(Contents(before), recent), key, Stored(full[key].prompt, full[key].expires))
    ensures key in kept
  {
    var newest := Newest(Moved(recent, key));
    LastIsNewest(recent, key);
    hide Moved, Newest;
    assert forall k | k in newest :: k in kept && k in full;
    assert Contents(kept) == Restrict(Contents(before)[key := Stored(full[key].prompt, full[key].expires)], newest);
  }
}
