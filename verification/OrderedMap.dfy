/** An insertion-ordered map whose newest keys are kept: the least recently put goes first. */
module OrderedMap {
  import opened Options

  datatype Entry<K, V> = Entry(key: K, value: V)

  function Keys<K, V>(m: seq<Entry<K, V>>): (r: seq<K>)
    ensures |r| == |m| && forall i :: 0 <= i < |m| ==> r[i] == m[i].key
  {
    seq(|m|, i requires 0 <= i < |m| => m[i].key)
  }

  predicate Unique<K(==), V>(m: seq<Entry<K, V>>) {
    forall i, j :: 0 <= i < j < |m| ==> m[i].key != m[j].key
  }

  function Find<K(==), V>(m: seq<Entry<K, V>>, key: K): (r: Option<V>)
    ensures r.Some? <==> exists i :: 0 <= i < |m| && m[i].key == key
    ensures r.Some? ==> Entry(key, r.value) in m
  {
    if m == [] then None
    else if m[0].key == key then Some(m[0].value)
    else
      assert forall i :: 1 <= i < |m| ==> m[i] == m[1..][i - 1];
      Find(m[1..], key)
  }

  /** What is held for a key is found, wherever it stands. */
  lemma {:induction false} Found<K, V>(m: seq<Entry<K, V>>, i: nat)
    requires Unique(m) && i < |m|
    ensures Find(m, m[i].key) == Some(m[i].value)
  {
    if i > 0 { Found(m[1..], i - 1); }
  }

  function Without<K(==), V>(m: seq<Entry<K, V>>, key: K): (r: seq<Entry<K, V>>)
    ensures |r| <= |m|
    ensures forall e <- r :: e in m && e.key != key
    ensures forall e <- m :: e.key != key ==> e in r
  {
    if m == [] then []
    else (if m[0].key == key then [] else [m[0]]) + Without(m[1..], key)
  }

  /** The entries left when the oldest are dropped. */
  function Newest<T>(s: seq<T>, max: nat): seq<T> {
    if |s| > max then s[|s| - max..] else s
  }

  function Put<K(==), V>(m: seq<Entry<K, V>>, key: K, value: V, max: nat): seq<Entry<K, V>> {
    Newest(Without(m, key) + [Entry(key, value)], max)
  }

  method PutNewest<K(==), V>(m: seq<Entry<K, V>>, key: K, value: V, max: nat) returns (r: seq<Entry<K, V>>)
    ensures r == Put(m, key, value, max)
  {
    var all := Without(m, key) + [Entry(key, value)];
    r := all;
    while |r| > max
      invariant |r| <= |all| && r == all[|all| - |r|..]
      invariant |r| >= max || r == all
    {
      r := r[1..];
    }
  }

  // ---- what a put keeps ----

  lemma {:induction false} WithoutUnique<K, V>(m: seq<Entry<K, V>>, key: K)
    requires Unique(m)
    ensures Unique(Without(m, key))
  {
    if m != [] {
      var w := Without(m[1..], key);
      WithoutUnique(m[1..], key);
      forall e | e in w ensures e.key != m[0].key {
        var i :| 0 <= i < |m[1..]| && m[1..][i] == e;
        assert m[i + 1] == e;
      }
    }
  }

  lemma {:induction false} WithoutFind<K, V>(m: seq<Entry<K, V>>, key: K, other: K)
    requires other != key
    ensures Find(Without(m, key), other) == Find(m, other)
  {
    if m != [] {
      WithoutFind(m[1..], key, other);
      var w := Without(m[1..], key);
      assert m[0].key != key ==> ([m[0]] + w)[1..] == w;
      assert m[0].key == key ==> [] + w == w;
    }
  }

  lemma {:induction false} SnocFind<K, V>(m: seq<Entry<K, V>>, e: Entry<K, V>, key: K)
    requires forall x :: x in m ==> x.key != e.key
    ensures Find(m + [e], key) == if key == e.key then Some(e.value) else Find(m, key)
  {
    if m == [] {
      assert m + [e] == [e] && [e][1..] == [];
    } else {
      assert (m + [e])[1..] == m[1..] + [e];
      SnocFind(m[1..], e, key);
      assert m[0] in m;
    }
  }

  lemma NewestFind<K, V>(m: seq<Entry<K, V>>, max: nat, key: K)
    requires Unique(m)
    ensures Unique(Newest(m, max)) && |Newest(m, max)| <= max
    ensures Find(Newest(m, max), key) in {Find(m, key), None}
  {
    hide Find;
    var r := Newest(m, max);
    var d := |m| - |r|;
    assert forall i :: 0 <= i < |r| ==> r[i] == m[d + i];
    if Find(r, key).Some? {
      var i :| 0 <= i < |r| && r[i].key == key;
      Found(r, i);
      Found(m, d + i);
    }
  }

  lemma NewestLast<K, V>(m: seq<Entry<K, V>>, max: nat)
    requires Unique(m) && m != [] && max > 0
    ensures Find(Newest(m, max), m[|m| - 1].key) == Some(m[|m| - 1].value)
  {
    hide Find;
    NewestFind(m, max, m[|m| - 1].key);
    Found(Newest(m, max), |Newest(m, max)| - 1);
  }

  lemma SnocUnique<K, V>(m: seq<Entry<K, V>>, key: K, value: V)
    requires Unique(m)
    ensures Unique(Without(m, key) + [Entry(key, value)])
  {
    hide Without;
    WithoutUnique(m, key);
  }

  /** After a put: the key holds its value, and every other key what it held or nothing; nothing is
      held that was not. */
  lemma PutFind<K, V>(m: seq<Entry<K, V>>, key: K, value: V, max: nat, other: K)
    requires Unique(m) && max > 0
    ensures Unique(Put(m, key, value, max)) && |Put(m, key, value, max)| <= max
    ensures Find(Put(m, key, value, max), key) == Some(value)
    ensures other != key ==> Find(Put(m, key, value, max), other) in {Find(m, other), None}
  {
    hide Find, Without, Newest, Unique;
    var all := Without(m, key) + [Entry(key, value)];
    SnocUnique(m, key, value);
    NewestFind(all, max, other);
    NewestLast(all, max);
    if other != key {
      SnocFind(Without(m, key), Entry(key, value), other);
      WithoutFind(m, key, other);
    }
  }

  lemma PutFrom<K, V>(m: seq<Entry<K, V>>, key: K, v: V, max: nat)
    ensures forall e <- Put(m, key, v, max) :: e == Entry(key, v) || (e in m && e.key != key)
  {
  }

  // ---- least recently used goes first ----

  function WithoutKey<K(==)>(ks: seq<K>, key: K): seq<K> {
    if ks == [] then [] else (if ks[0] == key then [] else [ks[0]]) + WithoutKey(ks[1..], key)
  }

  /** The distinct keys of a history, by when each was last put. */
  function Recency<K(==)>(history: seq<K>): seq<K> {
    if history == [] then []
    else WithoutKey(Recency(history[..|history| - 1]), history[|history| - 1]) + [history[|history| - 1]]
  }

  function PutAll<K(==), V>(history: seq<Entry<K, V>>, max: nat): seq<Entry<K, V>> {
    if history == [] then []
    else
      var e := history[|history| - 1];
      Put(PutAll(history[..|history| - 1], max), e.key, e.value, max)
  }

  lemma {:induction false} WithoutKeyOf<K, V>(m: seq<Entry<K, V>>, key: K)
    ensures Keys(Without(m, key)) == WithoutKey(Keys(m), key)
  {
    if m != [] {
      assert Keys(m)[1..] == Keys(m[1..]);
      WithoutKeyOf(m[1..], key);
    }
  }

  lemma {:induction false} WithoutKeySplit<K>(a: seq<K>, b: seq<K>, key: K)
    ensures WithoutKey(a + b, key) == WithoutKey(a, key) + WithoutKey(b, key)
  {
    if a == [] {
      assert a + b == b;
    } else {
      assert (a + b)[1..] == a[1..] + b;
      WithoutKeySplit(a[1..], b, key);
    }
  }

  predicate NoRepeat<K(==)>(ks: seq<K>) {
    forall i, j :: 0 <= i < j < |ks| ==> ks[i] != ks[j]
  }

  /** A key that does not repeat takes at most one place. */
  lemma {:induction false} WithoutKeyLength<K>(ks: seq<K>, key: K)
    requires NoRepeat(ks)
    ensures |WithoutKey(ks, key)| == |ks| - (if key in ks then 1 else 0)
    ensures NoRepeat(WithoutKey(ks, key))
    ensures forall x :: x in WithoutKey(ks, key) <==> x in ks && x != key
  {
    if ks != [] {
      WithoutKeyLength(ks[1..], key);
      assert forall x :: x in ks <==> x == ks[0] || x in ks[1..];
      assert ks[0] !in ks[1..];
    }
  }

  lemma {:induction false} RecencyNoRepeat<K>(history: seq<K>)
    ensures NoRepeat(Recency(history))
    ensures forall x :: x in Recency(history) <==> x in history
  {
    if history != [] {
      var init, k := history[..|history| - 1], history[|history| - 1];
      RecencyNoRepeat(init);
      WithoutKeyLength(Recency(init), k);
      assert history == init + [k];
    }
  }

  /** Dropping the oldest before or after a put leaves the same newest. */
  lemma NewestAfter<K>(ks: seq<K>, key: K, max: nat)
    requires NoRepeat(ks) && max > 0
    ensures Newest(WithoutKey(Newest(ks, max), key) + [key], max) == Newest(WithoutKey(ks, key) + [key], max)
  {
    if |ks| > max {
      var d := |ks| - max;
      var gone, rest := ks[..d], ks[d..];
      assert ks == gone + rest;
      WithoutKeySplit(gone, rest, key);
      var kept := WithoutKey(rest, key);
      WithoutKeyLength(rest, key);
      WithoutKeyLength(gone, key);
      assert key in rest ==> key !in gone;
      var a, b := WithoutKey(gone, key), kept + [key];
      assert WithoutKey(ks, key) + [key] == a + b;
      NewestDrop(a, b, max);
    }
  }

  lemma NewestDrop<K>(a: seq<K>, b: seq<K>, max: nat)
    requires |b| >= max || a == []
    ensures Newest(a + b, max) == Newest(b, max)
  {
    assert a == [] ==> a + b == b;
  }

  /** After any puts the keys held are the `max` put most recently, oldest first. */
  lemma {:induction false} HoldsTheMostRecent<K, V>(history: seq<Entry<K, V>>, max: nat)
    requires max > 0
    ensures Keys(PutAll(history, max)) == Newest(Recency(Keys(history)), max)
  {
    hide Without, WithoutKey;
    if history != [] {
      var init, e := history[..|history| - 1], history[|history| - 1];
      HoldsTheMostRecent(init, max);
      assert Keys(history)[..|history| - 1] == Keys(init);
      RecencyNoRepeat(Keys(init));
      NewestAfter(Recency(Keys(init)), e.key, max);
      WithoutKeyOf(PutAll(init, max), e.key);
      KeysOfNewest(Without(PutAll(init, max), e.key) + [e], max);
      assert Keys(Without(PutAll(init, max), e.key) + [e])
          == WithoutKey(Newest(Recency(Keys(init)), max), e.key) + [e.key];
    }
  }

  lemma KeysOfNewest<K, V>(m: seq<Entry<K, V>>, max: nat)
    ensures Keys(Newest(m, max)) == Newest(Keys(m), max)
  {
  }
}
