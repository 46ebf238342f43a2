/** `std::map<std::string, V>` as a sorted association list.  Iteration over a
    `std::map` visits keys in ascending `std::string` order; keeping the
    entries in a sequence makes that order part of the model. */
module OrderedMaps {
  import opened Strings

  /** Lexicographic order on strings, character by character, a proper
      prefix first (as `std::string::compare`). */
  predicate Less(a: string, b: string) {
    if a == [] then b != []
    else if b == [] then false
    else a[0] < b[0] || (a[0] == b[0] && Less(a[1..], b[1..]))
  }

  lemma {:induction false} LessIrreflexive(a: string)
    ensures !Less(a, a)
  {
    if a != [] { LessIrreflexive(a[1..]); }
  }

  lemma {:induction false} LessTransitive(a: string, b: string, c: string)
    requires Less(a, b) && Less(b, c)
    ensures Less(a, c)
  {
    if a != [] && b != [] && c != [] && a[0] == b[0] && b[0] == c[0] {
      LessTransitive(a[1..], b[1..], c[1..]);
    }
  }

  lemma {:induction false} LessTotal(a: string, b: string)
    requires a != b
    ensures Less(a, b) || Less(b, a)
  {
    if a != [] && b != [] && a[0] == b[0] {
      assert a == [a[0]] + a[1..] && b == [b[0]] + b[1..];
      LessTotal(a[1..], b[1..]);
    }
  }

  type Entry<V> = (string, V)

  /** Keys strictly ascending: the iteration order of `std::map`. */
  predicate Sorted<V>(m: seq<Entry<V>>) {
    forall i, j :: 0 <= i < j < |m| ==> Less(m[i].0, m[j].0)
  }

  function Keys<V>(m: seq<Entry<V>>): (ks: set<string>)
    ensures forall i :: 0 <= i < |m| ==> m[i].0 in ks
    ensures forall k :: k in ks ==> exists i :: 0 <= i < |m| && m[i].0 == k
  {
    if m == [] then {} else {m[0].0} + Keys(m[1..])
  }

  /** `find`: the value of the first entry with key `k`. */
  function Get<V>(m: seq<Entry<V>>, k: string): (r: Option<V>)
    ensures r.Some? <==> k in Keys(m)
  {
    if m == [] then None
    else if m[0].0 == k then Some(m[0].1)
    else Get(m[1..], k)
  }

  /** `m[k] = v`: overwrite the entry for `k`, or insert it in key order. */
  function Put<V>(m: seq<Entry<V>>, k: string, v: V): (r: seq<Entry<V>>)
    ensures Keys(r) == Keys(m) + {k}
    ensures Get(r, k) == Some(v)
    ensures forall k' :: k' != k ==> Get(r, k') == Get(m, k')
  {
    if m == [] then [(k, v)]
    else if m[0].0 == k then [(k, v)] + m[1..]
    else if Less(k, m[0].0) then [(k, v)] + m
    else [m[0]] + Put(m[1..], k, v)
  }

  lemma {:induction false} PutSorted<V>(m: seq<Entry<V>>, k: string, v: V)
    requires Sorted(m)
    ensures Sorted(Put(m, k, v))
  {
    if m == [] {
    } else if m[0].0 == k {
      SortedTail(m);
      ConsSorted((k, v), m[1..]);
    } else if Less(k, m[0].0) {
      forall j | 0 <= j < |m| ensures Less(k, m[j].0) {
        if j > 0 { LessTransitive(k, m[0].0, m[j].0); }
      }
      ConsSorted((k, v), m);
    } else {
      LessTotal(k, m[0].0);
      SortedTail(m);
      PutSorted(m[1..], k, v);
      PutAbove(m[1..], k, v, m[0].0);
      ConsSorted(m[0], Put(m[1..], k, v));
    }
  }

  /** The first key of a sorted map is below the rest, which stay sorted. */
  lemma SortedTail<V>(m: seq<Entry<V>>)
    requires Sorted(m) && m != []
    ensures Sorted(m[1..])
    ensures forall j :: 0 <= j < |m[1..]| ==> Less(m[0].0, m[1..][j].0)
  {
  }

  /** A key below every key of a map and below `k` stays below every key
      once `k` is put. */
  lemma PutAbove<V>(m: seq<Entry<V>>, k: string, v: V, a: string)
    requires forall i :: 0 <= i < |m| ==> Less(a, m[i].0)
    requires Less(a, k)
    ensures forall j :: 0 <= j < |Put(m, k, v)| ==> Less(a, Put(m, k, v)[j].0)
  {
    var r := Put(m, k, v);
    forall j | 0 <= j < |r| ensures Less(a, r[j].0) {
      var kj := r[j].0;
      assert kj in Keys(r);
      if kj != k {
        var t :| 0 <= t < |m| && m[t].0 == kj;
      }
    }
  }

  lemma ConsSorted<V>(e: Entry<V>, tail: seq<Entry<V>>)
    requires Sorted(tail)
    requires forall j :: 0 <= j < |tail| ==> Less(e.0, tail[j].0)
    ensures Sorted([e] + tail)
  {
    var r := [e] + tail;
    forall i, j | 0 <= i < j < |r| ensures Less(r[i].0, r[j].0) {
      assert r[j] == tail[j - 1];
      if i > 0 { assert r[i] == tail[i - 1]; }
    }
  }

  /** In a sorted map the entry at position `i` is the one `Get` finds. */
  lemma {:induction false} GetAt<V>(m: seq<Entry<V>>, i: nat)
    requires Sorted(m) && i < |m|
    ensures Get(m, m[i].0) == Some(m[i].1)
    decreases i
  {
    if i > 0 {
      LessIrreflexive(m[i].0);
      assert m[0].0 != m[i].0;
      GetAt(m[1..], i - 1);
    }
  }

  /** A key that `Get` finds sits at some position. */
  lemma KeyIndex<V>(m: seq<Entry<V>>, k: string) returns (i: nat)
    requires Get(m, k).Some?
    ensures i < |m| && m[i].0 == k
  {
    i :| 0 <= i < |m| && m[i].0 == k;
  }

  /** Sequential overwrites `m[k1] = v1; m[k2] = v2; ...`. */
  function PutAll<V>(m: seq<Entry<V>>, kvs: seq<Entry<V>>): seq<Entry<V>>
    decreases |kvs|
  {
    if kvs == [] then m else PutAll(Put(m, kvs[0].0, kvs[0].1), kvs[1..])
  }

  lemma {:induction false} PutAllSorted<V>(m: seq<Entry<V>>, kvs: seq<Entry<V>>)
    requires Sorted(m)
    ensures Sorted(PutAll(m, kvs))
    decreases |kvs|
  {
    if kvs != [] {
      PutSorted(m, kvs[0].0, kvs[0].1);
      PutAllSorted(Put(m, kvs[0].0, kvs[0].1), kvs[1..]);
    }
  }

  /** One more overwrite at the end of a series is one more `Put`. */
  lemma {:induction false} PutAllSnoc<V>(m: seq<Entry<V>>, kvs: seq<Entry<V>>, k: string, v: V)
    ensures PutAll(m, kvs + [(k, v)]) == Put(PutAll(m, kvs), k, v)
    decreases |kvs|
  {
    if kvs == [] {
      assert kvs + [(k, v)] == [(k, v)];
    } else {
      assert (kvs + [(k, v)])[1..] == kvs[1..] + [(k, v)];
      PutAllSnoc(Put(m, kvs[0].0, kvs[0].1), kvs[1..], k, v);
    }
  }

  /** Value of the last pair with key `k`, if any. */
  function LastValue<V>(kvs: seq<Entry<V>>, k: string): Option<V> {
    if kvs == [] then None
    else if kvs[|kvs| - 1].0 == k then Some(kvs[|kvs| - 1].1)
    else LastValue(kvs[..|kvs| - 1], k)
  }

  /** After a series of overwrites, a key holds the value of its last write;
      a key never written keeps its old value. */
  lemma {:induction false} PutAllLastWins<V>(m: seq<Entry<V>>, kvs: seq<Entry<V>>, k: string)
    ensures Get(PutAll(m, kvs), k) ==
              match LastValue(kvs, k) case Some(v) => Some(v) case None => Get(m, k)
    decreases |kvs|
  {
    if kvs != [] {
      PutAllLastWins(Put(m, kvs[0].0, kvs[0].1), kvs[1..], k);
      LastValueCons(kvs, k);
    }
  }

  lemma {:induction false} LastValueCons<V>(kvs: seq<Entry<V>>, k: string)
    requires kvs != []
    ensures LastValue(kvs, k) ==
              match LastValue(kvs[1..], k)
              case Some(v) => Some(v)
              case None => if kvs[0].0 == k then Some(kvs[0].1) else None
    decreases |kvs|
  {
    if |kvs| > 1 {
      var n := |kvs|;
      assert kvs[1..][..n - 2] == kvs[..n - 1][1..];
      if kvs[n - 1].0 != k {
        LastValueCons(kvs[..n - 1], k);
      }
    }
  }

  /** The last write of `k` in `a + b` is the last one in `b`, if `b` has one. */
  lemma {:induction false} LastValueAppend<V>(a: seq<Entry<V>>, b: seq<Entry<V>>, k: string)
    ensures LastValue(a + b, k) == match LastValue(b, k) case Some(v) => Some(v) case None => LastValue(a, k)
    decreases |b|
  {
    if b != [] {
      assert (a + b)[..|a + b| - 1] == a + b[..|b| - 1];
      LastValueAppend(a, b[..|b| - 1], k);
    } else {
      assert a + b == a;
    }
  }

  /** `std::set<std::string>`: strictly ascending, the order its iteration
      visits the elements in. */
  predicate SortedSet(xs: seq<string>) {
    forall i, j :: 0 <= i < j < |xs| ==> Less(xs[i], xs[j])
  }

  /** `insert(x)`: a no-op when `x` is present, otherwise `x` goes in key order. */
  function Insert(xs: seq<string>, x: string): (r: seq<string>)
    ensures forall y :: y in r <==> y in xs || y == x
  {
    if xs == [] then [x]
    else if xs[0] == x then xs
    else if Less(x, xs[0]) then [x] + xs
    else
      var tail := Insert(xs[1..], x);
      assert x in xs ==> x in xs[1..];
      assert xs == [xs[0]] + xs[1..];
      [xs[0]] + tail
  }

  lemma {:induction false} InsertSorted(xs: seq<string>, x: string)
    requires SortedSet(xs)
    ensures SortedSet(Insert(xs, x))
  {
    if xs == [] {
    } else if xs[0] == x {
    } else if Less(x, xs[0]) {
      var r := Insert(xs, x);
      forall i, j | 0 <= i < j < |r| ensures Less(r[i], r[j]) {
        if i == 0 && j > 1 { LessTransitive(x, xs[0], xs[j - 1]); }
      }
    } else {
      LessTotal(x, xs[0]);
      InsertSorted(xs[1..], x);
      var tail := Insert(xs[1..], x);
      var r := [xs[0]] + tail;
      forall i, j | 0 <= i < j < |r| ensures Less(r[i], r[j]) {
        if i == 0 {
          var y := tail[j - 1];
          assert y in tail;
          if y != x {
            var t :| 0 <= t < |xs[1..]| && xs[1..][t] == y;
            assert xs[t + 1] == y;
          }
        }
      }
    }
  }
}
