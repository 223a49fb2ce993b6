/** The learner's memory of source contexts: a map with use stamps that drops the least recently used entry, against
    a list of contexts in order of use. */
module ContextCache {
  import opened Wrappers

  const SIZE: nat := 8

  // ---- The list: most recently stored or taken first

  datatype Lru<K, V> = Lru(order: seq<K>, entries: map<K, V>)

  function Drop<K(==)>(ks: seq<K>, k: K): seq<K> {
    if ks == [] then [] else if ks[0] == k then Drop(ks[1..], k) else [ks[0]] + Drop(ks[1..], k)
  }

  function AtMost<T>(s: seq<T>, n: nat): seq<T> {
    if |s| > n then s[..n] else s
  }

  function Front<K(==)>(order: seq<K>, k: K): seq<K> {
    [k] + Drop(order, k)
  }

  function Lookup<K(==), V>(l: Lru<K, V>, k: K): Option<V> {
    if k in l.entries then Some(l.entries[k]) else None
  }

  function Kept<K(==), V>(m: map<K, V>, order: seq<K>): map<K, V> {
    map j | j in m && j in order :: m[j]
  }

  /** The context goes to the front with its value; a ninth falls off the end. */
  function Stored<K(==), V>(l: Lru<K, V>, k: K, v: V): Lru<K, V> {
    var order := AtMost(Front(l.order, k), SIZE);
    Lru(order, Kept(l.entries[k := v], order))
  }

  /** A context looked up becomes the most recent, if it is there. */
  function Taken<K(==), V>(l: Lru<K, V>, k: K): Lru<K, V> {
    if k in l.entries then Lru(Front(l.order, k), l.entries) else l
  }

  ghost predicate Distinct<K>(ks: seq<K>) {
    forall i, j :: 0 <= i < j < |ks| ==> ks[i] != ks[j]
  }

  lemma {:induction false} DropDistinct<K>(ks: seq<K>, k: K)
    requires Distinct(ks)
    ensures |Drop(ks, k)| == if k in ks then |ks| - 1 else |ks|
    ensures k !in ks ==> Drop(ks, k) == ks
    ensures Distinct(Drop(ks, k)) && forall j :: j in Drop(ks, k) <==> j in ks && j != k
    decreases |ks|
  {
    if ks != [] {
      var rest := ks[1..];
      DropDistinct(rest, k);
      assert ks == [ks[0]] + rest;
      forall i | 0 <= i < |rest| ensures rest[i] != ks[0] {
        assert rest[i] == ks[i + 1];
      }
      assert Drop(ks, k) == if ks[0] == k then Drop(rest, k) else [ks[0]] + Drop(rest, k);
      if ks[0] != k {
        forall i | 0 <= i < |Drop(rest, k)| ensures Drop(rest, k)[i] != ks[0] {
          assert Drop(rest, k)[i] in Drop(rest, k);
        }
      }
    }
  }

  lemma {:induction false} DropAppend<K>(a: seq<K>, b: seq<K>, k: K)
    ensures Drop(a + b, k) == Drop(a, k) + Drop(b, k)
    decreases |a|
  {
    if a == [] {
      assert a + b == b;
    } else {
      var rest := a[1..];
      DropAppend(rest, b, k);
      assert (a + b)[1..] == rest + b && (a + b)[0] == a[0];
      assert Drop(a + b, k) == if a[0] == k then Drop(rest + b, k) else [a[0]] + Drop(rest + b, k);
      assert Drop(a, k) == if a[0] == k then Drop(rest, k) else [a[0]] + Drop(rest, k);
      hide Drop;
      assert [a[0]] + (Drop(rest, k) + Drop(b, k)) == ([a[0]] + Drop(rest, k)) + Drop(b, k);
    }
  }

  // ---- The map with stamps

  /** The stamps fall along the list. */
  ghost predicate Falling<K>(ks: seq<K>, stamps: map<K, nat>) {
    forall i, j :: 0 <= i < j < |ks| ==> ks[i] in stamps && ks[j] in stamps && stamps[ks[i]] > stamps[ks[j]]
  }

  ghost predicate Stamped<K>(ks: seq<K>, stamps: map<K, nat>, clock: nat) {
    forall i :: 0 <= i < |ks| ==> ks[i] in stamps && stamps[ks[i]] <= clock
  }

  /** The list names exactly the keys of the map. */
  ghost predicate Names<K, V>(ks: seq<K>, m: map<K, V>) {
    (forall k :: k in m ==> k in ks) && (forall i :: 0 <= i < |ks| ==> ks[i] in m)
  }

  /** The keys of the map, in the order of their stamps. */
  ghost predicate Ordered<K, V>(entries: map<K, V>, stamps: map<K, nat>, clock: nat, order: seq<K>) {
    && Distinct(order) && |order| <= SIZE
    && Names(order, entries)
    && Stamped(order, stamps, clock) && Falling(order, stamps)
  }

  lemma {:induction false} DropFalling<K>(ks: seq<K>, k: K, stamps: map<K, nat>, clock: nat)
    requires Distinct(ks) && Stamped(ks, stamps, clock) && Falling(ks, stamps)
    ensures Stamped(Drop(ks, k), stamps, clock) && Falling(Drop(ks, k), stamps)
    decreases |ks|
  {
    if ks != [] {
      var tail := ks[1..];
      TailFalling(ks, stamps, clock);
      DropFalling(tail, k, stamps, clock);
      DropDistinct(tail, k);
      var rest := Drop(tail, k);
      assert Drop(ks, k) == if ks[0] == k then rest else [ks[0]] + rest;
      hide Drop;
      if ks[0] != k {
        forall j | 0 <= j < |rest| ensures rest[j] in stamps && stamps[ks[0]] > stamps[rest[j]] {
          assert rest[j] in rest;
          var i :| 0 <= i < |tail| && tail[i] == rest[j];
          assert ks[i + 1] == rest[j];
        }
        FrontBelow(ks[0], rest, stamps, clock);
      }
    }
  }

  lemma TailFalling<K>(ks: seq<K>, stamps: map<K, nat>, clock: nat)
    requires ks != [] && Distinct(ks) && Stamped(ks, stamps, clock) && Falling(ks, stamps)
    ensures Distinct(ks[1..]) && Stamped(ks[1..], stamps, clock) && Falling(ks[1..], stamps)
  {
    var tail := ks[1..];
    assert forall i :: 0 <= i < |tail| ==> tail[i] == ks[i + 1];
  }

  lemma FrontBelow<K>(k: K, ks: seq<K>, stamps: map<K, nat>, clock: nat)
    requires k in stamps && stamps[k] <= clock && Stamped(ks, stamps, clock) && Falling(ks, stamps)
    requires forall j :: 0 <= j < |ks| ==> ks[j] in stamps && stamps[k] > stamps[ks[j]]
    ensures Stamped([k] + ks, stamps, clock) && Falling([k] + ks, stamps)
  {
    var all := [k] + ks;
    assert forall i :: 0 < i < |all| ==> all[i] == ks[i - 1];
  }

  /** Stamping k anew puts it in front and leaves the others as they stood. */
  lemma FrontFalling<K>(ks: seq<K>, k: K, stamps: map<K, nat>, clock: nat)
    requires Distinct(ks) && Stamped(ks, stamps, clock) && Falling(ks, stamps)
    ensures var after := stamps[k := clock + 1];
            Stamped(Front(ks, k), after, clock + 1) && Falling(Front(ks, k), after) && Distinct(Front(ks, k))
    ensures |Front(ks, k)| == if k in ks then |ks| else |ks| + 1
  {
    DropFalling(ks, k, stamps, clock);
    DropDistinct(ks, k);
    forall i | 0 <= i < |Drop(ks, k)| ensures Drop(ks, k)[i] != k {
      assert Drop(ks, k)[i] in Drop(ks, k);
    }
  }

  lemma FrontNames<K, V>(ks: seq<K>, k: K, m: map<K, V>, v: V)
    requires Distinct(ks) && Names(ks, m)
    ensures Names(Front(ks, k), m[k := v])
    ensures k in m ==> Names(Front(ks, k), m)
  {
    DropDistinct(ks, k);
    var front := Front(ks, k);
    forall j | j in m[k := v] ensures j in front {
      assert j == k || j in Drop(ks, k);
    }
    forall i | 0 <= i < |front| ensures front[i] in m[k := v] {
      if i > 0 {
        DropMember(ks, k, i - 1);
        NamedKey(ks, m, front[i]);
      }
    }
    if k in m {
      forall i | 0 <= i < |front| ensures front[i] in m {
        assert front[i] in m[k := v];
      }
    }
  }

  lemma DropMember<K>(ks: seq<K>, k: K, i: nat)
    requires Distinct(ks) && i < |Drop(ks, k)|
    ensures Drop(ks, k)[i] in ks
  {
    DropKey(ks, k, Drop(ks, k)[i]);
  }

  lemma DropKey<K>(ks: seq<K>, k: K, j: K)
    requires Distinct(ks)
    ensures j in Drop(ks, k) <==> j in ks && j != k
  {
    DropDistinct(ks, k);
  }

  lemma NamedKey<K, V>(ks: seq<K>, m: map<K, V>, j: K)
    requires Names(ks, m) && j in ks
    ensures j in m
  {
    var i :| 0 <= i < |ks| && ks[i] == j;
  }

  lemma {:induction false} KeyCount<K, V>(ks: seq<K>, m: map<K, V>)
    requires Distinct(ks) && Names(ks, m)
    ensures |m| == |ks|
    decreases |ks|
  {
    if ks == [] {
      assert m.Keys == {};
    } else {
      var rest, fewer := ks[1..], m - {ks[0]};
      assert ks == [ks[0]] + rest;
      forall i | 0 <= i < |rest| ensures rest[i] in fewer {
        assert rest[i] == ks[i + 1];
      }
      KeyCount(rest, fewer);
      assert fewer.Keys == m.Keys - {ks[0]};
    }
  }

  class Cache<K(==), V> {
    var entries: map<K, V>
    var stamps: map<K, nat>
    var clock: nat
    ghost var order: seq<K>

    ghost predicate Valid()
      reads this
    {
      Ordered(entries, stamps, clock, order)
    }

    ghost function View(): Lru<K, V>
      reads this
    {
      Lru(order, entries)
    }

    constructor ()
      ensures Valid() && View() == Lru([], map[])
    {
      entries, stamps, clock, order := map[], map[], 0, [];
    }

    /** min(cache, key=stamps): the entry stored or taken longest ago. */
    method Oldest() returns (k: K)
      requires Valid() && order != []
      ensures k == order[|order| - 1]
    {
      assert order[0] in entries;
      var left := entries.Keys;
      k :| k in left;
      left := left - {k};
      while left != {}
        invariant left <= entries.Keys && k in entries
        invariant forall j :: j in entries.Keys - left ==> j in stamps && k in stamps && stamps[k] <= stamps[j]
        decreases |left|
      {
        var j :| j in left;
        left := left - {j};
        if stamps[j] < stamps[k] {
          k := j;
        }
      }
      assert order[|order| - 1] in entries;
      assert k in order;
    }

    method Store(k: K, v: V)
      requires Valid()
      modifies this
      ensures Valid() && View() == Stored(old(View()), k, v)
    {
      hide Drop, Stored, Front, Names, Falling, Stamped, Distinct;
      KeyCount(order, entries);
      if k !in entries && |entries| >= SIZE {
        var victim := Oldest();
        EvictingFirst(View(), k, v);
        EvictedOrder(entries, stamps, clock, order);
        entries := entries - {victim};
        order := order[..|order| - 1];
      } else {
        StoringFits(View(), k, v);
      }
      FrontFalling(order, k, stamps, clock);
      FrontNames(order, k, entries, v);
      entries := entries[k := v];
      clock := clock + 1;
      stamps := stamps[k := clock];
      order := Front(order, k);
    }

    method Take(k: K) returns (r: Option<V>)
      requires Valid()
      modifies this
      ensures Valid() && r == Lookup(old(View()), k) && View() == Taken(old(View()), k)
    {
      hide Drop, Front;
      if k !in entries {
        return None;
      }
      FrontFalling(order, k, stamps, clock);
      FrontNames(order, k, entries, entries[k]);
      assert k in order;
      clock := clock + 1;
      stamps := stamps[k := clock];
      order := Front(order, k);
      r := Some(entries[k]);
    }
  }

  /** Evicting first or storing first comes to the same list. */
  lemma EvictingFirst<K, V>(l: Lru<K, V>, k: K, v: V)
    requires |l.order| == SIZE && k !in l.entries && Distinct(l.order) && Names(l.order, l.entries)
    ensures var n := |l.order| - 1;
            Stored(l, k, v) == Lru(Front(l.order[..n], k), (l.entries - {l.order[n]})[k := v])
            && |Front(l.order[..n], k)| <= SIZE
  {
    hide Drop;
    var n := |l.order| - 1;
    var head, last := l.order[..n], l.order[n];
    assert k !in l.order;
    DropDistinct(l.order, k);
    DropDistinct(head, k);
    assert l.order == head + [last];
    assert Front(l.order, k) == [k] + head + [last];
    assert AtMost(Front(l.order, k), SIZE) == [k] + head;
    EvictedKept(head, last, l.entries, k, v);
  }

  lemma EvictedKept<K, V>(head: seq<K>, last: K, m: map<K, V>, k: K, v: V)
    requires Distinct(head + [last]) && Names(head + [last], m) && k !in m
    ensures Kept(m[k := v], [k] + head) == (m - {last})[k := v]
  {
    var all := head + [last];
    forall i | 0 <= i < |head| ensures head[i] != last {
      assert all[i] == head[i] && all[|head|] == last;
    }
    assert last !in head && last in m by {
      assert all[|head|] in m;
    }
    forall j | j in m && j != last ensures j in head {
      assert j in all;
    }
  }

  lemma EvictedOrder<K, V>(entries: map<K, V>, stamps: map<K, nat>, clock: nat, order: seq<K>)
    requires Ordered(entries, stamps, clock, order) && order != []
    ensures Ordered(entries - {order[|order| - 1]}, stamps, clock, order[..|order| - 1])
  {
    var n := |order| - 1;
    var head := order[..n];
    assert order == head + [order[n]];
    forall i | 0 <= i < n ensures head[i] in entries - {order[n]} {
      assert head[i] == order[i];
    }
  }

  lemma StoringFits<K, V>(l: Lru<K, V>, k: K, v: V)
    requires Distinct(l.order) && |l.order| <= SIZE && (k in l.entries || |l.order| < SIZE) && Names(l.order, l.entries)
    ensures Stored(l, k, v) == Lru(Front(l.order, k), l.entries[k := v])
    ensures |Front(l.order, k)| <= SIZE
  {
    hide Drop;
    DropDistinct(l.order, k);
    FrontNames(l.order, k, l.entries, v);
    assert Kept(l.entries[k := v], Front(l.order, k)) == l.entries[k := v];
  }

  // ---- Which contexts are remembered, and as what

  datatype Op<K, V> = Store(key: K, value: V) | Take(key: K)

  function Run<K(==), V>(ops: seq<Op<K, V>>): Lru<K, V> {
    if ops == [] then Lru([], map[])
    else
      var l := Run(ops[..|ops| - 1]);
      match ops[|ops| - 1]
      case Store(k, v) => Stored(l, k, v)
      case Take(k) => Taken(l, k)
  }

  /** The keys used: every one stored, and every one found when taken. */
  function Uses<K(==), V>(ops: seq<Op<K, V>>): seq<K> {
    if ops == [] then []
    else
      var before, op := ops[..|ops| - 1], ops[|ops| - 1];
      if op.Store? || op.key in Run(before).entries then Uses(before) + [op.key] else Uses(before)
  }

  /** The distinct keys used, the latest use first: unbounded, and with nothing about a cache in it. */
  function Recency<K(==)>(uses: seq<K>): seq<K> {
    if uses == [] then [] else Front(Recency(uses[..|uses| - 1]), uses[|uses| - 1])
  }

  /** The value a key was last stored with. */
  function LastStored<K(==), V>(ops: seq<Op<K, V>>, k: K): Option<V> {
    if ops == [] then None
    else
      var op := ops[|ops| - 1];
      if op.Store? && op.key == k then Some(op.value) else LastStored(ops[..|ops| - 1], k)
  }

  lemma {:induction false} RecencyDistinct<K>(uses: seq<K>)
    ensures Distinct(Recency(uses))
    decreases |uses|
  {
    if uses != [] {
      RecencyDistinct(uses[..|uses| - 1]);
      FrontDistinct(Recency(uses[..|uses| - 1]), uses[|uses| - 1]);
    }
  }

  lemma FrontDistinct<K>(ks: seq<K>, k: K)
    requires Distinct(ks)
    ensures Distinct(Front(ks, k)) && forall j :: j in Front(ks, k) <==> j == k || j in ks
  {
    DropDistinct(ks, k);
    forall i | 0 <= i < |Drop(ks, k)| ensures Drop(ks, k)[i] != k {
      assert Drop(ks, k)[i] in Drop(ks, k);
    }
  }

  /** Moving k to the front of the first n keys, or of all of them, gives the same first n. */
  lemma FrontOfPrefix<K>(all: seq<K>, k: K, n: nat)
    requires Distinct(all) && n > 0
    ensures AtMost(Front(AtMost(all, n), k), n) == AtMost(Front(all, k), n)
    ensures k in AtMost(all, n) ==> |Front(AtMost(all, n), k)| <= n
  {
    hide Drop;
    if |all| > n {
      var head, tail := all[..n], all[n..];
      assert all == head + tail;
      assert Distinct(head);
      hide Distinct;
      DropAppend(head, tail, k);
      DropDistinct(head, k);
      assert Front(all, k) == Front(head, k) + Drop(tail, k);
      PrefixSame(Front(head, k), Drop(tail, k), n);
    } else {
      DropDistinct(all, k);
    }
  }

  lemma PrefixSame<K>(a: seq<K>, b: seq<K>, n: nat)
    requires n <= |a|
    ensures AtMost(a, n) == AtMost(a + b, n)
  {
    assert (a + b)[..n] == a[..n];
    assert |a| == n ==> a[..n] == a;
  }

  /** Of any sequence of stores and takes the cache remembers exactly the eight contexts stored or taken last, in
      that order, each with the value it was last stored with. */
  lemma {:induction false} RemembersMostRecent<K, V>(ops: seq<Op<K, V>>)
    ensures Run(ops).order == AtMost(Recency(Uses(ops)), SIZE)
    ensures Distinct(Run(ops).order) && Names(Run(ops).order, Run(ops).entries)
    ensures forall k :: k in Run(ops).entries ==> LastStored(ops, k) == Some(Run(ops).entries[k])
    decreases |ops|
  {
    if ops != [] {
      var before, op := ops[..|ops| - 1], ops[|ops| - 1];
      RemembersMostRecent(before);
      var l, all, k := Run(before), Recency(Uses(before)), op.key;
      RecencyDistinct(Uses(before));
      FrontOfPrefix(all, k, SIZE);
      FrontDistinct(l.order, k);
      if op.Store? || k in l.entries {
        assert Uses(ops)[..|Uses(ops)| - 1] == Uses(before);
        assert Recency(Uses(ops)) == Front(all, k);
        AtMostKeys(Front(l.order, k), SIZE);
        FrontNames(l.order, k, l.entries, if op.Store? then op.value else l.entries[k]);
      }
      if op.Store? {
        KeptNames(AtMost(Front(l.order, k), SIZE), l.entries[k := op.value]);
      }
    }
  }

  lemma KeptNames<K, V>(ks: seq<K>, m: map<K, V>)
    requires forall i :: 0 <= i < |ks| ==> ks[i] in m
    ensures Names(ks, Kept(m, ks))
  {
  }

  lemma AtMostKeys<K>(ks: seq<K>, n: nat)
    ensures Distinct(ks) ==> Distinct(AtMost(ks, n))
    ensures |AtMost(ks, n)| <= |ks| && forall i :: 0 <= i < |AtMost(ks, n)| ==> AtMost(ks, n)[i] == ks[i]
  {
  }

  /** So a context looked up resumes as it was last stored exactly while fewer than eight others were used since. */
  lemma ResumesWhileRecent<K, V>(ops: seq<Op<K, V>>, k: K)
    ensures Lookup(Run(ops), k) == if k in AtMost(Recency(Uses(ops)), SIZE) then LastStored(ops, k) else None
  {
    RemembersMostRecent(ops);
  }
}
