/** The top-ten ranking of symbols by cumulative volume: a stable sort of the
    volume table's items, in the table's insertion order, by descending
    volume, cut to its first ten entries. */
module Ranking {
  import opened Python

  /** A symbol and its cumulative volume. */
  type Item = (string, int)

  /** Volumes never increase along the sequence. */
  predicate Descending(s: seq<Item>) {
    forall i, j :: 0 <= i < j < |s| ==> s[i].1 >= s[j].1
  }

  /** The items of `s` whose volume is `v`, in their order in `s`. */
  function WithVolume(s: seq<Item>, v: int): seq<Item> {
    if s == [] then []
    else (if s[0].1 == v then [s[0]] else []) + WithVolume(s[1..], v)
  }

  lemma {:induction false} WithVolumeAppend(a: seq<Item>, b: seq<Item>, v: int)
    ensures WithVolume(a + b, v) == WithVolume(a, v) + WithVolume(b, v)
  {
    if a == [] {
      assert a + b == b;
    } else {
      var head := if a[0].1 == v then [a[0]] else [];
      assert (a + b)[0] == a[0];
      assert (a + b)[1..] == a[1..] + b;
      WithVolumeAppend(a[1..], b, v);
      calc {
        WithVolume(a + b, v);
        head + WithVolume(a[1..] + b, v);
        head + (WithVolume(a[1..], v) + WithVolume(b, v));
        (head + WithVolume(a[1..], v)) + WithVolume(b, v);
      }
    }
  }

  /** An item no smaller than the head of a descending sequence can go
      in front of it. */
  lemma ConsDescending(h: Item, t: seq<Item>)
    requires Descending(t) && (t == [] || h.1 >= t[0].1)
    ensures Descending([h] + t)
  {
  }

  /** Inserts `x` into a descending sequence after every item of larger
      volume and before every item of equal or smaller volume: `x` comes
      from earlier in the input than the items already sorted, so ties keep
      their input order. */
  function Insert(x: Item, s: seq<Item>): (r: seq<Item>)
    ensures |r| == |s| + 1
    ensures multiset(r) == multiset(s) + multiset{x}
    ensures r[0] == x || (s != [] && r[0] == s[0])
    ensures Descending(s) ==> Descending(r)
  {
    if s == [] || x.1 >= s[0].1 then [x] + s
    else
      var t := Insert(x, s[1..]);
      assert s == [s[0]] + s[1..];
      assert multiset(s) == multiset{s[0]} + multiset(s[1..]);
      assert multiset([s[0]] + t) == multiset{s[0]} + multiset(t);
      assert Descending(s) ==> Descending([s[0]] + t) by {
        if Descending(s) {
          assert Descending(s[1..]);
          ConsDescending(s[0], t);
        }
      }
      [s[0]] + t
  }

  /** Python's `sorted(items, key=volume, reverse=True)`, which is stable. */
  function SortByVolume(s: seq<Item>): (r: seq<Item>)
    ensures |r| == |s|
    ensures multiset(r) == multiset(s)
    ensures Descending(r)
  {
    if s == [] then []
    else
      assert s == [s[0]] + s[1..];
      Insert(s[0], SortByVolume(s[1..]))
  }

  lemma WithVolumeSingle(a: Item, v: int)
    ensures WithVolume([a], v) == if a.1 == v then [a] else []
  {
    assert [a][1..] == [];
  }

  /** Inserting `x` only moves it past items of larger volume, so it
      never overtakes an item of its own volume. */
  lemma {:induction false} InsertKeepsTies(x: Item, s: seq<Item>, v: int)
    ensures WithVolume(Insert(x, s), v) == WithVolume([x] + s, v)
  {
    if s != [] && x.1 < s[0].1 {
      var rest := Insert(x, s[1..]);
      assert Insert(x, s) == [s[0]] + rest;
      assert s == [s[0]] + s[1..];
      InsertKeepsTies(x, s[1..], v);
      WithVolumeSingle(x, v);
      WithVolumeSingle(s[0], v);
      var wx, w0, w1 := WithVolume([x], v), WithVolume([s[0]], v), WithVolume(s[1..], v);
      WithVolumeAppend([s[0]], rest, v);
      WithVolumeAppend([x], s[1..], v);
      assert WithVolume(Insert(x, s), v) == w0 + (wx + w1);
      WithVolumeAppend([s[0]], s[1..], v);
      WithVolumeAppend([x], s, v);
      assert WithVolume([x] + s, v) == wx + (w0 + w1);
      assert wx == [] || w0 == [];
    }
  }

  /** The sort is stable: the items of any one volume come out in the order
      they went in. */
  lemma {:induction false} SortIsStable(s: seq<Item>, v: int)
    ensures WithVolume(SortByVolume(s), v) == WithVolume(s, v)
  {
    if s != [] {
      SortIsStable(s[1..], v);
      InsertKeepsTies(s[0], SortByVolume(s[1..]), v);
      assert s == [s[0]] + s[1..];
      WithVolumeAppend([s[0]], SortByVolume(s[1..]), v);
      WithVolumeAppend([s[0]], s[1..], v);
    }
  }

  lemma {:induction false} WithVolumePrefix(s: seq<Item>, n: nat, v: int)
    requires n <= |s|
    ensures WithVolume(s[..n], v) <= WithVolume(s, v)
  {
    assert s == s[..n] + s[n..];
    WithVolumeAppend(s[..n], s[n..], v);
  }

  /** The first ten items of the sorted table: ten items, or all of them
      when there are fewer, in descending order of volume, all taken from
      the table. */
  function TopTen(items: seq<Item>): (r: seq<Item>)
    ensures |r| == Min(10, |items|)
    ensures Descending(r)
    ensures multiset(r) <= multiset(items)
  {
    var sorted := SortByVolume(items);
    var n := Min(10, |items|);
    assert sorted == sorted[..n] + sorted[n..];
    sorted[..n]
  }

  /** What a prefix of a permutation leaves out is in the rest of it. */
  lemma LeftOutIsInRest(items: seq<Item>, sorted: seq<Item>, n: nat, e: Item)
    requires multiset(sorted) == multiset(items) && n <= |sorted|
    requires e in multiset(items) - multiset(sorted[..n])
    ensures e in sorted[n..]
  {
    assert sorted == sorted[..n] + sorted[n..];
    assert multiset(sorted)[e] == multiset(sorted[..n])[e] + multiset(sorted[n..])[e];
  }

  /** In a descending sequence nothing after position `n` is larger than
      anything before it. */
  lemma RestNoLarger(sorted: seq<Item>, n: nat, e: Item, i: nat)
    requires Descending(sorted) && i < n <= |sorted| && e in sorted[n..]
    ensures e.1 <= sorted[i].1
  {
    var j :| 0 <= j < |sorted[n..]| && sorted[n..][j] == e;
    assert sorted[n + j] == e;
  }

  /** An item of the table left out of the top ten has no more volume than
      any item kept. */
  lemma TopTenLeavesNoLarger(items: seq<Item>, e: Item, i: nat)
    requires e in multiset(items) - multiset(TopTen(items))
    requires i < |TopTen(items)|
    ensures e.1 <= TopTen(items)[i].1
  {
    var sorted := SortByVolume(items);
    var n := Min(10, |items|);
    assert TopTen(items) == sorted[..n];
    LeftOutIsInRest(items, sorted, n, e);
    RestNoLarger(sorted, n, e, i);
  }

  /** Among items of one volume the top ten keeps the earliest in table
      order: its items of volume `v` are the first of the table's. */
  lemma TopTenKeepsEarliest(items: seq<Item>, v: int)
    ensures WithVolume(TopTen(items), v) <= WithVolume(items, v)
  {
    WithVolumePrefix(SortByVolume(items), Min(10, |items|), v);
    SortIsStable(items, v);
  }
}
