/** The list of subscribed symbols, cut into slices of a fixed size, one slice per connection. */
module Symbols {
  type Positive = x: int | 0 < x witness 1

  function Min(a: int, b: int): int {
    if a < b then a else b
  }

  function Max(a: int, b: int): int {
    if a < b then b else a
  }

  /** The part of slice `index` at or behind position `from`. */
  function Slice(items: seq<string>, max: Positive, index: nat, from: nat): seq<string> {
    var lo, hi := Max(index * max, from), Min(index * max + max, |items|);
    if lo < hi then items[lo..hi] else []
  }

  /** The number of slices that n symbols take. */
  function SliceCount(n: nat, max: Positive): nat {
    if n == 0 then 0 else if n <= max then 1 else 1 + SliceCount(n - max, max)
  }

  class SymbolList {
    const max: Positive
    var items: seq<string>

    constructor (max: Positive)
      ensures this.max == max && items == []
    {
      this.max := max;
      items := [];
    }

    /** Appends symbols; yields the number of slices, and the position of the first new symbol. */
    method Append(added: seq<string>) returns (size: nat, startFrom: nat)
      modifies this
      ensures items == old(items) + added
      ensures size == SliceCount(|items|, max) && startFrom == old(|items|)
    {
      startFrom := |items|;
      items := items + added;
      size := SliceCount(|items|, max);
    }
  }

  // --- slices partition the list

  function Concat(parts: seq<seq<string>>): seq<string> {
    if parts == [] then [] else Concat(parts[..|parts| - 1]) + parts[|parts| - 1]
  }

  function Slices(items: seq<string>, max: Positive, count: nat): seq<seq<string>> {
    seq(count, i requires 0 <= i < count => Slice(items, max, i, 0))
  }

  lemma {:induction false} SliceCountBounds(n: nat, max: Positive)
    ensures n <= SliceCount(n, max) * max
    ensures n > 0 ==> SliceCount(n, max) > 0 && (SliceCount(n, max) - 1) * max < n
  {
    if n > max {
      SliceCountBounds(n - max, max);
      var k := SliceCount(n - max, max);
      assert SliceCount(n, max) == 1 + k;
      assert (1 + k) * max == max + k * max;
      assert (k - 1) * max + max == k * max;
    }
  }

  /** What there is of a list between two positions. */
  function Cut(items: seq<string>, p: nat, q: nat): seq<string> {
    if p < Min(q, |items|) then items[p..Min(q, |items|)] else []
  }

  lemma SliceIsCut(items: seq<string>, max: Positive, index: nat, from: nat)
    ensures 0 <= index * max
    ensures Slice(items, max, index, from) == Cut(items, Max(index * max, from), index * max + max)
  {
  }

  lemma CutAdds(items: seq<string>, p: nat, q: nat)
    requires p <= q
    ensures items[..Min(p, |items|)] + Cut(items, p, q) == items[..Min(q, |items|)]
  {
  }

  lemma {:induction false} ConcatSlices(items: seq<string>, max: Positive, count: nat)
    ensures Concat(Slices(items, max, count)) == items[..Min(count * max, |items|)]
  {
    if count > 0 {
      var parts := Slices(items, max, count);
      var p := (count - 1) * max;
      assert p + max == count * max && 0 <= p;
      ConcatSlices(items, max, count - 1);
      SliceIsCut(items, max, count - 1, 0);
      CutAdds(items, p, p + max);
      hide Slice, Cut;
      assert parts[..count - 1] == Slices(items, max, count - 1);
      assert parts[count - 1] == Cut(items, p, p + max);
    }
  }

  /** The slices, one after the other, are the list; none is larger than the limit, and none is empty. */
  lemma SlicesPartition(items: seq<string>, max: Positive)
    ensures var count := SliceCount(|items|, max);
            && Concat(Slices(items, max, count)) == items
            && (forall i :: 0 <= i < count ==> 0 < |Slice(items, max, i, 0)| <= max)
  {
    var count := SliceCount(|items|, max);
    SliceCountBounds(|items|, max);
    ConcatSlices(items, max, count);
    forall i | 0 <= i < count
      ensures 0 < |Slice(items, max, i, 0)| <= max
    {
      Monotone(i, count - 1, max);
      assert 0 <= i * max;
    }
  }

  lemma Monotone(i: nat, j: nat, max: Positive)
    requires i <= j
    ensures i * max <= j * max
  {
  }

  lemma CutExtends(items: seq<string>, added: seq<string>, p: nat, q: nat)
    requires p <= q
    ensures Cut(items + added, p, q) == Cut(items, p, q) + Cut(items + added, Max(p, |items|), q)
  {
  }

  /** Appending to the list extends a slice by exactly its part from the old length on. */
  lemma SliceExtends(items: seq<string>, added: seq<string>, max: Positive, index: nat)
    ensures Slice(items + added, max, index, 0) == Slice(items, max, index, 0) + Slice(items + added, max, index, |items|)
  {
    SliceIsCut(items, max, index, 0);
    SliceIsCut(items + added, max, index, 0);
    SliceIsCut(items + added, max, index, |items|);
    CutExtends(items, added, index * max, index * max + max);
    hide Slice, Cut;
  }
}
