/** Structural identifiers: the document root is `d0` and every section, row,
    cell and graph gets the next value of `Dashboard._generate_item_id`,
    a generator yielding `d5`, `d6`, `d7`, ... */
module ItemIds {
  import opened Decimal

  /** The identifier `create_empty_dashboard` gives the root. */
  const RootId: string := "d0"

  /** The identifier the generator yields when its counter is `n`. */
  function ItemId(n: nat): (id: string)
    ensures |id| >= 2 && id[0] == 'd' && AllDigits(id[1..])
    ensures Parse(id[1..]) == n
    ensures id[1] == '0' ==> n == 0
    ensures n >= 1 ==> id != RootId
  {
    ParseDigits(n);
    assert ("d" + Digits(n))[1..] == Digits(n);
    assert ("d" + Digits(n))[1] == Digits(n)[0];
    "d" + Digits(n)
  }

  /** Different counters give different identifiers. */
  lemma ItemIdInjective(a: nat, b: nat)
    ensures ItemId(a) == ItemId(b) <==> a == b
  {
    if ItemId(a) == ItemId(b) {
      assert ItemId(a)[1..] == ItemId(b)[1..];
    }
  }

  /** The identifiers yielded while the counter goes from `lo` to `hi - 1`. */
  function IdRange(lo: nat, hi: nat): (ids: seq<string>)
    requires lo <= hi
    ensures |ids| == hi - lo
    ensures forall k :: 0 <= k < hi - lo ==> ids[k] == ItemId(lo + k)
  {
    seq(hi - lo, k requires 0 <= k < hi - lo => ItemId(lo + k))
  }

  /** Successive identifiers are pairwise distinct, their numbers strictly
      increase, and none is the root's. */
  lemma IdRangeDistinct(lo: nat, hi: nat)
    requires 1 <= lo <= hi
    ensures forall i, j :: 0 <= i < j < hi - lo ==> IdRange(lo, hi)[i] != IdRange(lo, hi)[j]
    ensures forall i, j :: 0 <= i < j < hi - lo ==>
      Parse(IdRange(lo, hi)[i][1..]) < Parse(IdRange(lo, hi)[j][1..])
    ensures RootId !in IdRange(lo, hi)
  {
    var ids := IdRange(lo, hi);
    forall i, j | 0 <= i < j < hi - lo ensures ids[i] != ids[j] {
      ItemIdInjective(lo + i, lo + j);
    }
  }

  /** A sequence without repetitions holds every value at most once. */
  lemma {:induction false} DistinctOnce<T>(s: seq<T>, x: T)
    requires forall i, j :: 0 <= i < j < |s| ==> s[i] != s[j]
    ensures multiset(s)[x] <= 1
    decreases |s|
  {
    if s != [] {
      var init := s[..|s| - 1];
      assert s == init + [s[|s| - 1]];
      DistinctOnce(init, x);
      if x == s[|s| - 1] {
        assert x !in init by {
          forall k | 0 <= k < |init| ensures init[k] != x {
            assert init[k] == s[k];
          }
        }
      }
    }
  }

  /** Each identifier occurs at most once among those of a range, and the
      root's not at all. */
  lemma IdRangeOnce(lo: nat, hi: nat, x: string)
    requires 1 <= lo <= hi
    ensures multiset(IdRange(lo, hi))[x] <= 1
    ensures multiset(IdRange(lo, hi))[RootId] == 0
  {
    IdRangeDistinct(lo, hi);
    DistinctOnce(IdRange(lo, hi), x);
  }

  lemma IdRangeSplit(lo: nat, mid: nat, hi: nat)
    requires lo <= mid <= hi
    ensures IdRange(lo, hi) == IdRange(lo, mid) + IdRange(mid, hi)
  {
  }

  /** The generator: Python keeps its counter `i` in the generator frame; here
      it is a field. */
  class IdAllocator {
    var counter: nat

    /** `i = 4` before the first `next()`. */
    constructor ()
      ensures counter == 4
    {
      counter := 4;
    }

    /** `next()`: increment the counter, then yield `"d" + str(i)`. */
    method Next() returns (id: string)
      modifies this
      ensures counter == old(counter) + 1
      ensures id == ItemId(counter)
    {
      counter := counter + 1;
      id := "d" + Digits(counter);
    }
  }

  /** `n` successive `next()` calls yield the next `n` identifiers of the
      range, so a fresh allocator yields `d5`, `d6`, ... */
  method DrawMany(gen: IdAllocator, n: nat) returns (ids: seq<string>)
    modifies gen
    ensures gen.counter == old(gen.counter) + n
    ensures ids == IdRange(old(gen.counter) + 1, gen.counter + 1)
  {
    ids := [];
    var k := 0;
    while k < n
      invariant 0 <= k <= n
      invariant gen.counter == old(gen.counter) + k
      invariant ids == IdRange(old(gen.counter) + 1, gen.counter + 1)
    {
      var id := gen.Next();
      ids := ids + [id];
      k := k + 1;
    }
  }
}
