/**
 * The counting map of the export logic (`MapCounter`) and the multiset
 * comparison built on it (`arraysHaveSameValues`).
 */
module Counting {

  /** The count a map records for `item`; an absent key counts 0 (`get(item) ?? 0`). */
  function CountOf<K>(m: map<K, int>, item: K): int
  {
    if item in m then m[item] else 0
  }

  /** The counter's representation invariant: no key is stored with count 0. */
  ghost predicate NoZeroCounts<K>(m: map<K, int>)
  {
    forall k :: k in m ==> m[k] != 0
  }

  /**
   * The map after adding `step` to the count of `item`: the key is deleted
   * when its count reaches 0 and set to the new count otherwise.
   */
  function Bumped<K(!new)>(m: map<K, int>, item: K, step: int): (r: map<K, int>)
    ensures forall k :: CountOf(r, k) == CountOf(m, k) + (if k == item then step else 0)
    ensures NoZeroCounts(m) ==> NoZeroCounts(r)
    ensures r.Keys <= m.Keys + {item}
  {
    var n := CountOf(m, item) + step;
    if n == 0 then m - {item} else m[item := n]
  }

  /** For a map without zero counts, being empty means every count is 0. */
  lemma EmptyIffAllZero<K(!new)>(m: map<K, int>)
    requires NoZeroCounts(m)
    ensures |m| == 0 <==> forall k :: CountOf(m, k) == 0
  {
    if |m| != 0 {
      var k :| k in m;
      assert CountOf(m, k) != 0;
    }
  }

  class MapCounter<K(==,!new)> {
    /** The private `#map` of the source: item -> non-zero count. */
    var counts: map<K, int>

    ghost predicate Valid()
      reads this
    {
      NoZeroCounts(counts)
    }

    constructor ()
      ensures Valid() && counts == map[]
    {
      counts := map[];
    }

    /** `size`: the number of items whose count is not 0. */
    function Size(): (n: nat)
      reads this
      requires Valid()
      ensures n == |set k | k in counts && CountOf(counts, k) != 0|
      ensures n == 0 <==> forall k :: CountOf(counts, k) == 0
    {
      EmptyIffAllZero(counts);
      assert (set k | k in counts && CountOf(counts, k) != 0) == counts.Keys;
      |counts|
    }

    /** `count(item)`: 0 exactly for the items the map does not hold. */
    function Count(item: K): (c: int)
      reads this
      requires Valid()
      ensures c == 0 <==> item !in counts
      ensures item in counts ==> c == counts[item]
    {
      CountOf(counts, item)
    }

    /** `add(item, step)`: returns the previous count plus `step`. */
    method Add(item: K, step: int) returns (newCount: int)
      requires Valid()
      modifies this
      ensures Valid()
      ensures newCount == CountOf(old(counts), item) + step
      ensures counts == Bumped(old(counts), item, step)
      ensures newCount == 0 ==> item !in counts
    {
      newCount := Count(item) + step;
      if newCount == 0 {
        counts := counts - {item};
      } else {
        counts := counts[item := newCount];
      }
    }

    /** `delete(item, step)`: the same as `add(item, -step)`. */
    method Delete(item: K, step: int) returns (newCount: int)
      requires Valid()
      modifies this
      ensures Valid()
      ensures newCount == CountOf(old(counts), item) - step
      ensures counts == Bumped(old(counts), item, -step)
    {
      newCount := Add(item, -step);
    }
  }

  /**
   * `arraysHaveSameValues`: the two sequences hold the same values with the
   * same multiplicities, in any order.
   */
  method ArraysHaveSameValues<K(==,!new)>(arr1: seq<K>, arr2: seq<K>) returns (same: bool)
    ensures same <==> multiset(arr1) == multiset(arr2)
    ensures |arr1| != |arr2| ==> !same
  {
    if |arr1| != |arr2| {
      assert |multiset(arr1)| != |multiset(arr2)|;
      return false;
    }

    var counter := new MapCounter<K>();
    var i := 0;
    while i < |arr1|
      invariant 0 <= i <= |arr1|
      invariant counter.Valid()
      invariant forall k :: CountOf(counter.counts, k) == multiset(arr1[..i])[k] as int - multiset(arr2[..i])[k] as int
    {
      assert arr1[..i + 1] == arr1[..i] + [arr1[i]];
      assert arr2[..i + 1] == arr2[..i] + [arr2[i]];
      var _ := counter.Add(arr1[i], 1);
      var _ := counter.Delete(arr2[i], 1);
      i := i + 1;
    }
    assert arr1[..i] == arr1 && arr2[..i] == arr2;

    same := counter.Size() == 0;
    if same {
      assert forall k :: multiset(arr1)[k] == multiset(arr2)[k] by {
        forall k ensures multiset(arr1)[k] == multiset(arr2)[k] {
          assert CountOf(counter.counts, k) == 0;
        }
      }
    } else {
      var k :| CountOf(counter.counts, k) != 0;
      assert multiset(arr1)[k] != multiset(arr2)[k];
    }
  }
}
