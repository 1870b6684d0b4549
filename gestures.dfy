/** The pure helpers behind the aggregate gesture signals: the mean pointer, the
    end-to-end displacement, the order in which `Object.values` lists the stored
    pointer positions, and the `filter` that drops a lifted pointer's id. */
module Gestures {
  import opened Vectors

  /** A platform pointer id. The DOM gives a signed 32-bit `long`; the model keeps
      the non-negative ones, which are exactly the ids a JavaScript object lists
      in ascending numeric order. */
  type PointerId = id: int | 0 <= id < 0x8000_0000

  // ----- reductions -----

  /** `vs.reduce(v3add, acc)`: adds the vectors onto `acc`, left to right. */
  function SumFrom(acc: Vec3, vs: seq<Vec3>): Vec3
    decreases |vs|
  {
    if vs == [] then acc else SumFrom(Add(acc, vs[0]), vs[1..])
  }

  /** The reduction inside `getMeanPointer`: adds each vector scaled by `w` onto `acc`. */
  function ScaledSumFrom(acc: Vec3, vs: seq<Vec3>, w: real): Vec3
    decreases |vs|
  {
    if vs == [] then acc else ScaledSumFrom(Add(acc, Scale(vs[0], w)), vs[1..], w)
  }

  /** `getMeanPointer`: folds `val * (1 / arr.length)` onto `v3zero`; an empty list
      never evaluates the division and gives `v3zero`. */
  function MeanPointer(ps: seq<Vec3>): Vec3 {
    if ps == [] then Zero else ScaledSumFrom(Zero, ps, 1.0 / (|ps| as real))
  }

  /** `getPositionDiffs`: `ps.slice(1).map((val, i) => val - ps[i])`. */
  function PositionDiffs(ps: seq<Vec3>): seq<Vec3> {
    if ps == [] then [] else seq(|ps| - 1, i requires 0 <= i < |ps| - 1 => Sub(ps[i + 1], ps[i]))
  }

  /** `getEndToEnd`: the differences of consecutive positions, summed from `v3zero`. */
  function EndToEnd(ps: seq<Vec3>): Vec3 {
    SumFrom(Zero, PositionDiffs(ps))
  }

  lemma {:induction false} SumFromShift(acc: Vec3, vs: seq<Vec3>)
    ensures SumFrom(acc, vs) == Add(acc, SumFrom(Zero, vs))
    decreases |vs|
  {
    if vs != [] {
      SumFromShift(Add(acc, vs[0]), vs[1..]);
      SumFromShift(Add(Zero, vs[0]), vs[1..]);
    }
  }

  lemma {:induction false} ScaledSumFromIsScaledSum(acc: Vec3, vs: seq<Vec3>, w: real)
    ensures ScaledSumFrom(acc, vs, w) == Add(acc, Scale(SumFrom(Zero, vs), w))
    decreases |vs|
  {
    if vs != [] {
      var v, rest := vs[0], SumFrom(Zero, vs[1..]);
      ScaledSumFromIsScaledSum(Add(acc, Scale(v, w)), vs[1..], w);
      SumFromShift(Add(Zero, v), vs[1..]);
      assert Add(Zero, v) == v;
      ScaleDistributes(v, rest, w);
    }
  }

  lemma ScaleDistributes(a: Vec3, b: Vec3, w: real)
    ensures Scale(Add(a, b), w) == Add(Scale(a, w), Scale(b, w))
  {
  }

  /** The mean pointer is the true arithmetic mean: the component-wise sum divided
      by the number of pointers, and the zero vector when there are none. */
  lemma MeanPointerIsAverage(ps: seq<Vec3>)
    ensures ps == [] ==> MeanPointer(ps) == Zero
    ensures ps != [] ==> MeanPointer(ps) == Scale(SumFrom(Zero, ps), 1.0 / (|ps| as real))
  {
    if ps != [] {
      ScaledSumFromIsScaledSum(Zero, ps, 1.0 / (|ps| as real));
    }
  }

  lemma {:induction false} DiffsTelescope(acc: Vec3, ps: seq<Vec3>)
    requires ps != []
    ensures SumFrom(acc, PositionDiffs(ps)) == Add(acc, Sub(ps[|ps| - 1], ps[0]))
    decreases |ps|
  {
    if |ps| > 1 {
      var d := PositionDiffs(ps);
      assert d[0] == Sub(ps[1], ps[0]);
      assert d[1..] == PositionDiffs(ps[1..]);
      DiffsTelescope(Add(acc, d[0]), ps[1..]);
    }
  }

  /** `getEndToEnd` telescopes: the zero vector for fewer than two positions, and
      otherwise the last position minus the first. */
  lemma EndToEndTelescopes(ps: seq<Vec3>)
    ensures |ps| <= 1 ==> EndToEnd(ps) == Zero
    ensures |ps| >= 1 ==> EndToEnd(ps) == Sub(ps[|ps| - 1], ps[0])
  {
    if ps != [] {
      DiffsTelescope(Zero, ps);
    }
  }

  // ----- Object.values order -----

  /** `m` is the smallest id of `s`. */
  predicate IsLeast(m: PointerId, s: set<PointerId>) {
    m in s && forall k :: k in s ==> m <= k
  }

  lemma {:induction false} LeastExists(s: set<PointerId>)
    requires s != {}
    ensures exists m :: IsLeast(m, s)
    decreases s
  {
    var x :| x in s;
    if s == {x} {
      assert IsLeast(x, s);
    } else {
      LeastExists(s - {x});
      var m :| IsLeast(m, s - {x});
      var least := if x < m then x else m;
      forall k | k in s
        ensures least <= k
      {
        if k != x { assert k in s - {x}; }
      }
      assert IsLeast(least, s);
    }
  }

  /** The order in which a JavaScript object enumerates integer-index keys:
      every key once, ascending (see `AscendingKeysMembers` and
      `AscendingKeysSorted`). */
  function AscendingKeys(keys: set<PointerId>): (r: seq<PointerId>)
    ensures |r| == |keys|
    decreases keys
  {
    if keys == {} then []
    else
      LeastExists(keys);
      var m :| IsLeast(m, keys);
      [m] + AscendingKeys(keys - {m})
  }

  /** Exactly the given keys are listed. */
  lemma {:induction false} AscendingKeysMembers(keys: set<PointerId>)
    ensures forall k :: k in keys <==> k in AscendingKeys(keys)
    decreases keys
  {
    if keys != {} {
      var r := AscendingKeys(keys);
      var m := r[0];
      var rest := AscendingKeys(keys - {m});
      assert r == [m] + rest && m in keys;
      AscendingKeysMembers(keys - {m});
    }
  }

  predicate StrictlyAscending(ks: seq<PointerId>) {
    forall i, j :: 0 <= i < j < |ks| ==> ks[i] < ks[j]
  }

  /** The keys come out strictly ascending. */
  lemma {:induction false} AscendingKeysSorted(keys: set<PointerId>)
    ensures StrictlyAscending(AscendingKeys(keys))
    decreases keys
  {
    if keys != {} {
      var r := AscendingKeys(keys);
      var m := r[0];
      var rest := AscendingKeys(keys - {m});
      assert r == [m] + rest && IsLeast(m, keys);
      AscendingKeysSorted(keys - {m});
      AscendingKeysMembers(keys - {m});
      forall i, j | 0 <= i < j < |r|
        ensures r[i] < r[j]
      {
        assert r[j] == rest[j - 1] && rest[j - 1] in keys - {m};
        if 0 < i {
          assert r[i] == rest[i - 1];
        }
      }
    }
  }

  /** `Object.values(pointerPositions)`: the stored positions, in ascending id order. */
  function ObjectValues(positions: map<PointerId, Vec3>): (r: seq<Vec3>)
    ensures |r| == |positions|
  {
    var ks := AscendingKeys(positions.Keys);
    AscendingKeysMembers(positions.Keys);
    seq(|ks|, i requires 0 <= i < |ks| => positions[ks[i]])
  }

  /** The end-to-end vector the tracker derives from its stored positions is the
      position of the highest pointer id minus that of the lowest, whatever order
      the pointers went down in. */
  lemma EndToEndOfObjectValues(positions: map<PointerId, Vec3>, lo: PointerId, hi: PointerId)
    requires lo in positions && hi in positions
    requires forall k :: k in positions ==> lo <= k <= hi
    ensures EndToEnd(ObjectValues(positions)) == Sub(positions[hi], positions[lo])
  {
    var ks := AscendingKeys(positions.Keys);
    var vs := ObjectValues(positions);
    AscendingKeysSorted(positions.Keys);
    AscendingKeysMembers(positions.Keys);
    SortedEnds(ks, lo, hi);
    assert vs[0] == positions[lo] && vs[|vs| - 1] == positions[hi];
    EndToEndTelescopes(vs);
  }

  /** In a strictly ascending list holding the least and the greatest of its
      elements, those two stand first and last. */
  lemma SortedEnds(ks: seq<PointerId>, lo: PointerId, hi: PointerId)
    requires StrictlyAscending(ks)
    requires lo in ks && hi in ks
    requires forall k :: k in ks ==> lo <= k <= hi
    ensures ks[0] == lo && ks[|ks| - 1] == hi
  {
    var n := |ks|;
    assert forall m :: 0 <= m < n ==> ks[0] <= ks[m] <= ks[n - 1];
    var i :| 0 <= i < n && ks[i] == lo;
    var j :| 0 <= j < n && ks[j] == hi;
    assert ks[0] in ks && ks[n - 1] in ks;
  }

  // ----- removing a lifted pointer -----

  /** `ids.filter(x => x != id)`. */
  function Without(ids: seq<PointerId>, id: PointerId): (r: seq<PointerId>)
    ensures forall x :: x in r <==> x in ids && x != id
    decreases |ids|
  {
    if ids == [] then []
    else
      (if ids[0] == id then [] else [ids[0]]) + Without(ids[1..], id)
  }

  /** The filter keeps the other ids in their order: it distributes over concatenation. */
  lemma {:induction false} WithoutConcat(a: seq<PointerId>, b: seq<PointerId>, id: PointerId)
    ensures Without(a + b, id) == Without(a, id) + Without(b, id)
    decreases |a|
  {
    if a == [] {
      assert a + b == b;
    } else {
      var h := if a[0] == id then [] else [a[0]];
      assert (a + b)[0] == a[0];
      assert (a + b)[1..] == a[1..] + b;
      WithoutConcat(a[1..], b, id);
      calc {
        Without(a + b, id);
        h + Without(a[1..] + b, id);
        h + (Without(a[1..], id) + Without(b, id));
        (h + Without(a[1..], id)) + Without(b, id);
      }
    }
  }

  /** The filter drops every occurrence of `id` and keeps every other id as often
      as it occurred. */
  lemma {:induction false} WithoutCounts(ids: seq<PointerId>, id: PointerId)
    ensures multiset(Without(ids, id)) == multiset(ids)[id := 0]
    decreases |ids|
  {
    if ids != [] {
      WithoutCounts(ids[1..], id);
      assert ids == [ids[0]] + ids[1..];
    }
  }

  /** Filtering out an id that is not there changes nothing. */
  lemma {:induction false} WithoutAbsent(ids: seq<PointerId>, id: PointerId)
    requires id !in ids
    ensures Without(ids, id) == ids
    decreases |ids|
  {
    if ids != [] {
      WithoutAbsent(ids[1..], id);
      assert ids == [ids[0]] + ids[1..];
    }
  }

  /** Pressing a pointer that was not active and lifting it again restores the
      active list and the position map. */
  lemma AddThenRemoveRestores(ids: seq<PointerId>, positions: map<PointerId, Vec3>, id: PointerId, p: Vec3)
    requires id !in ids && id !in positions
    ensures Without(ids + [id], id) == ids
    ensures positions[id := p] - {id} == positions
  {
    WithoutConcat(ids, [id], id);
    WithoutAbsent(ids, id);
    assert Without([id], id) == [];
  }
}
