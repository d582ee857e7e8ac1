/**
 * Loop costing of the compute library
 * (sstmac/software/libraries/compute/lib_compute_loops.h). A nest of N
 * counted loops is charged as one block of work whose trip count is the
 * product of the per-level counts `to - from + 1` (the `+1` because the
 * ranges are inclusive, as in Fortran loops), unless loop costing is
 * globally switched off.
 *
 * The cost model behind the charge (`compute_loop_work`, which turns trips
 * and lines into memory traffic and flops) and the memory read of the
 * memmove library are not part of this model: each call is recorded as a
 * `Work` entry in the library's log.
 */
module ComputeLoops {

  /** One loop level: a counter running from `from` to `to` inclusive, step 1. */
  datatype LoopRange = LoopRange(from: int, to: int)

  /** The trips of one level. */
  function LevelTrips(r: LoopRange): (t: int)
    ensures t > 0 <==> r.from <= r.to
    ensures t == 0 <==> r.to == r.from - 1
  {
    r.to - r.from + 1
  }

  /** The trips of a loop nest, outermost level first: the product of the level counts, multiplied left to right. */
  function LoopTrips(levels: seq<LoopRange>): (t: int)
    ensures levels == [] ==> t == 1
    ensures (forall i :: 0 <= i < |levels| ==> levels[i].from <= levels[i].to) ==> t > 0
  {
    if levels == [] then 1 else LoopTrips(levels[..|levels| - 1]) * LevelTrips(levels[|levels| - 1])
  }

  /** A single level is charged its own count. */
  lemma SingleLevelTrips(r: LoopRange)
    ensures LoopTrips([r]) == r.to - r.from + 1
  {
    assert [r][..0] == [];
  }

  /** The trips of two nests run one inside the other multiply. */
  lemma {:induction false} LoopTripsAppend(outer: seq<LoopRange>, inner: seq<LoopRange>)
    ensures LoopTrips(outer + inner) == LoopTrips(outer) * LoopTrips(inner)
    decreases |inner|
  {
    if inner == [] {
      assert outer + inner == outer;
    } else {
      var n := |inner|;
      assert (outer + inner)[..|outer + inner| - 1] == outer + inner[..n - 1];
      assert (outer + inner)[|outer + inner| - 1] == inner[n - 1];
      LoopTripsAppend(outer, inner[..n - 1]);
      var a, b, c := LoopTrips(outer), LoopTrips(inner[..n - 1]), LevelTrips(inner[n - 1]);
      assert (a * b) * c == a * (b * c);
    }
  }

  /**
   * An empty level (`to == from - 1`) makes a nest run no trips, and a nest
   * runs no trips only when one of its levels counts zero.
   */
  lemma {:induction false} LoopTripsZero(levels: seq<LoopRange>)
    ensures (exists i :: 0 <= i < |levels| && levels[i].to == levels[i].from - 1) ==> LoopTrips(levels) == 0
    ensures LoopTrips(levels) == 0 ==> exists i :: 0 <= i < |levels| && LevelTrips(levels[i]) == 0
    decreases |levels|
  {
    if levels != [] {
      var n := |levels|;
      var front := levels[..n - 1];
      LoopTripsZero(front);
      var a, c := LoopTrips(front), LevelTrips(levels[n - 1]);
      assert LoopTrips(levels) == a * c;
      if exists i :: 0 <= i < n && levels[i].to == levels[i].from - 1 {
        var i :| 0 <= i < n && levels[i].to == levels[i].from - 1;
        if i < n - 1 {
          assert front[i] == levels[i];
          assert a == 0;
        } else {
          assert c == 0;
        }
      }
      if a * c == 0 {
        if a == 0 {
          var i :| 0 <= i < n - 1 && LevelTrips(front[i]) == 0;
          assert levels[i] == front[i];
        } else {
          assert c == 0;
        }
      }
    }
  }

  /** A nest of non-reversed levels (each `to >= from - 1`) runs a non-negative number of trips. */
  lemma {:induction false} LoopTripsNonNegative(levels: seq<LoopRange>)
    requires forall i :: 0 <= i < |levels| ==> levels[i].to >= levels[i].from - 1
    ensures LoopTrips(levels) >= 0
    decreases |levels|
  {
    if levels != [] {
      var n := |levels|;
      LoopTripsNonNegative(levels[..n - 1]);
      var a, c := LoopTrips(levels[..n - 1]), LevelTrips(levels[n - 1]);
      assert a * c >= 0;
    }
  }

  /** Taking level `j` out of a nest removes one copy of it from the nest's multiset. */
  lemma RemoveLevelMultiset(levels: seq<LoopRange>, j: nat)
    requires j < |levels|
    ensures multiset(levels[..j] + levels[j + 1..]) == multiset(levels) - multiset{levels[j]}
  {
    var before, x, after := levels[..j], levels[j], levels[j + 1..];
    assert levels == before + [x] + after;
    assert multiset(levels) == multiset(before) + multiset{x} + multiset(after);
  }

  /** Taking level `j` out of a nest divides its count out of the trips. */
  lemma RemoveLevel(levels: seq<LoopRange>, j: nat)
    requires j < |levels|
    ensures LoopTrips(levels) == LoopTrips(levels[..j] + levels[j + 1..]) * LevelTrips(levels[j])
  {
    var before, x, after := levels[..j], levels[j], levels[j + 1..];
    assert levels == (before + [x]) + after;
    LoopTripsAppend(before + [x], after);
    LoopTripsAppend(before, [x]);
    SingleLevelTrips(x);
    LoopTripsAppend(before, after);
    Regroup(LoopTrips(levels), LoopTrips(before + [x]), LoopTrips(before), LoopTrips(after), LevelTrips(x), LoopTrips(before + after));
  }

  /** Moving the last factor of `(p * t) * q` to the end, through named intermediate products. */
  lemma Regroup(whole: int, front: int, p: int, q: int, t: int, rest: int)
    requires whole == front * q && front == p * t && rest == p * q
    ensures whole == rest * t
  {
    MulSwap(p, q, t);
  }

  lemma MulSwap(a: int, b: int, c: int)
    ensures (a * c) * b == (a * b) * c
  {
  }

  /** Reordering the range pairs of a nest does not change its trips. */
  lemma {:induction false} LoopTripsPermutation(levels: seq<LoopRange>, reordered: seq<LoopRange>)
    requires multiset(levels) == multiset(reordered)
    ensures LoopTrips(levels) == LoopTrips(reordered)
    decreases |levels|
  {
    if levels == [] {
      assert |reordered| == |multiset(reordered)| == 0;
    } else {
      var n := |levels|;
      var last := levels[n - 1];
      assert last in multiset(reordered) by {
        assert levels == levels[..n - 1] + [last];
      }
      var j :| 0 <= j < |reordered| && reordered[j] == last;
      RemoveLevelMultiset(levels, n - 1);
      RemoveLevelMultiset(reordered, j);
      RemoveLevel(levels, n - 1);
      RemoveLevel(reordered, j);
      assert levels[..n - 1] + levels[n..] == levels[..n - 1];
      LoopTripsPermutation(levels[..n - 1], reordered[..j] + reordered[j + 1..]);
    }
  }

  /** One call of the cost collaborators, as the library makes it. */
  datatype Work =
    | LoopWork(loop: int, numlines: real)          // compute_loop_work(loop, numlines)
    | MemoryRead(bytes: int, doingMemory: bool)    // lib_compute_memmove::read(bytes), with doing_memory_ at the call

  /** The work a `compute_loopN` call charges: the nest's trips, or nothing when loops are not costed. */
  function LoopCharge(doLoops: bool, levels: seq<LoopRange>, numlines: real): (work: seq<Work>)
    ensures !doLoops ==> work == []
    ensures doLoops ==> work == [LoopWork(LoopTrips(levels), numlines)]
  {
    if doLoops then [LoopWork(LoopTrips(levels), numlines)] else []
  }

  class LibComputeLoops {
    /** `do_loops_`: a static of the library class, seen here as a field of each instance. */
    var doLoops: bool
    var doingMemory: bool      // doing_memory_
    var work: seq<Work>        // calls made to the cost collaborators so far

    constructor (doLoops: bool)
      ensures this.doLoops == doLoops && !doingMemory && work == []
    {
      this.doLoops := doLoops;
      doingMemory := false;
      work := [];
    }

    /** `lib_compute_memmove::read(bytes)`, recorded with the memory flag it sees. */
    method Read(bytes: int)
      modifies this`work
      ensures work == old(work) + [MemoryRead(bytes, doingMemory)]
    {
      work := work + [MemoryRead(bytes, doingMemory)];
    }

    /** `compute_loop_work(loop, numlines)`, recorded. */
    method ComputeLoopWork(loop: int, numlines: real)
      modifies this`work
      ensures work == old(work) + [LoopWork(loop, numlines)]
    {
      work := work + [LoopWork(loop, numlines)];
    }

    /**
     * `compute_array_init<Type>(arraysize)`: read the whole array, with the
     * memory flag raised during the read and lowered afterwards.
     */
    method ComputeArrayInit(arraySize: int, typeSize: nat)
      modifies this`doingMemory, this`work
      ensures !doingMemory
      ensures work == old(work) + [MemoryRead(arraySize * typeSize, true)]
    {
      doingMemory := true;
      Read(arraySize * typeSize);
      doingMemory := false;
    }

    method ComputeLoop(from1: int, to1: int, numlines: real)
      modifies this`work
      ensures work == old(work) + LoopCharge(doLoops, [LoopRange(from1, to1)], numlines)
      ensures doLoops ==> work == old(work) + [LoopWork(to1 - from1 + 1, numlines)]
    {
      if doLoops {
        var loop := to1 - from1 + 1;
        SingleLevelTrips(LoopRange(from1, to1));
        ComputeLoopWork(loop, numlines);
      }
    }

    method ComputeLoop2(from1: int, to1: int, from2: int, to2: int, numlines: real)
      modifies this`work
      ensures work == old(work) + LoopCharge(doLoops, [LoopRange(from1, to1), LoopRange(from2, to2)], numlines)
    {
      if doLoops {
        var loop1 := to1 - from1 + 1;
        var loop2 := to2 - from2 + 1;
        var loop := loop1 * loop2;
        ghost var levels := [LoopRange(from1, to1), LoopRange(from2, to2)];
        PrefixEnds(levels);
        assert LoopTrips(levels[..1]) == loop1;
        PrefixStep(levels, 2);
        assert LoopTrips(levels[..2]) == loop1 * loop2;
        ComputeLoopWork(loop, numlines);
      }
    }

    method ComputeLoop3(from1: int, to1: int, from2: int, to2: int, from3: int, to3: int, numlines: real)
      modifies this`work
      ensures work == old(work)
        + LoopCharge(doLoops, [LoopRange(from1, to1), LoopRange(from2, to2), LoopRange(from3, to3)], numlines)
    {
      if doLoops {
        var loop1 := to1 - from1 + 1;
        var loop2 := to2 - from2 + 1;
        var loop3 := to3 - from3 + 1;
        var loop := loop1 * loop2 * loop3;
        ghost var levels := [LoopRange(from1, to1), LoopRange(from2, to2), LoopRange(from3, to3)];
        PrefixEnds(levels);
        assert LoopTrips(levels[..1]) == loop1;
        PrefixStep(levels, 2);
        assert LoopTrips(levels[..2]) == loop1 * loop2;
        PrefixStep(levels, 3);
        assert LoopTrips(levels[..3]) == loop1 * loop2 * loop3;
        ComputeLoopWork(loop, numlines);
      }
    }

    method ComputeLoop4(from1: int, to1: int, from2: int, to2: int, from3: int, to3: int,
                        from4: int, to4: int, numlines: real)
      modifies this`work
      ensures work == old(work)
        + LoopCharge(doLoops, [LoopRange(from1, to1), LoopRange(from2, to2), LoopRange(from3, to3),
                               LoopRange(from4, to4)], numlines)
    {
      if doLoops {
        var loop1 := to1 - from1 + 1;
        var loop2 := to2 - from2 + 1;
        var loop3 := to3 - from3 + 1;
        var loop4 := to4 - from4 + 1;
        var loop := loop1 * loop2 * loop3 * loop4;
        ghost var levels := [LoopRange(from1, to1), LoopRange(from2, to2), LoopRange(from3, to3),
                             LoopRange(from4, to4)];
        PrefixEnds(levels);
        assert LoopTrips(levels[..1]) == loop1;
        PrefixStep(levels, 2);
        assert LoopTrips(levels[..2]) == loop1 * loop2;
        PrefixStep(levels, 3);
        assert LoopTrips(levels[..3]) == loop1 * loop2 * loop3;
        PrefixStep(levels, 4);
        assert LoopTrips(levels[..4]) == loop1 * loop2 * loop3 * loop4;
        ComputeLoopWork(loop, numlines);
      }
    }

    method ComputeLoop5(from1: int, to1: int, from2: int, to2: int, from3: int, to3: int,
                        from4: int, to4: int, from5: int, to5: int, numlines: real)
      modifies this`work
      ensures work == old(work)
        + LoopCharge(doLoops, [LoopRange(from1, to1), LoopRange(from2, to2), LoopRange(from3, to3),
                               LoopRange(from4, to4), LoopRange(from5, to5)], numlines)
    {
      if doLoops {
        var loop1 := to1 - from1 + 1;
        var loop2 := to2 - from2 + 1;
        var loop3 := to3 - from3 + 1;
        var loop4 := to4 - from4 + 1;
        var loop5 := to5 - from5 + 1;
        var loop := loop1 * loop2 * loop3 * loop4 * loop5;
        ghost var levels := [LoopRange(from1, to1), LoopRange(from2, to2), LoopRange(from3, to3),
                             LoopRange(from4, to4), LoopRange(from5, to5)];
        PrefixEnds(levels);
        assert LoopTrips(levels[..1]) == loop1;
        PrefixStep(levels, 2);
        assert LoopTrips(levels[..2]) == loop1 * loop2;
        PrefixStep(levels, 3);
        assert LoopTrips(levels[..3]) == loop1 * loop2 * loop3;
        PrefixStep(levels, 4);
        assert LoopTrips(levels[..4]) == loop1 * loop2 * loop3 * loop4;
        PrefixStep(levels, 5);
        assert LoopTrips(levels[..5]) == loop1 * loop2 * loop3 * loop4 * loop5;
        ComputeLoopWork(loop, numlines);
      }
    }

    method ComputeLoop6(from1: int, to1: int, from2: int, to2: int, from3: int, to3: int,
                        from4: int, to4: int, from5: int, to5: int, from6: int, to6: int, numlines: real)
      modifies this`work
      ensures work == old(work)
        + LoopCharge(doLoops, [LoopRange(from1, to1), LoopRange(from2, to2), LoopRange(from3, to3),
                               LoopRange(from4, to4), LoopRange(from5, to5), LoopRange(from6, to6)], numlines)
    {
      if doLoops {
        var loop1 := to1 - from1 + 1;
        var loop2 := to2 - from2 + 1;
        var loop3 := to3 - from3 + 1;
        var loop4 := to4 - from4 + 1;
        var loop5 := to5 - from5 + 1;
        var loop6 := to6 - from6 + 1;
        var loop := loop1 * loop2 * loop3 * loop4 * loop5 * loop6;
        ghost var levels := [LoopRange(from1, to1), LoopRange(from2, to2), LoopRange(from3, to3),
                             LoopRange(from4, to4), LoopRange(from5, to5), LoopRange(from6, to6)];
        PrefixEnds(levels);
        assert LoopTrips(levels[..1]) == loop1;
        PrefixStep(levels, 2);
        assert LoopTrips(levels[..2]) == loop1 * loop2;
        PrefixStep(levels, 3);
        assert LoopTrips(levels[..3]) == loop1 * loop2 * loop3;
        PrefixStep(levels, 4);
        assert LoopTrips(levels[..4]) == loop1 * loop2 * loop3 * loop4;
        PrefixStep(levels, 5);
        assert LoopTrips(levels[..5]) == loop1 * loop2 * loop3 * loop4 * loop5;
        PrefixStep(levels, 6);
        assert LoopTrips(levels[..6]) == loop1 * loop2 * loop3 * loop4 * loop5 * loop6;
        ComputeLoopWork(loop, numlines);
      }
    }

    method ComputeLoop7(from1: int, to1: int, from2: int, to2: int, from3: int, to3: int,
                        from4: int, to4: int, from5: int, to5: int, from6: int, to6: int,
                        from7: int, to7: int, numlines: real)
      modifies this`work
      ensures work == old(work)
        + LoopCharge(doLoops, [LoopRange(from1, to1), LoopRange(from2, to2), LoopRange(from3, to3),
                               LoopRange(from4, to4), LoopRange(from5, to5), LoopRange(from6, to6),
                               LoopRange(from7, to7)], numlines)
    {
      if doLoops {
        var loop1 := to1 - from1 + 1;
        var loop2 := to2 - from2 + 1;
        var loop3 := to3 - from3 + 1;
        var loop4 := to4 - from4 + 1;
        var loop5 := to5 - from5 + 1;
        var loop6 := to6 - from6 + 1;
        var loop7 := to7 - from7 + 1;
        var loop := loop1 * loop2 * loop3 * loop4 * loop5 * loop6 * loop7;
        ghost var levels := [LoopRange(from1, to1), LoopRange(from2, to2), LoopRange(from3, to3),
                             LoopRange(from4, to4), LoopRange(from5, to5), LoopRange(from6, to6),
                             LoopRange(from7, to7)];
        PrefixEnds(levels);
        assert LoopTrips(levels[..1]) == loop1;
        PrefixStep(levels, 2);
        assert LoopTrips(levels[..2]) == loop1 * loop2;
        PrefixStep(levels, 3);
        assert LoopTrips(levels[..3]) == loop1 * loop2 * loop3;
        PrefixStep(levels, 4);
        assert LoopTrips(levels[..4]) == loop1 * loop2 * loop3 * loop4;
        PrefixStep(levels, 5);
        assert LoopTrips(levels[..5]) == loop1 * loop2 * loop3 * loop4 * loop5;
        PrefixStep(levels, 6);
        assert LoopTrips(levels[..6]) == loop1 * loop2 * loop3 * loop4 * loop5 * loop6;
        PrefixStep(levels, 7);
        assert LoopTrips(levels[..7]) == loop1 * loop2 * loop3 * loop4 * loop5 * loop6 * loop7;
        ComputeLoopWork(loop, numlines);
      }
    }
  }

  /** The trips of the first `k` levels are those of the first `k - 1` times the count of level `k`. */
  lemma PrefixStep(levels: seq<LoopRange>, k: nat)
    requires 1 <= k <= |levels|
    ensures LoopTrips(levels[..k]) == LoopTrips(levels[..k - 1]) * LevelTrips(levels[k - 1])
  {
    assert levels[..k][..k - 1] == levels[..k - 1];
  }

  /** The first level alone is charged its count, and the whole nest is its longest prefix. */
  lemma PrefixEnds(levels: seq<LoopRange>)
    requires |levels| >= 1
    ensures LoopTrips(levels[..1]) == LevelTrips(levels[0])
    ensures levels[..|levels|] == levels
  {
    assert levels[..1][..0] == [];
  }
}
