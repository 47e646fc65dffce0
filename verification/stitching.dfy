/*
 * The stitching loop of the trajectory generator, for any kind of item and
 * fault: the pairs `i`, `i + 1`, ... of a list of `n` waypoints are handled
 * in order, each appending its items to the list built so far, and the first
 * failing pair ends the loop with the items appended before it kept.
 * `TrajectoryGen.Stitch` is this loop with `SegmentAt` as the pair step.
 */
module Stitching {
  import opened Wrappers

  /** How the loop ended: every pair handled, or stopped by a fault. */
  datatype Outcome<F> = Ok | Failed(fault: F)

  /** What the loop does with one pair: given the list built so far and the
      index of the pair, the items the pair appends or why it appends none. */
  type PairStep<!P, F> = (seq<P>, nat) -> Result<seq<P>, F>

  /** The stitching loop over the pairs `i`, `i + 1`, ... of `n` waypoints,
      for any pair step: the last waypoint is never the start of a pair; the
      first failing pair stops the walk and keeps the points appended so far. */
  function Walk<P, F>(step: PairStep<P, F>, n: nat, prev: seq<P>, i: nat): (r: (seq<P>, Outcome<F>))
    decreases n - i
    ensures prev <= r.0
    ensures i + 1 >= n ==> r == (prev, Ok)
  {
    if i + 1 >= n then (prev, Ok)
    else
      match step(prev, i)
      case Failure(fault) => (prev, Failed(fault))
      case Success(seg) => Walk(step, n, prev + seg, i + 1)
  }

  /** The segments of a list of segments, joined in order. */
  function Concat<P>(segs: seq<seq<P>>): seq<P>
  {
    if |segs| == 0 then [] else Concat(segs[..|segs| - 1]) + segs[|segs| - 1]
  }

  /** Joining a segment in front of a list of segments. */
  lemma {:induction false} ConcatCons<P>(seg: seq<P>, rest: seq<seq<P>>)
    decreases |rest|
    ensures Concat([seg] + rest) == seg + Concat(rest)
  {
    if |rest| > 0 {
      var segs := [seg] + rest;
      assert segs[..|segs| - 1] == [seg] + rest[..|rest| - 1];
      ConcatCons(seg, rest[..|rest| - 1]);
    } else {
      assert [seg] + rest == [seg];
      assert [seg][..0] == [];
    }
  }

  /** The `k`-th of `segs` is what pair `i + k` appends to `prev` followed by
      the segments before it. */
  ghost predicate WalkStep<P, F>(step: PairStep<P, F>, n: nat, prev: seq<P>, i: nat,
                           segs: seq<seq<P>>, k: nat)
    requires k < |segs|
  {
    i + k + 1 < n && step(prev + Concat(segs[..k]), i + k) == Success(segs[k])
  }

  /** `segs` are the segments of the pairs `i`, `i + 1`, ... in order, each
      one a success of its pair on the list built before it. */
  ghost predicate WalkRun<P, F>(step: PairStep<P, F>, n: nat, prev: seq<P>, i: nat, segs: seq<seq<P>>)
  {
    forall k: nat :: k < |segs| ==> WalkStep(step, n, prev, i, segs, k)
  }

  /** The segments appended by the successful pairs of a walk, in order. */
  ghost function WalkSegments<P, F>(step: PairStep<P, F>, n: nat, prev: seq<P>, i: nat): seq<seq<P>>
    decreases n - i
  {
    if i + 1 >= n then []
    else
      match step(prev, i)
      case Failure(_) => []
      case Success(seg) => [seg] + WalkSegments(step, n, prev + seg, i + 1)
  }

  /** A successful pair `i` followed by a run from pair `i + 1` on the longer
      list is a run from pair `i`. */
  lemma WalkRunCons<P, F>(step: PairStep<P, F>, n: nat, prev: seq<P>, i: nat,
                    seg: seq<P>, rest: seq<seq<P>>)
    requires i + 1 < n && step(prev, i) == Success(seg)
    requires WalkRun(step, n, prev + seg, i + 1, rest)
    ensures WalkRun(step, n, prev, i, [seg] + rest)
    ensures prev + Concat([seg] + rest) == (prev + seg) + Concat(rest)
  {
    var segs := [seg] + rest;
    ConcatCons(seg, rest);
    forall k: nat | k < |segs|
      ensures WalkStep(step, n, prev, i, segs, k)
    {
      if k == 0 {
        assert segs[..0] == [];
        assert prev + Concat(segs[..0]) == prev;
      } else {
        assert WalkStep(step, n, prev + seg, i + 1, rest, k - 1);
        assert segs[..k] == [seg] + rest[..k - 1];
        ConcatCons(seg, rest[..k - 1]);
        var before := prev + Concat(segs[..k]);
        assert before == (prev + seg) + Concat(rest[..k - 1]);
        assert step(before, i + k) == Success(rest[k - 1]);
      }
    }
  }

  /** The whole walk, with `segs` its segments and `j = i + |segs|`: the
      pairs `i` to `j - 1` all succeed, each on the list built so far, and
      the result is `prev` followed by their segments in order; the status
      is Ok exactly when `j` is the last waypoint, and otherwise pair `j`
      fails with the status's fault. */
  lemma {:induction false} WalkShape<P, F>(step: PairStep<P, F>, n: nat, prev: seq<P>, i: nat)
    decreases n - i
    ensures WalkRun(step, n, prev, i, WalkSegments(step, n, prev, i))
    ensures Walk(step, n, prev, i).0 == prev + Concat(WalkSegments(step, n, prev, i))
    ensures Walk(step, n, prev, i).1 == Ok <==> i + |WalkSegments(step, n, prev, i)| + 1 >= n
    ensures Walk(step, n, prev, i).1.Failed? ==>
              step(Walk(step, n, prev, i).0, i + |WalkSegments(step, n, prev, i)|) == Failure(Walk(step, n, prev, i).1.fault)
  {
    var none: seq<seq<P>> := [];
    assert Concat(none) == [];
    if i + 1 < n {
      var s := step(prev, i);
      if s.Success? {
        WalkShape(step, n, prev + s.value, i + 1);
        WalkRunCons(step, n, prev, i, s.value, WalkSegments(step, n, prev + s.value, i + 1));
      }
    }
  }

  /** A failed walk stops at the pair after its last segment, on the final
      list. */
  lemma WalkStop<P, F>(step: PairStep<P, F>, n: nat, prev: seq<P>, i: nat)
    ensures Walk(step, n, prev, i).1.Failed? ==> i + |WalkSegments(step, n, prev, i)| + 1 < n
    ensures Walk(step, n, prev, i).1.Failed? ==>
              && step(Walk(step, n, prev, i).0, i + |WalkSegments(step, n, prev, i)|).Failure?
              && step(Walk(step, n, prev, i).0, i + |WalkSegments(step, n, prev, i)|).error
                   == Walk(step, n, prev, i).1.fault
  {
    WalkShape(step, n, prev, i);
  }

}
