/**
 * What the scan plans of scanner.py amount to: how many moves and `online()` queries a scan
 * costs, which coordinates its recordings are tagged with, and where the head ends up.
 */
module ScanProperties {
  import opened Results
  import opened Grid
  import opened Scanning

  /** Each point tagged with height `z`, as the recording file names carry them. */
  function Tagged(pts: seq<Point>, z: real): (tags: seq<Vec3>)
    ensures |tags| == |pts|
  {
    seq(|pts|, i requires 0 <= i < |pts| => Vec3(pts[i].x, pts[i].y, z))
  }

  /** The tags of all layers, layer after layer. */
  function LayerTags(zs: seq<real>, pts: seq<Point>): (tags: seq<Vec3>)
    ensures |tags| == |zs| * |pts|
    decreases |zs|
  {
    if |zs| == 0 then []
    else
      var front := LayerTags(zs[..|zs| - 1], pts);
      assert |front| + |pts| == |zs| * |pts| by {
        assert |zs| * |pts| == (|zs| - 1) * |pts| + |pts|;
      }
      front + Tagged(pts, zs[|zs| - 1])
  }

  lemma PairFacts(d: Disp, duration: real, tag: Vec3)
    ensures MoveCount([Moved(d), Recorded(duration, tag)]) == 1
    ensures Tags([Moved(d), Recorded(duration, tag)]) == [tag]
    ensures Net([Moved(d), Recorded(duration, tag)]) == Vec3(Along(d.x), Along(d.y), Along(d.z))
  {
    var pair := [Moved(d), Recorded(duration, tag)];
    SingleMove(d);
    assert pair[..|pair| - 1] == [Moved(d)];
    assert MoveCount(pair) == MoveCount([Moved(d)]);
    assert Tags(pair) == Tags([Moved(d)]) + [tag];
    assert Net(pair) == Net([Moved(d)]);
  }

  lemma SingleMove(d: Disp)
    ensures MoveCount([Moved(d)]) == 1
    ensures Tags([Moved(d)]) == []
    ensures Net([Moved(d)]) == Vec3(Along(d.x), Along(d.y), Along(d.z))
  {
    assert [Moved(d)][..0] == [];
  }

  lemma {:induction false} SweepFront(pts: seq<Point>, begin: Point, z: real, duration: real)
    requires |pts| > 0
    ensures var p := pts[|pts| - 1];
            var prev := if |pts| == 1 then begin else pts[|pts| - 2];
            Sweep(pts, begin, z, duration)
              == Sweep(pts[..|pts| - 1], begin, z, duration) + [Moved(StepTo(prev, p)), Recorded(duration, Vec3(p.x, p.y, z))]
  {
  }

  /** A sweep costs one move per point and records at every point, in order, tagged with `z`. */
  lemma {:induction false} SweepMovesAndTags(pts: seq<Point>, begin: Point, z: real, duration: real)
    ensures MoveCount(Sweep(pts, begin, z, duration)) == |pts|
    ensures Tags(Sweep(pts, begin, z, duration)) == Tagged(pts, z)
    decreases |pts|
  {
    if |pts| > 0 {
      var front := pts[..|pts| - 1];
      var p := pts[|pts| - 1];
      var prev := if |pts| == 1 then begin else pts[|pts| - 2];
      SweepMovesAndTags(front, begin, z, duration);
      SweepFront(pts, begin, z, duration);
      MoveCountConcat(Sweep(front, begin, z, duration), [Moved(StepTo(prev, p)), Recorded(duration, Vec3(p.x, p.y, z))]);
      TagsConcat(Sweep(front, begin, z, duration), [Moved(StepTo(prev, p)), Recorded(duration, Vec3(p.x, p.y, z))]);
      PairFacts(StepTo(prev, p), duration, Vec3(p.x, p.y, z));
      assert Tagged(pts, z) == Tagged(front, z) + [Vec3(p.x, p.y, z)];
    }
  }

  /**
   * The moves of a sweep telescope: together they carry the head from `begin` to the last point,
   * and never move z.
   */
  lemma {:induction false} SweepNet(pts: seq<Point>, begin: Point, z: real, duration: real)
    requires |pts| > 0
    ensures Net(Sweep(pts, begin, z, duration)) == Vec3(pts[|pts| - 1].x - begin.x, pts[|pts| - 1].y - begin.y, 0.0)
    decreases |pts|
  {
    var front := pts[..|pts| - 1];
    var p := pts[|pts| - 1];
    var prev := if |pts| == 1 then begin else pts[|pts| - 2];
    SweepFront(pts, begin, z, duration);
    NetConcat(Sweep(front, begin, z, duration), [Moved(StepTo(prev, p)), Recorded(duration, Vec3(p.x, p.y, z))]);
    PairFacts(StepTo(prev, p), duration, Vec3(p.x, p.y, z));
    if |pts| > 1 {
      SweepNet(front, begin, z, duration);
    }
  }

  /** The last scan point is the far corner once there are two points per axis, the origin with one. */
  lemma OffsetsLast(dist: Point, res: nat)
    requires res >= 1
    ensures var pts := Offsets(dist, res);
            |pts| >= 1 && pts[|pts| - 1] == if res == 1 then Point(0.0, 0.0) else dist
  {
    var xs := Linspace(0.0, dist.x, res);
    var ys := Linspace(0.0, dist.y, res);
    MulMono(1, res, res);
    LatticeLast(xs, ys);
    LinspaceEnds(0.0, dist.x, res);
    LinspaceEnds(0.0, dist.y, res);
  }

  /**
   * A lattice scan moves once per point plus the return move, and records each lattice point
   * once, x outer and y inner, at height 0.
   */
  lemma LatticeMovesAndTags(begin: Point, end: Point, res: nat, duration: real)
    ensures var dist := Point(end.x - begin.x, end.y - begin.y);
            && MoveCount(LatticePlan(begin, end, res, duration)) == res * res + 1
            && Tags(LatticePlan(begin, end, res, duration)) == Tagged(Offsets(dist, res), 0.0)
  {
    var dist := Point(end.x - begin.x, end.y - begin.y);
    var sweep := Sweep(Offsets(dist, res), begin, 0.0, duration);
    var back := Disp(Some(-dist.x), Some(-dist.y), None);
    SweepMovesAndTags(Offsets(dist, res), begin, 0.0, duration);
    MoveCountConcat(sweep, [Moved(back)]);
    TagsConcat(sweep, [Moved(back)]);
    SingleMove(back);
  }

  /**
   * Where a lattice scan leaves the head, relative to where it started. `previous_coord` starts at
   * `begin_coord` while the points are offsets from 0, so the first move is `-begin` and, with
   * two or more points per axis, the head ends `begin` short of where it started; with one point
   * per axis the return move overshoots by the whole distance.
   */
  lemma LatticeNet(begin: Point, end: Point, res: nat, duration: real)
    ensures var dist := Point(end.x - begin.x, end.y - begin.y);
            var n := Net(LatticePlan(begin, end, res, duration));
            && (res >= 2 ==> n == Vec3(-begin.x, -begin.y, 0.0))
            && (res == 1 ==> n == Vec3(-begin.x - dist.x, -begin.y - dist.y, 0.0))
            && (res == 0 ==> n == Vec3(-dist.x, -dist.y, 0.0))
  {
    var dist := Point(end.x - begin.x, end.y - begin.y);
    var pts := Offsets(dist, res);
    ReturnNet(Sweep(pts, begin, 0.0, duration), dist);
    if res >= 1 {
      OffsetsLast(dist, res);
      SweepNet(pts, begin, 0.0, duration);
    }
  }

  /** The return move of a lattice scan takes the distance back off the sweep's net move. */
  lemma ReturnNet(sweep: seq<Event>, dist: Point)
    ensures var n := Net(sweep);
            Net(sweep + [Moved(Disp(Some(-dist.x), Some(-dist.y), None))]) == Vec3(n.x - dist.x, n.y - dist.y, n.z)
  {
    var back := Disp(Some(-dist.x), Some(-dist.y), None);
    NetConcat(sweep, [Moved(back)]);
    SingleMove(back);
  }

  /** With two or more points per axis, a lattice scan returns the head to its start exactly when it began at the origin. */
  lemma LatticeReturns(begin: Point, end: Point, res: nat, duration: real)
    requires res >= 2
    ensures Net(LatticePlan(begin, end, res, duration)) == Vec3(0.0, 0.0, 0.0) <==> begin == Point(0.0, 0.0)
  {
    LatticeNet(begin, end, res, duration);
  }

  /**
   * With the printer online throughout, a lattice scan completes, issuing its whole plan and
   * querying `online()` once per point plus once for the return move.
   */
  lemma LatticeOnline(begin: Point, end: Point, res: nat, duration: real, online: nat -> bool, first: nat)
    requires forall n :: first <= n ==> online(n)
    ensures var r := Execute(LatticePlan(begin, end, res, duration), online, first);
            r.ok && r.issued == LatticePlan(begin, end, res, duration) && r.polls == first + res * res + 1
  {
    ExecuteOnline(LatticePlan(begin, end, res, duration), online, first);
    LatticeMovesAndTags(begin, end, res, duration);
  }

  /** The scan the script runs: (0, 0) to (10, 10) at resolution 11 visits the 121 integer points, x outer. */
  lemma ExampleScan(duration: real)
    ensures var pts := Offsets(Point(10.0, 10.0), 11);
            && |pts| == 121
            && (forall k :: 0 <= k < 121 ==> pts[k] == Point((k / 11) as real, (k % 11) as real))
            && Net(LatticePlan(Point(0.0, 0.0), Point(10.0, 10.0), 11, duration)) == Vec3(0.0, 0.0, 0.0)
            && MoveCount(LatticePlan(Point(0.0, 0.0), Point(10.0, 10.0), 11, duration)) == 122
  {
    ExamplePoints();
    LatticeNet(Point(0.0, 0.0), Point(10.0, 10.0), 11, duration);
    LatticeMovesAndTags(Point(0.0, 0.0), Point(10.0, 10.0), 11, duration);
  }

  /** The example's lattice lists the integer points of the square, x outer. */
  lemma ExamplePoints()
    ensures forall k :: 0 <= k < 121 ==> Offsets(Point(10.0, 10.0), 11)[k] == Point((k / 11) as real, (k % 11) as real)
  {
    forall k | 0 <= k < 121
      ensures Offsets(Point(10.0, 10.0), 11)[k] == Point((k / 11) as real, (k % 11) as real)
    {
      ExamplePoint(k / 11, k % 11);
    }
  }

  /** Point `11 i + j` of the example's lattice is `(i, j)`. */
  lemma ExamplePoint(i: nat, j: nat)
    requires i < 11 && j < 11
    ensures Offsets(Point(10.0, 10.0), 11)[i * 11 + j] == Point(i as real, j as real)
  {
    var axis := Linspace(0.0, 10.0, 11);
    ExampleAxis();
    LatticeAt(axis, axis, i, j);
  }

  /** `linspace(0, 10, 11)` is the integers 0 to 10. */
  lemma ExampleAxis()
    ensures forall i :: 0 <= i < 11 ==> Linspace(0.0, 10.0, 11)[i] == i as real
  {
    var axis := Linspace(0.0, 10.0, 11);
    forall i | 0 <= i < 11
      ensures axis[i] == i as real
    {
    }
  }

  // ---------------------------------------------------------------- prism

  lemma {:induction false} LayersFront(zs: seq<real>, pts: seq<Point>, begin: Point, dist: Point, step: real, duration: real)
    requires |zs| > 0
    ensures Layers(zs, pts, begin, dist, step, duration)
         == Layers(zs[..|zs| - 1], pts, begin, dist, step, duration)
            + (Sweep(pts, begin, zs[|zs| - 1], duration)
               + [Moved(Disp(Some(-dist.x), Some(-dist.y), None)), Moved(Disp(None, None, Some(step)))])
  {
  }

  /** What one layer, after its sweep, adds to the head's position: the sweep's span, the x/y return and the z step. */
  function LayerShift(pts: seq<Point>, begin: Point, dist: Point, step: real): Vec3 {
    if |pts| == 0 then Vec3(-dist.x, -dist.y, step)
    else Vec3(pts[|pts| - 1].x - begin.x - dist.x, pts[|pts| - 1].y - begin.y - dist.y, step)
  }

  function Scale(k: nat, v: Vec3): Vec3 {
    Vec3((k as real) * v.x, (k as real) * v.y, (k as real) * v.z)
  }

  lemma ScaleSucc(k: nat, v: Vec3)
    ensures Scale(k + 1, v) == Plus(Scale(k, v), v)
  {
    var r := k as real;
    assert (r + 1.0) * v.x == r * v.x + v.x;
    assert (r + 1.0) * v.y == r * v.y + v.y;
    assert (r + 1.0) * v.z == r * v.z + v.z;
  }

  lemma LayerTail(pts: seq<Point>, begin: Point, z: real, dist: Point, step: real, duration: real)
    ensures var tail := Sweep(pts, begin, z, duration)
                        + [Moved(Disp(Some(-dist.x), Some(-dist.y), None)), Moved(Disp(None, None, Some(step)))];
            && MoveCount(tail) == |pts| + 2
            && Tags(tail) == Tagged(pts, z)
            && Net(tail) == LayerShift(pts, begin, dist, step)
  {
    var sweep := Sweep(pts, begin, z, duration);
    var back := Moved(Disp(Some(-dist.x), Some(-dist.y), None));
    var up := Moved(Disp(None, None, Some(step)));
    assert [back, up] == [back] + [up];
    SingleMove(back.d);
    SingleMove(up.d);
    MoveCountConcat([back], [up]);
    TagsConcat([back], [up]);
    NetConcat([back], [up]);
    SweepMovesAndTags(pts, begin, z, duration);
    MoveCountConcat(sweep, [back, up]);
    TagsConcat(sweep, [back, up]);
    NetConcat(sweep, [back, up]);
    if |pts| > 0 {
      SweepNet(pts, begin, z, duration);
    } else {
      assert sweep == [];
    }
  }

  /** Each layer costs a move per point plus two. */
  lemma {:induction false} LayersMoves(zs: seq<real>, pts: seq<Point>, begin: Point, dist: Point, step: real, duration: real)
    ensures MoveCount(Layers(zs, pts, begin, dist, step, duration)) == |zs| * (|pts| + 2)
    decreases |zs|
  {
    if |zs| > 0 {
      var front := zs[..|zs| - 1];
      var tail := Sweep(pts, begin, zs[|zs| - 1], duration)
                  + [Moved(Disp(Some(-dist.x), Some(-dist.y), None)), Moved(Disp(None, None, Some(step)))];
      LayersMoves(front, pts, begin, dist, step, duration);
      LayersFront(zs, pts, begin, dist, step, duration);
      LayerTail(pts, begin, zs[|zs| - 1], dist, step, duration);
      MoveCountConcat(Layers(front, pts, begin, dist, step, duration), tail);
      assert (|front| + 1) * (|pts| + 2) == |front| * (|pts| + 2) + (|pts| + 2);
    }
  }

  /** Each layer records the lattice points tagged with that layer's height. */
  lemma {:induction false} LayersTags(zs: seq<real>, pts: seq<Point>, begin: Point, dist: Point, step: real, duration: real)
    ensures Tags(Layers(zs, pts, begin, dist, step, duration)) == LayerTags(zs, pts)
    decreases |zs|
  {
    if |zs| > 0 {
      var front := zs[..|zs| - 1];
      var tail := Sweep(pts, begin, zs[|zs| - 1], duration)
                  + [Moved(Disp(Some(-dist.x), Some(-dist.y), None)), Moved(Disp(None, None, Some(step)))];
      LayersTags(front, pts, begin, dist, step, duration);
      LayersFront(zs, pts, begin, dist, step, duration);
      LayerTail(pts, begin, zs[|zs| - 1], dist, step, duration);
      TagsConcat(Layers(front, pts, begin, dist, step, duration), tail);
    }
  }

  /** Every layer shifts the head by the same amount, whatever its height. */
  lemma {:induction false} LayersNet(zs: seq<real>, pts: seq<Point>, begin: Point, dist: Point, step: real, duration: real)
    ensures Net(Layers(zs, pts, begin, dist, step, duration)) == Scale(|zs|, LayerShift(pts, begin, dist, step))
    decreases |zs|
  {
    if |zs| > 0 {
      var front := zs[..|zs| - 1];
      var tail := Sweep(pts, begin, zs[|zs| - 1], duration)
                  + [Moved(Disp(Some(-dist.x), Some(-dist.y), None)), Moved(Disp(None, None, Some(step)))];
      LayersNet(front, pts, begin, dist, step, duration);
      LayersFront(zs, pts, begin, dist, step, duration);
      LayerTail(pts, begin, zs[|zs| - 1], dist, step, duration);
      NetConcat(Layers(front, pts, begin, dist, step, duration), tail);
      ScaleSucc(|front|, LayerShift(pts, begin, dist, step));
    } else {
      assert Scale(0, LayerShift(pts, begin, dist, step)) == Vec3(0.0, 0.0, 0.0);
    }
  }

  /**
   * A prism scan moves once per point and twice more per layer, plus the final z return; it
   * records every lattice point on every layer, tagged with the layer's `linspace` height.
   */
  lemma PrismMovesAndTags(begin: Vec3, end: Vec3, res: nat, resZ: nat, duration: real)
    ensures var dist := Point(end.x - begin.x, end.y - begin.y);
            var plan := PrismPlan(begin, end, res, resZ, duration);
            && MoveCount(plan) == resZ * (res * res + 2) + 1
            && Tags(plan) == LayerTags(Linspace(0.0, end.z - begin.z, resZ), Offsets(dist, res))
  {
    var dist := Point(end.x - begin.x, end.y - begin.y);
    var distZ := end.z - begin.z;
    var zs := Linspace(0.0, distZ, resZ);
    var pts := Offsets(dist, res);
    LayersMoves(zs, pts, Point(begin.x, begin.y), dist, LayerStep(distZ, resZ), duration);
    LayersTags(zs, pts, Point(begin.x, begin.y), dist, LayerStep(distZ, resZ), duration);
    ReturnMove(Layers(zs, pts, Point(begin.x, begin.y), dist, LayerStep(distZ, resZ), duration),
               Disp(None, None, Some(-distZ)));
  }

  /** A final move adds one move and no recording. */
  lemma ReturnMove(trace: seq<Event>, d: Disp)
    ensures MoveCount(trace + [Moved(d)]) == MoveCount(trace) + 1
    ensures Tags(trace + [Moved(d)]) == Tags(trace)
  {
    MoveCountConcat(trace, [Moved(d)]);
    TagsConcat(trace, [Moved(d)]);
    SingleMove(d);
  }

  /**
   * Where a prism scan leaves the head: z comes back to its start whenever there is a layer
   * (the `resolution_z` steps of `distance_z / resolution_z` cancel the final return), and is
   * left `distance_z` below it when there is none; x/y fall `begin` short once per layer.
   */
  lemma PrismNet(begin: Vec3, end: Vec3, res: nat, resZ: nat, duration: real)
    ensures var n := Net(PrismPlan(begin, end, res, resZ, duration));
            && (resZ >= 1 ==> n.z == 0.0)
            && (resZ == 0 ==> n == Vec3(0.0, 0.0, -(end.z - begin.z)))
            && (res >= 2 ==> n.x == -(resZ as real) * begin.x && n.y == -(resZ as real) * begin.y)
  {
    var dist := Point(end.x - begin.x, end.y - begin.y);
    PrismNetScaled(begin, end, res, resZ, duration);
    if res >= 2 {
      OffsetsLast(dist, res);
    }
    NetArithmetic(Net(PrismPlan(begin, end, res, resZ, duration)), resZ,
                  LayerShift(Offsets(dist, res), Point(begin.x, begin.y), dist, LayerStep(end.z - begin.z, resZ)),
                  end.z - begin.z, begin.x, begin.y);
  }

  /** A prism plan's net move is `resolution_z` layer shifts and the final z return. */
  lemma PrismNetScaled(begin: Vec3, end: Vec3, res: nat, resZ: nat, duration: real)
    ensures var dist := Point(end.x - begin.x, end.y - begin.y);
            var shift := LayerShift(Offsets(dist, res), Point(begin.x, begin.y), dist, LayerStep(end.z - begin.z, resZ));
            Net(PrismPlan(begin, end, res, resZ, duration)) == Plus(Scale(resZ, shift), Vec3(0.0, 0.0, -(end.z - begin.z)))
  {
    var dist := Point(end.x - begin.x, end.y - begin.y);
    var distZ := end.z - begin.z;
    var zs := Linspace(0.0, distZ, resZ);
    var layers := Layers(zs, Offsets(dist, res), Point(begin.x, begin.y), dist, LayerStep(distZ, resZ), duration);
    var down := Moved(Disp(None, None, Some(-distZ)));
    LayersNet(zs, Offsets(dist, res), Point(begin.x, begin.y), dist, LayerStep(distZ, resZ), duration);
    NetConcat(layers, [down]);
    SingleMove(down.d);
  }

  /** The arithmetic behind `PrismNet`, over plain numbers. */
  lemma NetArithmetic(n: Vec3, resZ: nat, shift: Vec3, distZ: real, beginX: real, beginY: real)
    requires shift.z == LayerStep(distZ, resZ) && n == Plus(Scale(resZ, shift), Vec3(0.0, 0.0, -distZ))
    ensures resZ >= 1 ==> n.z == 0.0
    ensures resZ == 0 ==> n == Vec3(0.0, 0.0, -distZ)
    ensures shift.x == -beginX && shift.y == -beginY ==> n.x == -(resZ as real) * beginX && n.y == -(resZ as real) * beginY
  {
    if resZ >= 1 {
      StepsCancel(resZ, distZ);
    }
  }

  /** `resolution_z` steps of `distance_z / resolution_z` make up `distance_z`. */
  lemma StepsCancel(resZ: nat, distZ: real)
    requires resZ >= 1
    ensures (resZ as real) * LayerStep(distZ, resZ) == distZ
  {
  }

  /** The z the head has been raised to when layer `k` begins is `k` steps. */
  lemma LayerHeight(zs: seq<real>, pts: seq<Point>, begin: Point, dist: Point, step: real, duration: real, k: nat)
    requires k <= |zs|
    ensures Net(Layers(zs[..k], pts, begin, dist, step, duration)).z == (k as real) * step
  {
    LayersNet(zs[..k], pts, begin, dist, step, duration);
  }

  /**
   * With two or more layers, the height layer `k` (0 < k < resolution_z) is tagged with,
   * `k * distance_z / (resolution_z - 1)`, is the height the head was raised to,
   * `k * distance_z / resolution_z`, only when `distance_z` is 0.
   */
  lemma LayerTagHeight(begin: Vec3, end: Vec3, res: nat, resZ: nat, duration: real, k: nat)
    requires 2 <= resZ && 0 < k < resZ
    ensures var dist := Point(end.x - begin.x, end.y - begin.y);
            var distZ := end.z - begin.z;
            var zs := Linspace(0.0, distZ, resZ);
            (zs[k] == Net(Layers(zs[..k], Offsets(dist, res), Point(begin.x, begin.y), dist, LayerStep(distZ, resZ), duration)).z
             <==> distZ == 0.0)
  {
    var dist := Point(end.x - begin.x, end.y - begin.y);
    var distZ := end.z - begin.z;
    var zs := Linspace(0.0, distZ, resZ);
    LayerHeight(zs, Offsets(dist, res), Point(begin.x, begin.y), dist, LayerStep(distZ, resZ), duration, k);
    TagHeightDiffers(distZ, resZ, k, zs[k]);
  }

  lemma TagHeightDiffers(distZ: real, resZ: nat, k: nat, tag: real)
    requires 2 <= resZ && 0 < k < resZ
    requires tag == Linspace(0.0, distZ, resZ)[k]
    ensures tag == (k as real) * LayerStep(distZ, resZ) <==> distZ == 0.0
  {
    var n := resZ as real;
    var kk := k as real;
    assert tag == kk * distZ / (n - 1.0);
    if tag == kk * (distZ / n) {
      assert kk * distZ / (n - 1.0) == kk * distZ / n;
      assert kk * distZ * n == kk * distZ * (n - 1.0);
      assert kk * distZ == 0.0;
    }
  }

  /** With the printer online throughout, a prism scan completes and queries `online()` once per move. */
  lemma PrismOnline(begin: Vec3, end: Vec3, res: nat, resZ: nat, duration: real, online: nat -> bool, first: nat)
    requires forall n :: first <= n ==> online(n)
    ensures var r := Execute(PrismPlan(begin, end, res, resZ, duration), online, first);
            r.ok && r.issued == PrismPlan(begin, end, res, resZ, duration) && r.polls == first + resZ * (res * res + 2) + 1
  {
    ExecuteOnline(PrismPlan(begin, end, res, resZ, duration), online, first);
    PrismMovesAndTags(begin, end, res, resZ, duration);
  }
}
