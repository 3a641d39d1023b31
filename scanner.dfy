/**
 * scanner.py: the scan sequencer. A scan is split into its plan (the moves and recordings the
 * source issues, a pure function of the scan parameters) and the execution of that plan against
 * the printer, whose answer to each `online()` query is an oracle outside the model.
 */
module Scanning {
  import opened Results
  import opened Grid
  import PrinterPort

  datatype Vec3 = Vec3(x: real, y: real, z: real)

  /** The arguments of one `move_coord` call; an axis passed as None does not move. */
  datatype Disp = Disp(x: Option<real>, y: Option<real>, z: Option<real>)

  /** What the sequencer asks of its devices: a relative move, or a recording tagged with a coordinate. */
  datatype Event = Moved(d: Disp) | Recorded(duration: real, tag: Vec3)

  function Along(a: Option<real>): real {
    if a.Some? then a.value else 0.0
  }

  function Plus(a: Vec3, b: Vec3): Vec3 {
    Vec3(a.x + b.x, a.y + b.y, a.z + b.z)
  }

  /** Net displacement commanded by a sequence of events. */
  function Net(trace: seq<Event>): Vec3
    decreases |trace|
  {
    if |trace| == 0 then Vec3(0.0, 0.0, 0.0)
    else
      var n := Net(trace[..|trace| - 1]);
      match trace[|trace| - 1]
      case Moved(d) => Vec3(n.x + Along(d.x), n.y + Along(d.y), n.z + Along(d.z))
      case Recorded(_, _) => n
  }

  /** Number of moves in a sequence of events. */
  function MoveCount(trace: seq<Event>): nat
    decreases |trace|
  {
    if |trace| == 0 then 0
    else MoveCount(trace[..|trace| - 1]) + (if trace[|trace| - 1].Moved? then 1 else 0)
  }

  /** The coordinates the recordings are tagged with, in order. */
  function Tags(trace: seq<Event>): seq<Vec3>
    decreases |trace|
  {
    if |trace| == 0 then []
    else
      var e := trace[|trace| - 1];
      Tags(trace[..|trace| - 1]) + (if e.Recorded? then [e.tag] else [])
  }

  lemma {:induction false} NetConcat(a: seq<Event>, b: seq<Event>)
    ensures Net(a + b) == Plus(Net(a), Net(b))
    decreases |b|
  {
    if |b| == 0 {
      assert a + b == a;
    } else {
      assert (a + b)[..|a + b| - 1] == a + b[..|b| - 1];
      NetConcat(a, b[..|b| - 1]);
    }
  }

  lemma {:induction false} MoveCountConcat(a: seq<Event>, b: seq<Event>)
    ensures MoveCount(a + b) == MoveCount(a) + MoveCount(b)
    decreases |b|
  {
    if |b| == 0 {
      assert a + b == a;
    } else {
      assert (a + b)[..|a + b| - 1] == a + b[..|b| - 1];
      MoveCountConcat(a, b[..|b| - 1]);
    }
  }

  lemma {:induction false} TagsConcat(a: seq<Event>, b: seq<Event>)
    ensures Tags(a + b) == Tags(a) + Tags(b)
    decreases |b|
  {
    if |b| == 0 {
      assert a + b == a;
    } else {
      assert (a + b)[..|a + b| - 1] == a + b[..|b| - 1];
      TagsConcat(a, b[..|b| - 1]);
    }
  }

  // ---------------------------------------------------------------- plans

  /** The move from the previous point to `p`: `dx = p_x - previous_coord[0]`, likewise y. */
  function StepTo(prev: Point, p: Point): Disp {
    Disp(Some(p.x - prev.x), Some(p.y - prev.y), None)
  }

  /**
   * The point loop of both scans: `previous_coord` starts at `begin`, and at every point the
   * sequencer moves there from the previous one and records, tagged `(p_x, p_y, z)`.
   */
  function Sweep(pts: seq<Point>, begin: Point, z: real, duration: real): (ev: seq<Event>)
    ensures |ev| == 2 * |pts|
    decreases |pts|
  {
    if |pts| == 0 then []
    else
      var prev := if |pts| == 1 then begin else pts[|pts| - 2];
      var p := pts[|pts| - 1];
      Sweep(pts[..|pts| - 1], begin, z, duration) + [Moved(StepTo(prev, p)), Recorded(duration, Vec3(p.x, p.y, z))]
  }

  /** `scan_points`: offsets from `linspace(0, distance, resolution)` on both axes, x outer. */
  function Offsets(dist: Point, res: nat): (pts: seq<Point>)
    ensures |pts| == res * res
  {
    Lattice(Linspace(0.0, dist.x, res), Linspace(0.0, dist.y, res))
  }

  /** Everything `scan_rectangular_lattice` issues when the printer stays online. */
  function LatticePlan(begin: Point, end: Point, res: nat, duration: real): seq<Event> {
    var dist := Point(end.x - begin.x, end.y - begin.y);
    Sweep(Offsets(dist, res), begin, 0.0, duration) + [Moved(Disp(Some(-dist.x), Some(-dist.y), None))]
  }

  /** The z step after each layer, `distance_z / resolution_z`; only evaluated when there is a layer. */
  function LayerStep(distZ: real, resZ: nat): real {
    if resZ == 0 then 0.0 else distZ / (resZ as real)
  }

  /** The layer loop of `scan_rectangular_prism`: per layer a sweep, the x/y return and the z step. */
  function Layers(zs: seq<real>, pts: seq<Point>, begin: Point, dist: Point, step: real, duration: real): seq<Event>
    decreases |zs|
  {
    if |zs| == 0 then []
    else
      Layers(zs[..|zs| - 1], pts, begin, dist, step, duration)
      + Sweep(pts, begin, zs[|zs| - 1], duration)
      + [Moved(Disp(Some(-dist.x), Some(-dist.y), None)), Moved(Disp(None, None, Some(step)))]
  }

  /** Everything `scan_rectangular_prism` issues when the printer stays online. */
  function PrismPlan(begin: Vec3, end: Vec3, res: nat, resZ: nat, duration: real): seq<Event> {
    var dist := Point(end.x - begin.x, end.y - begin.y);
    var distZ := end.z - begin.z;
    Layers(Linspace(0.0, distZ, resZ), Offsets(dist, res), Point(begin.x, begin.y), dist, LayerStep(distZ, resZ), duration)
    + [Moved(Disp(None, None, Some(-distZ)))]
  }

  /** With no layer, the prism plan is the final z return alone, whatever the lattice count. */
  lemma NoLayersPlan(begin: Vec3, end: Vec3, res: nat, duration: real)
    ensures PrismPlan(begin, end, res, 0, duration) == [Moved(Disp(None, None, Some(-(end.z - begin.z))))]
  {
    assert Linspace(0.0, end.z - begin.z, 0) == [];
  }

  // ---------------------------------------------------------------- execution

  /** Progress of a plan: the events issued so far, the `online()` queries made, and whether no move failed. */
  datatype Run = Run(issued: seq<Event>, polls: nat, ok: bool)

  /**
   * One event against the printer: a move first asks `online()` and raises when the answer is no,
   * issuing nothing; a recording needs no query. After a failure nothing more happens.
   */
  function Step(r: Run, e: Event, online: nat -> bool): Run {
    if !r.ok then r
    else if e.Recorded? then Run(r.issued + [e], r.polls, true)
    else if online(r.polls) then Run(r.issued + [e], r.polls + 1, true)
    else Run(r.issued, r.polls + 1, false)
  }

  /** A plan run from query number `first` on. */
  function Execute(plan: seq<Event>, online: nat -> bool, first: nat): Run
    decreases |plan|
  {
    if |plan| == 0 then Run([], first, true)
    else Step(Execute(plan[..|plan| - 1], online, first), plan[|plan| - 1], online)
  }

  lemma ExecuteSnoc(a: seq<Event>, e: Event, online: nat -> bool, first: nat)
    ensures Execute(a + [e], online, first) == Step(Execute(a, online, first), e, online)
  {
    assert (a + [e])[..|a|] == a;
  }

  /**
   * What a run issues is a prefix of the plan: all of it when no move failed, otherwise everything
   * before the move whose `online()` query answered no. Each move costs one query.
   */
  lemma {:induction false} ExecuteIssuesPrefix(plan: seq<Event>, online: nat -> bool, first: nat)
    ensures var r := Execute(plan, online, first);
      && r.issued <= plan
      && (r.ok ==> r.issued == plan && r.polls == first + MoveCount(plan))
      && (!r.ok ==> |r.issued| < |plan| && plan[|r.issued|].Moved?
                    && r.polls == first + MoveCount(r.issued) + 1 && !online(r.polls - 1))
    decreases |plan|
  {
    if |plan| > 0 {
      var front := plan[..|plan| - 1];
      ExecuteIssuesPrefix(front, online, first);
      var r0 := Execute(front, online, first);
      var e := plan[|plan| - 1];
      assert front + [e] == plan;
      if r0.ok {
        MoveCountConcat(front, [e]);
        assert MoveCount([e]) == (if e.Moved? then 1 else 0) by { assert [e][..0] == []; }
      }
    }
  }

  /** With the printer online throughout, the whole plan is issued. */
  lemma {:induction false} ExecuteOnline(plan: seq<Event>, online: nat -> bool, first: nat)
    requires forall n :: first <= n ==> online(n)
    ensures Execute(plan, online, first) == Run(plan, first + MoveCount(plan), true)
    decreases |plan|
  {
    if |plan| > 0 {
      var front := plan[..|plan| - 1];
      ExecuteOnline(front, online, first);
      assert front + [plan[|plan| - 1]] == plan;
    }
  }

  /** Once a move has failed, the rest of the plan changes nothing. */
  lemma {:induction false} ExecuteStopped(a: seq<Event>, plan: seq<Event>, online: nat -> bool, first: nat)
    requires a <= plan && !Execute(a, online, first).ok
    ensures Execute(plan, online, first) == Execute(a, online, first)
    decreases |plan|
  {
    if |plan| > |a| {
      assert a <= plan[..|plan| - 1];
      ExecuteStopped(a, plan[..|plan| - 1], online, first);
    } else {
      assert a == plan;
    }
  }

  lemma {:induction false} SweepPrefix(pts: seq<Point>, k: nat, begin: Point, z: real, duration: real)
    requires k <= |pts|
    ensures Sweep(pts[..k], begin, z, duration) <= Sweep(pts, begin, z, duration)
    decreases |pts|
  {
    if k < |pts| {
      var front := pts[..|pts| - 1];
      SweepPrefix(front, k, begin, z, duration);
      assert front[..k] == pts[..k];
    } else {
      assert pts[..k] == pts;
    }
  }

  lemma {:induction false} LayersPrefix(zs: seq<real>, k: nat, pts: seq<Point>, begin: Point, dist: Point, step: real, duration: real)
    requires k <= |zs|
    ensures Layers(zs[..k], pts, begin, dist, step, duration) <= Layers(zs, pts, begin, dist, step, duration)
    decreases |zs|
  {
    if k < |zs| {
      var front := zs[..|zs| - 1];
      LayersPrefix(front, k, pts, begin, dist, step, duration);
      assert front[..k] == zs[..k];
    } else {
      assert zs[..k] == zs;
    }
  }

  /** The event pair for point `i` of a sweep, and where it sits in any plan the sweep starts. */
  lemma {:induction false} SweepVisit(pts: seq<Point>, i: nat, begin: Point, z: real, duration: real, before: seq<Event>, plan: seq<Event>)
    requires i < |pts| && before + Sweep(pts, begin, z, duration) <= plan
    ensures Sweep(pts[..i + 1], begin, z, duration)
         == Sweep(pts[..i], begin, z, duration)
            + [Moved(StepTo(if i == 0 then begin else pts[i - 1], pts[i])), Recorded(duration, Vec3(pts[i].x, pts[i].y, z))]
    ensures before + Sweep(pts[..i + 1], begin, z, duration) <= plan
  {
    assert pts[..i + 1][..i] == pts[..i];
    SweepPrefix(pts, i + 1, begin, z, duration);
    var a := Sweep(pts[..i + 1], begin, z, duration);
    var b := Sweep(pts, begin, z, duration);
    assert before + a == (before + b)[..|before| + |a|];
  }

  /** Regrouping three event sequences; the sweep loop calls it to keep its invariant step small. */
  lemma AppendAssoc(a: seq<Event>, b: seq<Event>, c: seq<Event>)
    ensures (a + b) + c == a + (b + c)
  {
  }

  /** A lattice plan is its sweep followed by the return move. */
  lemma LatticePlanParts(begin: Point, end: Point, res: nat, duration: real, pts: seq<Point>, back: Event, plan: seq<Event>)
    requires pts == Offsets(Point(end.x - begin.x, end.y - begin.y), res)
    requires back == Moved(Disp(Some(-(end.x - begin.x)), Some(-(end.y - begin.y)), None))
    requires plan == LatticePlan(begin, end, res, duration)
    ensures [] + Sweep(pts, begin, 0.0, duration) <= plan
    ensures Sweep(pts, begin, 0.0, duration) + [back] == plan
  {
  }

  /** A prism plan is its layers followed by the final z return. */
  lemma PrismPlanParts(begin: Vec3, end: Vec3, res: nat, resZ: nat, duration: real, layers: seq<Event>, down: Event, plan: seq<Event>)
    requires layers == Layers(Linspace(0.0, end.z - begin.z, resZ), Offsets(Point(end.x - begin.x, end.y - begin.y), res),
                              Point(begin.x, begin.y), Point(end.x - begin.x, end.y - begin.y), LayerStep(end.z - begin.z, resZ), duration)
    requires down == Moved(Disp(None, None, Some(-(end.z - begin.z))))
    requires plan == PrismPlan(begin, end, res, resZ, duration)
    ensures layers + [down] == plan
  {
  }

  /** Layer `k` of a prism plan: its sweep, then its two moves, all within the plan. */
  lemma {:induction false} LayerParts(zs: seq<real>, k: nat, pts: seq<Point>, begin: Point, dist: Point, step: real, duration: real,
                                      plan: seq<Event>, swept: seq<Event>, back: Event, up: Event)
    requires k < |zs| && Layers(zs, pts, begin, dist, step, duration) <= plan
    requires swept == Layers(zs[..k], pts, begin, dist, step, duration) + Sweep(pts, begin, zs[k], duration)
    requires back == Moved(Disp(Some(-dist.x), Some(-dist.y), None)) && up == Moved(Disp(None, None, Some(step)))
    ensures swept <= plan
    ensures swept + [back] <= plan
    ensures swept + [back] + [up] == Layers(zs[..k + 1], pts, begin, dist, step, duration)
    ensures swept + [back] + [up] <= plan
  {
    assert zs[..k + 1][..k] == zs[..k];
    LayersPrefix(zs, k + 1, pts, begin, dist, step, duration);
  }

  // ---------------------------------------------------------------- the sequencer

  datatype ConnectError = NoPrinterPort | PrinterOffline

  /** Why a scan stops: a move found the printer offline, or `linspace` was asked for a negative count. */
  datatype ScanError = MoveOffline | NegativeSamples

  class Scanner {
    const printer: PrinterPort.Printer
    /** The printer's answer to its n-th `online()` query. */
    const online: nat -> bool
    /** `online()` queries made so far. */
    var polls: nat
    /** Moves sent to the printer and recordings asked of the microphone, in order. */
    ghost var trace: seq<Event>

    constructor (printer: PrinterPort.Printer, online: nat -> bool)
      ensures this.printer == printer && this.online == online
      ensures polls == 0 && trace == []
    {
      this.printer := printer;
      this.online := online;
      polls := 0;
      trace := [];
    }

    /**
     * `Scanner.__init__`: open the printer on the requested or first candidate port, then refuse
     * a printer that does not answer `online()`.
     */
    static method Connect(serial: Option<string>, glob: string -> seq<string>, online: nat -> bool)
      returns (r: Result<Scanner, ConnectError>)
      ensures PrinterPort.ChooseSerial(serial, PrinterPort.Candidates(glob)).Failure? ==> r == Failure(NoPrinterPort)
      ensures PrinterPort.ChooseSerial(serial, PrinterPort.Candidates(glob)).Success? && !online(0) ==> r == Failure(PrinterOffline)
      ensures r.Success? <==> PrinterPort.ChooseSerial(serial, PrinterPort.Candidates(glob)).Success? && online(0)
      ensures r.Success? ==> && fresh(r.value) && r.value.online == online && r.value.polls == 1 && r.value.trace == []
                             && r.value.printer.serial == PrinterPort.ChooseSerial(serial, PrinterPort.Candidates(glob)).value
    {
      var p := PrinterPort.Printer.Open(serial, glob);
      if p.Failure? {
        return Failure(NoPrinterPort);
      }
      var s := new Scanner(p.value, online);
      var up := s.Online();
      if !up {
        return Failure(PrinterOffline);
      }
      return Success(s);
    }

    /** `self.p.online()`. */
    method Online() returns (up: bool)
      modifies this
      ensures up == online(old(polls)) && polls == old(polls) + 1 && trace == old(trace)
    {
      up := online(polls);
      polls := polls + 1;
    }

    /** `Scanner.move`: raises, issuing nothing, unless the printer reports itself online. */
    method Move(x: Option<real>, y: Option<real>, z: Option<real>) returns (ok: bool)
      modifies this
      ensures ok == online(old(polls)) && polls == old(polls) + 1
      ensures trace == if ok then old(trace) + [Moved(Disp(x, y, z))] else old(trace)
    {
      ok := Online();
      if ok {
        trace := trace + [Moved(Disp(x, y, z))];
      }
    }

    /** `self.mic.record_to_file(record_time, fname)` with `fname` naming the tag. */
    method Record(duration: real, tag: Vec3)
      modifies this
      ensures trace == old(trace) + [Recorded(duration, tag)] && polls == old(polls)
    {
      trace := trace + [Recorded(duration, tag)];
    }

    /** One point of a sweep: move from `prev` to `p`, then record there. */
    method Visit(prev: Point, p: Point, z: real, duration: real, ghost base: seq<Event>, ghost done: seq<Event>,
                 ghost plan: seq<Event>, ghost first: nat)
      returns (ok: bool)
      requires trace == base + done
      requires Execute(done, online, first) == Run(done, polls, true)
      requires done + [Moved(StepTo(prev, p)), Recorded(duration, Vec3(p.x, p.y, z))] <= plan
      modifies this
      ensures var next := done + [Moved(StepTo(prev, p)), Recorded(duration, Vec3(p.x, p.y, z))];
              && (ok ==> Execute(next, online, first) == Run(next, polls, true) && trace == base + next)
              && (!ok ==> Execute(plan, online, first) == Run(done, polls, false) && trace == base + done)
    {
      var mv := Moved(StepTo(prev, p));
      var rec := Recorded(duration, Vec3(p.x, p.y, z));
      assert done + [mv] <= plan by {
        assert (done + [mv, rec])[..|done| + 1] == done + [mv];
      }
      ok := Issue(StepTo(prev, p), base, done, plan, first);
      if !ok {
        return;
      }
      Note(duration, Vec3(p.x, p.y, z), base, done + [mv], first);
      assert done + [mv] + [rec] == done + [mv, rec];
    }

    /** A recording right after `done`: it needs no query, so the run goes on. */
    method Note(duration: real, tag: Vec3, ghost base: seq<Event>, ghost done: seq<Event>, ghost first: nat)
      requires trace == base + done
      requires Execute(done, online, first) == Run(done, polls, true)
      modifies this
      ensures var next := done + [Recorded(duration, tag)];
              Execute(next, online, first) == Run(next, polls, true) && trace == base + next
    {
      Record(duration, tag);
      ExecuteSnoc(done, Recorded(duration, tag), online, first);
      assert base + done + [Recorded(duration, tag)] == base + (done + [Recorded(duration, tag)]);
    }

    /** A single move that is part of `plan`, right after `done`. */
    method Issue(d: Disp, ghost base: seq<Event>, ghost done: seq<Event>, ghost plan: seq<Event>, ghost first: nat)
      returns (ok: bool)
      requires trace == base + done
      requires Execute(done, online, first) == Run(done, polls, true)
      requires done + [Moved(d)] <= plan
      modifies this
      ensures ok ==> Execute(done + [Moved(d)], online, first) == Run(done + [Moved(d)], polls, true)
                     && trace == base + (done + [Moved(d)])
      ensures !ok ==> Execute(plan, online, first) == Run(done, polls, false) && trace == base + done
    {
      ok := Move(d.x, d.y, d.z);
      ExecuteSnoc(done, Moved(d), online, first);
      if !ok {
        ExecuteStopped(done + [Moved(d)], plan, online, first);
      } else {
        assert base + done + [Moved(d)] == base + (done + [Moved(d)]);
      }
    }

    /**
     * The point loop shared by both scans: starting at `begin`, move to each point in turn and
     * record there, tagged with height `z`. `issued` is what this call added to the trace.
     */
    method SweepPoints(pts: seq<Point>, begin: Point, z: real, duration: real,
                       ghost base: seq<Event>, ghost before: seq<Event>, ghost plan: seq<Event>, ghost first: nat)
      returns (ok: bool, ghost issued: seq<Event>)
      requires trace == base + before
      requires Execute(before, online, first) == Run(before, polls, true)
      requires before + Sweep(pts, begin, z, duration) <= plan
      modifies this
      ensures trace == base + issued
      ensures ok ==> issued == before + Sweep(pts, begin, z, duration) && Execute(issued, online, first) == Run(issued, polls, true)
      ensures !ok ==> Execute(plan, online, first) == Run(issued, polls, false)
    {
      var previous := begin;
      var i := 0;
      issued := before;
      assert pts[..0] == [];
      assert before + Sweep(pts[..0], begin, z, duration) == before;
      while i < |pts|
        invariant 0 <= i <= |pts|
        invariant previous == if i == 0 then begin else pts[i - 1]
        invariant issued == before + Sweep(pts[..i], begin, z, duration)
        invariant trace == base + issued
        invariant Execute(issued, online, first) == Run(issued, polls, true)
      {
        var p := pts[i];
        SweepVisit(pts, i, begin, z, duration, before, plan);
        ghost var pair := [Moved(StepTo(previous, p)), Recorded(duration, Vec3(p.x, p.y, z))];
        assert Sweep(pts[..i + 1], begin, z, duration) == Sweep(pts[..i], begin, z, duration) + pair;
        AppendAssoc(before, Sweep(pts[..i], begin, z, duration), pair);
        ok := Visit(previous, p, z, duration, base, issued, plan, first);
        if !ok {
          return;
        }
        issued := issued + pair;
        previous := p;
        i := i + 1;
      }
      assert pts[..i] == pts;
      ok := true;
    }

    /**
     * `scan_rectangular_lattice`: a negative resolution is refused by `linspace` before any move;
     * otherwise the trace grows by exactly what executing the lattice plan against the printer's
     * answers issues, and the scan succeeds iff no move was refused.
     */
    method ScanRectangularLattice(begin: Point, end: Point, res: int, recordTime: real) returns (r: Result<(), ScanError>)
      modifies this
      ensures res < 0 ==> r == Failure(NegativeSamples) && trace == old(trace) && polls == old(polls)
      ensures res >= 0 ==>
                var x := Execute(LatticePlan(begin, end, res, recordTime), online, old(polls));
                && trace == old(trace) + x.issued && polls == x.polls
                && (r.Success? <==> x.ok) && (r.Failure? ==> r.error == MoveOffline)
    {
      if res < 0 {
        return Failure(NegativeSamples);
      }
      var distX := end.x - begin.x;
      var distY := end.y - begin.y;
      var scanPoints := Offsets(Point(distX, distY), res);
      ghost var plan := LatticePlan(begin, end, res, recordTime);
      ghost var back := Moved(Disp(Some(-distX), Some(-distY), None));
      LatticePlanParts(begin, end, res, recordTime, scanPoints, back, plan);
      ghost var base := trace;
      ghost var swept;
      assert trace == base + [];
      var ok;
      ok, swept := SweepPoints(scanPoints, begin, 0.0, recordTime, base, [], plan, polls);
      if !ok {
        return Failure(MoveOffline);
      }
      assert swept == Sweep(scanPoints, begin, 0.0, recordTime);
      ok := Issue(Disp(Some(-distX), Some(-distY), None), base, swept, plan, old(polls));
      r := if ok then Success(()) else Failure(MoveOffline);
    }

    /** One layer of the prism scan: the sweep at height `z`, the x/y return, then the z step `rise`. */
    method ScanLayer(pts: seq<Point>, start: Point, z: real, distX: real, distY: real, rise: real, duration: real,
                     ghost base: seq<Event>, ghost before: seq<Event>, ghost plan: seq<Event>, ghost first: nat)
      returns (ok: bool, ghost issued: seq<Event>)
      requires trace == base + before
      requires Execute(before, online, first) == Run(before, polls, true)
      requires before + Sweep(pts, start, z, duration) + [Moved(Disp(Some(-distX), Some(-distY), None))]
               + [Moved(Disp(None, None, Some(rise)))] <= plan
      modifies this
      ensures trace == base + issued
      ensures ok ==> issued == before + Sweep(pts, start, z, duration) + [Moved(Disp(Some(-distX), Some(-distY), None))]
                               + [Moved(Disp(None, None, Some(rise)))]
                     && Execute(issued, online, first) == Run(issued, polls, true)
      ensures !ok ==> Execute(plan, online, first) == Run(issued, polls, false)
    {
      ghost var back := Moved(Disp(Some(-distX), Some(-distY), None));
      ghost var swept := before + Sweep(pts, start, z, duration);
      assert swept + [back] <= plan && swept <= plan;
      ok, issued := SweepPoints(pts, start, z, duration, base, before, plan, first);
      if !ok {
        return;
      }
      ok := Issue(Disp(Some(-distX), Some(-distY), None), base, swept, plan, first);
      if !ok {
        return;
      }
      issued := swept + [back];
      ok := Issue(Disp(None, None, Some(rise)), base, issued, plan, first);
      if ok {
        issued := issued + [Moved(Disp(None, None, Some(rise)))];
      }
    }

    /**
     * `scan_rectangular_prism`: `linspace` refuses a negative `resolution_z` at once, and a negative
     * `resolution` at the first layer, before any move; with no layer the lattice count is never
     * used. Otherwise, as for the lattice, against the prism plan.
     */
    method ScanRectangularPrism(begin: Vec3, end: Vec3, res: int, resZ: int, recordTime: real)
      returns (r: Result<(), ScanError>)
      modifies this
      ensures resZ < 0 || (resZ > 0 && res < 0) ==>
                r == Failure(NegativeSamples) && trace == old(trace) && polls == old(polls)
      ensures resZ == 0 || (resZ > 0 && res >= 0) ==>
                var x := Execute(PrismPlan(begin, end, if res >= 0 then res else 0, resZ, recordTime), online, old(polls));
                && trace == old(trace) + x.issued && polls == x.polls
                && (r.Success? <==> x.ok) && (r.Failure? ==> r.error == MoveOffline)
    {
      if resZ < 0 || (resZ > 0 && res < 0) {
        return Failure(NegativeSamples);
      }
      var ok := ScanLayers(begin, end, if res >= 0 then res else 0, resZ, recordTime);
      r := if ok then Success(()) else Failure(MoveOffline);
    }

    /**
     * The layers of the prism scan once both counts are usable: one lattice sweep per z layer, each
     * followed by the x/y return and a z step, then the final z return.
     */
    method ScanLayers(begin: Vec3, end: Vec3, res: nat, resZ: nat, recordTime: real) returns (ok: bool)
      modifies this
      ensures var x := Execute(PrismPlan(begin, end, res, resZ, recordTime), online, old(polls));
              trace == old(trace) + x.issued && polls == x.polls && ok == x.ok
    {
      var distX := end.x - begin.x;
      var distY := end.y - begin.y;
      var distZ := end.z - begin.z;
      var start := Point(begin.x, begin.y);
      ghost var dist := Point(distX, distY);
      ghost var step := LayerStep(distZ, resZ);
      ghost var plan := PrismPlan(begin, end, res, resZ, recordTime);
      ghost var base := trace;
      ghost var p0 := polls;
      var zs := Linspace(0.0, distZ, resZ);
      ghost var pts := Offsets(dist, res);
      ghost var all := Layers(zs, pts, start, dist, step, recordTime);
      ghost var down := Moved(Disp(None, None, Some(-distZ)));
      PrismPlanParts(begin, end, res, resZ, recordTime, all, down, plan);
      var k := 0;
      assert zs[..0] == [];
      while k < |zs|
        invariant 0 <= k <= |zs|
        invariant trace == base + Layers(zs[..k], pts, start, dist, step, recordTime)
        invariant Execute(Layers(zs[..k], pts, start, dist, step, recordTime), online, p0)
               == Run(Layers(zs[..k], pts, start, dist, step, recordTime), polls, true)
      {
        var z := zs[k];
        var scanPoints := Offsets(Point(distX, distY), res);
        ghost var before := Layers(zs[..k], pts, start, dist, step, recordTime);
        LayerParts(zs, k, pts, start, dist, step, recordTime, plan, before + Sweep(pts, start, z, recordTime),
                   Moved(Disp(Some(-distX), Some(-distY), None)), Moved(Disp(None, None, Some(distZ / (resZ as real)))));
        ghost var issued;
        ok, issued := ScanLayer(scanPoints, start, z, distX, distY, distZ / (resZ as real), recordTime, base, before, plan, p0);
        if !ok {
          return;
        }
        k := k + 1;
      }
      assert zs[..k] == zs;
      ok := Issue(Disp(None, None, Some(-distZ)), base, all, plan, p0);
    }
  }
}
