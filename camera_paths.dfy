/** The scripted camera of the visualisation user functions: the camera paths
    read from the configuration, and the choice, at each new simulation clock,
    of the path whose time span holds the clock.

    Interpolating the camera position, target and up vector along the chosen
    path is floating-point geometry and stays outside the model: the choice of
    path and the time elapsed on it are what the model computes. */
module CameraPaths {
  import opened Base

  /** The largest camera index the visualisation has (12 cameras, 0 to 11). */
  const MAX_CAMERA_INDEX: UInt32 := 11

  /** The anchor a path may be expressed relative to (`const SAnchor*`). */
  datatype AnchorRef = AnchorRef(entityId: string, anchorId: string)

  /** `SCameraPath`. The C++ struct also declares `StartFocalLength` and
      `EndFocalLength`, but its constructor never initialises them, so they hold
      no value the program chose and are not part of the model. */
  datatype CameraPath = CameraPath(
    duration: UInt32,
    startPosition: Vec3, endPosition: Vec3,
    startLookAt: Vec3, endLookAt: Vec3,
    startUp: Vec3, endUp: Vec3,
    relativeToAnchor: Option<AnchorRef>)

  /** `SCameraPath`'s constructor, with its default arguments. */
  function NewCameraPath(duration: UInt32, startFocalLength: UInt32, endFocalLength: UInt32,
                         startPosition: Vec3, endPosition: Vec3, startLookAt: Vec3, endLookAt: Vec3,
                         startUp: Vec3 := ZERO, endUp: Vec3 := ZERO,
                         relativeToAnchor: Option<AnchorRef> := None): (p: CameraPath)
    ensures p.duration == duration
    ensures p.startPosition == startPosition && p.endPosition == endPosition
    ensures p.startLookAt == startLookAt && p.endLookAt == endLookAt
    ensures p.startUp == startUp && p.endUp == endUp && p.relativeToAnchor == relativeToAnchor
  {
    CameraPath(duration, startPosition, endPosition, startLookAt, endLookAt, startUp, endUp, relativeToAnchor)
  }

  /** The up vectors default to zero and the anchor to none. */
  lemma CameraPathDefaults(d: UInt32, f1: UInt32, f2: UInt32, sp: Vec3, ep: Vec3, sl: Vec3, el: Vec3)
    ensures var p := NewCameraPath(d, f1, f2, sp, ep, sl, el);
      p.startUp == ZERO && p.endUp == ZERO && p.relativeToAnchor == None
  {
  }

  /** The focal lengths are accepted and dropped: paths built with different
      focal lengths are the same path. */
  lemma FocalLengthsIgnored(d: UInt32, f1: UInt32, f2: UInt32, g1: UInt32, g2: UInt32,
                            sp: Vec3, ep: Vec3, sl: Vec3, el: Vec3, su: Vec3, eu: Vec3, a: Option<AnchorRef>)
    ensures NewCameraPath(d, f1, f2, sp, ep, sl, el, su, eu, a) == NewCameraPath(d, g1, g2, sp, ep, sl, el, su, eu, a)
  {
  }

  /** The `start` or `end` child of a `path` node, already parsed; `up` is optional. */
  datatype PathEnd = PathEnd(position: Vec3, lookAt: Vec3, up: Option<Vec3>, lensFocalLength: UInt32)

  /** A `path` node, already parsed. */
  datatype PathNode = PathNode(duration: UInt32, start: PathEnd, end: PathEnd)

  /** The `camera_paths` node, already parsed: `use_camera` and the `path`
      children in document order. */
  datatype CameraPathsNode = CameraPathsNode(useCamera: UInt32, paths: seq<PathNode>)

  datatype InitResult = Ok | UseCameraOutOfRange

  /** The up vector in force after reading the first `n` nodes: `Init` keeps one
      up variable across the whole loop and passes its current value as the
      default, so a path without `up` inherits the last one given. */
  function LastGiven(ups: seq<Option<Vec3>>, n: nat): Vec3
    requires n <= |ups|
  {
    if n == 0 then ZERO else ups[n - 1].GetOr(LastGiven(ups, n - 1))
  }

  /** `LastGiven` is the most recent `up` given among the first `n`, or zero
      when none was. */
  lemma {:induction false} LastGivenIsLatest(ups: seq<Option<Vec3>>, n: nat)
    requires n <= |ups|
    ensures (forall j :: 0 <= j < n ==> ups[j].None?) ==> LastGiven(ups, n) == ZERO
    ensures forall j :: 0 <= j < n && ups[j].Some? && (forall k :: j < k < n ==> ups[k].None?) ==>
      LastGiven(ups, n) == ups[j].value
  {
    if n > 0 {
      LastGivenIsLatest(ups, n - 1);
    }
  }

  function StartUps(nodes: seq<PathNode>): (ups: seq<Option<Vec3>>)
    ensures |ups| == |nodes| && forall i :: 0 <= i < |nodes| ==> ups[i] == nodes[i].start.up
  {
    seq(|nodes|, i requires 0 <= i < |nodes| => nodes[i].start.up)
  }

  function EndUps(nodes: seq<PathNode>): (ups: seq<Option<Vec3>>)
    ensures |ups| == |nodes| && forall i :: 0 <= i < |nodes| ==> ups[i] == nodes[i].end.up
  {
    seq(|nodes|, i requires 0 <= i < |nodes| => nodes[i].end.up)
  }

  /** The path `Init` builds from node `i`. */
  function PathFor(nodes: seq<PathNode>, i: nat): CameraPath
    requires i < |nodes|
  {
    var n := nodes[i];
    NewCameraPath(n.duration, n.start.lensFocalLength, n.end.lensFocalLength,
                  n.start.position, n.end.position, n.start.lookAt, n.end.lookAt,
                  LastGiven(StartUps(nodes), i + 1), LastGiven(EndUps(nodes), i + 1))
  }

  /** The paths `Init` builds, one per node. */
  function BuildPaths(nodes: seq<PathNode>): seq<CameraPath> {
    seq(|nodes|, i requires 0 <= i < |nodes| => PathFor(nodes, i))
  }

  /** One path per `path` node, in document order, with the node's duration,
      positions and look-at points, and the node's own up vectors where given. */
  lemma BuildPathsInOrder(nodes: seq<PathNode>)
    ensures |BuildPaths(nodes)| == |nodes|
    ensures forall i :: 0 <= i < |nodes| ==>
      var p := BuildPaths(nodes)[i];
      && p.duration == nodes[i].duration
      && p.startPosition == nodes[i].start.position && p.endPosition == nodes[i].end.position
      && p.startLookAt == nodes[i].start.lookAt && p.endLookAt == nodes[i].end.lookAt
      && (nodes[i].start.up.Some? ==> p.startUp == nodes[i].start.up.value)
      && (nodes[i].end.up.Some? ==> p.endUp == nodes[i].end.up.value)
      && p.relativeToAnchor == None
  {
  }

  /** The sum of the first `n` durations. */
  function PrefixSum(ds: seq<UInt32>, n: nat): nat
    requires n <= |ds|
  {
    if n == 0 then 0 else PrefixSum(ds, n - 1) + ds[n - 1]
  }

  lemma {:induction false} PrefixSumMonotone(ds: seq<UInt32>, m: nat, n: nat)
    requires m <= n <= |ds|
    ensures PrefixSum(ds, m) <= PrefixSum(ds, n)
    decreases n
  {
    if m < n {
      PrefixSumMonotone(ds, m, n - 1);
    }
  }

  lemma WrapAdd(a: int, b: int)
    ensures Wrap32(Wrap32(a) + b) == Wrap32(a + b)
  {
    var q := a / TWO_POW_32;
    assert a == q * TWO_POW_32 + Wrap32(a);
    assert a + b == (Wrap32(a) + b) + q * TWO_POW_32;
  }

  /** The running total `DrawInWorld` keeps, in `UInt32`, of the durations
      before path `i`. */
  function Before(ds: seq<UInt32>, i: nat): UInt32
    requires i <= |ds|
  {
    Wrap32(PrefixSum(ds, i))
  }

  /** The running total up to and including path `i`, in `UInt32`. */
  function Through(ds: seq<UInt32>, i: nat): UInt32
    requires i < |ds|
  {
    Wrap32(PrefixSum(ds, i + 1))
  }

  /** The path chosen for a clock, and the clock minus the durations before it. */
  datatype Selection = Selection(path: nat, elapsed: UInt32)

  /** The search of `DrawInWorld` from path `i` on: a path is skipped while the
      running total through it stays below the clock. */
  function SelectPath(ds: seq<UInt32>, clock: UInt32, i: nat): Option<Selection>
    requires i <= |ds|
    decreases |ds| - i
  {
    if i == |ds| then None
    else if Through(ds, i) < clock then SelectPath(ds, clock, i + 1)
    else Some(Selection(i, Wrap32(clock - Before(ds, i))))
  }

  /** What the search returns, as written, wrap-around included: the first path
      whose running total reaches the clock, and the clock minus the running
      total before it, which never wraps; or nothing when every running total
      stays below the clock. */
  lemma {:induction false} SelectPathFrom(ds: seq<UInt32>, clock: UInt32, i: nat)
    requires i <= |ds|
    requires i == 0 || Before(ds, i) < clock
    ensures var r := SelectPath(ds, clock, i);
      && (r.Some? ==> i <= r.value.path < |ds| && clock <= Through(ds, r.value.path))
      && (r.Some? ==> forall j :: i <= j < r.value.path ==> Through(ds, j) < clock)
      && (r.Some? ==> Before(ds, r.value.path) <= clock)
      && (r.Some? ==> r.value.elapsed == clock - Before(ds, r.value.path))
      && (r.None? <==> forall j :: i <= j < |ds| ==> Through(ds, j) < clock)
    decreases |ds| - i
  {
    if i < |ds| && Through(ds, i) < clock {
      SelectPathFrom(ds, clock, i + 1);
    }
  }

  /** Without overflow the `UInt32` running totals are the true prefix sums. */
  lemma NoWrap(ds: seq<UInt32>, j: nat)
    requires PrefixSum(ds, |ds|) < TWO_POW_32
    requires j <= |ds|
    ensures Before(ds, j) == PrefixSum(ds, j)
    ensures j < |ds| ==> Through(ds, j) == PrefixSum(ds, j) + ds[j]
  {
    PrefixSumMonotone(ds, j, |ds|);
    if j < |ds| {
      PrefixSumMonotone(ds, j + 1, |ds|);
    }
  }

  /** When the total duration fits in a `UInt32`, the chosen path is the first
      `i` whose preceding durations plus its own reach the clock; the clock minus
      the preceding durations lies in [0, duration]; and no path is chosen exactly
      when there is none or the clock is beyond the total. */
  lemma SelectPathByPrefixSums(ds: seq<UInt32>, clock: UInt32)
    requires PrefixSum(ds, |ds|) < TWO_POW_32
    ensures var r := SelectPath(ds, clock, 0);
      && (r.Some? ==> r.value.path < |ds| && clock <= PrefixSum(ds, r.value.path) + ds[r.value.path])
      && (r.Some? ==> forall j :: 0 <= j < r.value.path ==> PrefixSum(ds, j) + ds[j] < clock)
      && (r.Some? ==> r.value.elapsed == clock - PrefixSum(ds, r.value.path) <= ds[r.value.path])
      && (r.None? <==> |ds| == 0 || PrefixSum(ds, |ds|) < clock)
  {
    SelectPathFrom(ds, clock, 0);
    var r := SelectPath(ds, clock, 0);
    if r.Some? {
      var i := r.value.path;
      NoWrap(ds, i);
      forall j | 0 <= j < i
        ensures PrefixSum(ds, j) + ds[j] < clock
      {
        NoWrap(ds, j);
      }
      NoWrap(ds, |ds|);
      if PrefixSum(ds, |ds|) < clock {
        PrefixSumMonotone(ds, i + 1, |ds|);
      }
    } else if |ds| > 0 {
      NoWrap(ds, |ds| - 1);
      assert Through(ds, |ds| - 1) < clock;
    }
  }

  /** A path of zero duration is only ever chosen as the first path at clock 0,
      the one case where the time fraction divides 0 by 0. */
  lemma ZeroDurationChosenOnlyAtStart(ds: seq<UInt32>, clock: UInt32)
    ensures var r := SelectPath(ds, clock, 0);
      r.Some? ==> r.value.path < |ds| && (ds[r.value.path] == 0 ==> r.value.path == 0 && clock == 0)
  {
    SelectPathFrom(ds, clock, 0);
    var r := SelectPath(ds, clock, 0);
    if r.Some? && ds[r.value.path] == 0 {
      var i := r.value.path;
      assert Through(ds, i) == Before(ds, i);
      assert i > 0 ==> Through(ds, i - 1) < clock;
    }
  }

  /** The path-finding loop of `DrawInWorld`. */
  method FindCameraPath(ds: seq<UInt32>, clock: UInt32) returns (r: Option<Selection>)
    ensures r == SelectPath(ds, clock, 0)
  {
    var previous: UInt32 := 0;
    var i := 0;
    while i < |ds|
      invariant 0 <= i <= |ds|
      invariant previous == Before(ds, i)
      invariant SelectPath(ds, clock, 0) == SelectPath(ds, clock, i)
    {
      WrapAdd(PrefixSum(ds, i), ds[i]);
      if Wrap32(previous + ds[i]) < clock {
        previous := Wrap32(previous + ds[i]);
        i := i + 1;
      } else {
        return Some(Selection(i, Wrap32(clock - previous)));
      }
    }
    return None;
  }

  function Durations(paths: seq<CameraPath>): (ds: seq<UInt32>)
    ensures |ds| == |paths| && forall i :: 0 <= i < |paths| ==> ds[i] == paths[i].duration
  {
    seq(|paths|, i requires 0 <= i < |paths| => paths[i].duration)
  }

  /** The camera state of `CDIQtOpenGLUserFunctions`. */
  class UserFunctions {
    var cameraPaths: seq<CameraPath>
    var cameraIndex: UInt32
    var lastSimulationClock: UInt32

    /** No paths, camera 0, and a last clock of `UInt32(-1)`. */
    constructor ()
      ensures cameraPaths == [] && cameraIndex == 0 && lastSimulationClock == UINT32_MAX
    {
      cameraPaths := [];
      cameraIndex := 0;
      lastSimulationClock := UINT32_MAX;
    }

    /** Reads `camera_paths`, if present: the camera index, rejected when above
        11 before any path is read, then one path per `path` child. */
    method Init(config: Option<CameraPathsNode>) returns (result: InitResult)
      modifies this`cameraPaths, this`cameraIndex
      ensures config.None? ==> result == Ok && cameraIndex == old(cameraIndex) && cameraPaths == old(cameraPaths)
      ensures config.Some? ==> cameraIndex == config.value.useCamera
      ensures config.Some? && config.value.useCamera > MAX_CAMERA_INDEX ==>
        result == UseCameraOutOfRange && cameraPaths == old(cameraPaths)
      ensures config.Some? && config.value.useCamera <= MAX_CAMERA_INDEX ==>
        result == Ok && cameraPaths == old(cameraPaths) + BuildPaths(config.value.paths)
    {
      if config.None? {
        return Ok;
      }
      cameraIndex := config.value.useCamera;
      if cameraIndex > 11 {
        return UseCameraOutOfRange;
      }
      var nodes := config.value.paths;
      var startUp, endUp := ZERO, ZERO;
      for i := 0 to |nodes|
        invariant cameraIndex == config.value.useCamera
        invariant cameraPaths == old(cameraPaths) + BuildPaths(nodes)[..i]
        invariant startUp == LastGiven(StartUps(nodes), i) && endUp == LastGiven(EndUps(nodes), i)
      {
        var n := nodes[i];
        startUp := n.start.up.GetOr(startUp);
        endUp := n.end.up.GetOr(endUp);
        cameraPaths := cameraPaths + [NewCameraPath(n.duration, n.start.lensFocalLength, n.end.lensFocalLength,
                                                    n.start.position, n.end.position, n.start.lookAt, n.end.lookAt,
                                                    startUp, endUp)];
        assert BuildPaths(nodes)[..i + 1] == BuildPaths(nodes)[..i] + [PathFor(nodes, i)];
      }
      assert BuildPaths(nodes)[..|nodes|] == BuildPaths(nodes);
      return Ok;
    }

    /** Recomputes the camera only when the clock has moved since the last call:
        it records the clock and chooses the path for it; `selection` is what
        the camera `cameraIndex` is then set from, nothing when no path is chosen. */
    method DrawInWorld(clock: UInt32) returns (selection: Option<Selection>)
      modifies this`lastSimulationClock
      ensures lastSimulationClock == clock
      ensures old(lastSimulationClock) == clock ==> selection == None
      ensures old(lastSimulationClock) != clock ==> selection == SelectPath(Durations(cameraPaths), clock, 0)
    {
      selection := None;
      if lastSimulationClock != clock {
        lastSimulationClock := clock;
        selection := FindCameraPath(Durations(cameraPaths), clock);
      }
    }
  }

  /** Drawing twice at one clock recomputes the camera at most once. */
  method DrawTwice(uf: UserFunctions, clock: UInt32) returns (first: Option<Selection>, second: Option<Selection>)
    modifies uf`lastSimulationClock
    ensures second == None
    ensures uf.lastSimulationClock == clock
  {
    first := uf.DrawInWorld(clock);
    second := uf.DrawInWorld(clock);
  }
}
