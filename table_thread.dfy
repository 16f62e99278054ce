/**
 * TouchTableThread without its pixel work and its thread loop: the 4-point calibration quad with its
 * pick-and-drag editing, the homography derived from it, the segmentation parameters, and the
 * per-frame contour message with the connected flag of the outbound socket.
 */
module TableThread {
  import opened Optional
  import opened Geometry
  import opened ContourWire

  /** A 3x3 perspective matrix, row by row. */
  type Matrix = seq<real>

  const Identity3: Matrix := [1.0, 0.0, 0.0, 0.0, 1.0, 0.0, 0.0, 0.0, 1.0]

  /**
   * cv::getPerspectiveTransform from a source onto a destination quad. Its arithmetic is not
   * modelled: a thread is built over any such function, so nothing is known about the matrices it
   * gives beyond which quads they were computed from.
   */
  type PerspectiveSolver = (seq<Vec2>, seq<Vec2>) -> Matrix

  /** The frame corners in the order top-left, top-right, bottom-right, bottom-left. */
  function Corners(w: int, h: int): seq<Vec2> {
    [Vec2(0.0, 0.0), Vec2((w - 1) as real, 0.0), Vec2((w - 1) as real, (h - 1) as real), Vec2(0.0, (h - 1) as real)]
  }

  /** The settings setParam forwards to the rect tracker. */
  const TrackerPersistence: int := 30
  const TrackerMaximumDistance: real := 60.0

  function Dist2(p: Vec2, c: Vec2): real {
    Norm2(Sub(p, c))
  }

  /** k is the lowest index attaining the least distance from c to the points. */
  predicate IsFirstNearest(pts: seq<Vec2>, c: Vec2, k: int) {
    && 0 <= k < |pts|
    && (forall j :: 0 <= j < |pts| ==> Dist2(pts[k], c) <= Dist2(pts[j], c))
    && (forall j :: 0 <= j < k ==> Dist2(pts[j], c) > Dist2(pts[k], c))
  }

  /** The index pickClosestPoint settles on: a left-to-right scan that moves only on a strictly closer point. */
  function Nearest(pts: seq<Vec2>, c: Vec2): (k: nat)
    requires |pts| > 0
    ensures IsFirstNearest(pts, c, k)
    decreases |pts|
  {
    if |pts| == 1 then 0
    else
      var n := |pts| - 1;
      var k := Nearest(pts[..n], c);
      assert forall j :: 0 <= j < n ==> pts[..n][j] == pts[j];
      if Dist2(pts[k], c) > Dist2(pts[n], c) then n else k
  }

  /** At most one index is the first nearest. */
  lemma FirstNearestUnique(pts: seq<Vec2>, c: Vec2, k1: int, k2: int)
    requires IsFirstNearest(pts, c, k1) && IsFirstNearest(pts, c, k2)
    ensures k1 == k2
  {
    assert Dist2(pts[k1], c) <= Dist2(pts[k2], c) && Dist2(pts[k2], c) <= Dist2(pts[k1], c);
  }

  /** The quad after dragging: the picked point, if any, goes to cursor + offset and nothing else moves. */
  function Moved(pts: seq<Vec2>, picked: int, cursor: Vec2, offset: Vec2): (r: seq<Vec2>)
    requires picked < |pts|
    ensures |r| == |pts|
    ensures forall j :: 0 <= j < |pts| && j != picked ==> r[j] == pts[j]
    ensures picked > -1 ==> r[picked] == Add(cursor, offset)
  {
    if picked > -1 then pts[picked := Add(cursor, offset)] else pts
  }

  /** Dragging to the cursor that made the pick leaves the quad as it was. */
  lemma MoveAtPickCursorKeepsQuad(pts: seq<Vec2>, c: Vec2)
    requires |pts| > 0
    ensures var k := Nearest(pts, c); Moved(pts, k, c, Sub(pts[k], c)) == pts
  {
  }

  /** Remembers whether the cursor distance so far is still the initial INFINITY. */
  datatype Bound = Infinite | Finite(value: real)

  predicate Exceeds(b: Bound, d: real) {
    b.Infinite? || b.value > d
  }

  class TableThread {
    var w: int
    var h: int
    var minAreaRadius: real
    var maxAreaRadius: real
    var gamma: real
    var threshold: real
    /** The persistence and maximum distance last given to the rect tracker. */
    var trackerPersistence: int
    var trackerMaximumDistance: real
    /** The source quad (pts_src), read directly by the application. */
    var ptsSrc: seq<Vec2>
    var isCalibMode: bool
    var pickedCircle: int
    var pickOffset: Vec2
    var perspectiveMat: Matrix
    var socketConnected: bool
    /** The perspective solver this thread computes its matrix with. */
    const solver: PerspectiveSolver

    /** Only the matrix, the (empty) quad and the zero offset are initialised; the other fields are left unassigned. */
    constructor (solve: PerspectiveSolver)
      ensures solver == solve
      ensures perspectiveMat == Identity3
      ensures ptsSrc == []
      ensures pickOffset == Vec2(0.0, 0.0)
    {
      solver := solve;
      perspectiveMat := Identity3;
      ptsSrc := [];
      pickOffset := Vec2(0.0, 0.0);
    }

    method GetWindowSize(w_: int, h_: int)
      modifies this`w, this`h
      ensures w == w_ && h == h_
    {
      w := w_;
      h := h_;
    }

    method SetParam(minAR: real, maxAR: real, th: real, gm: real)
      modifies this`minAreaRadius, this`maxAreaRadius, this`threshold, this`gamma
      modifies this`trackerPersistence, this`trackerMaximumDistance
      ensures minAreaRadius == minAR && maxAreaRadius == maxAR && threshold == th && gamma == gm
      ensures trackerPersistence == TrackerPersistence && trackerMaximumDistance == TrackerMaximumDistance
    {
      minAreaRadius := minAR;
      maxAreaRadius := maxAR;
      threshold := th;
      gamma := gm;
      trackerPersistence := TrackerPersistence;
      trackerMaximumDistance := TrackerMaximumDistance;
    }

    /** Replace the quad only when exactly 4 points are given, and then recompute the matrix against the frame corners. */
    method SetPerspective(circles: seq<Vec2>)
      modifies this`ptsSrc, this`perspectiveMat
      ensures |circles| != 4 ==> ptsSrc == old(ptsSrc) && perspectiveMat == old(perspectiveMat)
      ensures |circles| == 4 ==> ptsSrc == circles && perspectiveMat == solver(circles, Corners(w, h))
    {
      if |circles| != 4 {
        return;
      }
      ptsSrc := [];
      var src: seq<Vec2> := [];
      for i := 0 to 4
        invariant ptsSrc == circles[..i] && src == circles[..i]
      {
        ptsSrc := ptsSrc + [circles[i]];
        src := src + [circles[i]];
      }
      var dst: seq<Vec2> := [];
      dst := dst + [Vec2(0.0, 0.0)];
      dst := dst + [Vec2((w - 1) as real, 0.0)];
      dst := dst + [Vec2((w - 1) as real, (h - 1) as real)];
      dst := dst + [Vec2(0.0, (h - 1) as real)];
      assert src == circles && dst == Corners(w, h);
      // Both vectors always hold 4 points here, so the error branch of the source is never taken.
      perspectiveMat := solver(src, dst);
    }

    /** Put the quad on the frame corners and derive the matrix from it. */
    method ResetCircle()
      modifies this`ptsSrc, this`perspectiveMat
      ensures ptsSrc == Corners(w, h)
      ensures perspectiveMat == solver(Corners(w, h), Corners(w, h))
    {
      ptsSrc := [];
      ptsSrc := ptsSrc + [Vec2(0.0, 0.0)];
      ptsSrc := ptsSrc + [Vec2((w - 1) as real, 0.0)];
      ptsSrc := ptsSrc + [Vec2((w - 1) as real, (h - 1) as real)];
      ptsSrc := ptsSrc + [Vec2(0.0, (h - 1) as real)];
      SetPerspective(ptsSrc);
    }

    /** Re-commit the quad: the matrix is recomputed from the current points, which stay as they are. */
    method SetCalib()
      modifies this`ptsSrc, this`perspectiveMat
      ensures ptsSrc == old(ptsSrc)
      ensures |ptsSrc| == 4 ==> perspectiveMat == solver(ptsSrc, Corners(w, h))
      ensures |ptsSrc| != 4 ==> perspectiveMat == old(perspectiveMat)
    {
      SetPerspective(ptsSrc);
    }

    /** Set the mode; the pick is cleared only when the mode actually changes. */
    method SetCalibMode(calibMode: bool)
      modifies this`isCalibMode, this`pickedCircle
      ensures isCalibMode == calibMode
      ensures pickedCircle == if old(isCalibMode) != calibMode then -1 else old(pickedCircle)
    {
      if isCalibMode != calibMode {
        isCalibMode := calibMode;
        pickedCircle := -1;
      }
    }

    function GetCalibMode(): (calibrating: bool)
      reads this
      ensures calibrating <==> isCalibMode
    {
      isCalibMode
    }

    /** Pick the first of the 4 points nearest the cursor and remember the offset from the cursor to it. */
    method PickClosestPoint(x: int, y: int)
      requires |ptsSrc| == 4
      modifies this`pickedCircle, this`pickOffset
      ensures 0 <= pickedCircle < 4
      ensures pickedCircle == Nearest(ptsSrc, Vec2(x as real, y as real))
      ensures pickOffset == Sub(ptsSrc[pickedCircle], Vec2(x as real, y as real))
    {
      var c := Vec2(x as real, y as real);
      var cls := Infinite;
      for i := 0 to 4
        invariant i == 0 ==> cls == Infinite
        invariant 0 < i ==> 0 <= pickedCircle < i && pickedCircle == Nearest(ptsSrc[..i], c)
        invariant 0 < i ==> cls == Finite(Dist2(ptsSrc[pickedCircle], c))
        invariant 0 < i ==> pickOffset == Sub(ptsSrc[pickedCircle], c)
      {
        var v := Sub(ptsSrc[i], c);
        var d := Norm2(v);
        assert ptsSrc[..i + 1][..i] == ptsSrc[..i];
        if Exceeds(cls, d) {
          pickedCircle := i;
          cls := Finite(d);
          pickOffset := v;
        }
      }
      assert ptsSrc[..4] == ptsSrc;
    }

    /** Drag the picked point, if any, to the cursor plus the remembered offset. */
    method MoveClosestPoint(x: int, y: int)
      requires pickedCircle < |ptsSrc|
      modifies this`ptsSrc
      ensures ptsSrc == Moved(old(ptsSrc), pickedCircle, Vec2(x as real, y as real), pickOffset)
    {
      if pickedCircle > -1 {
        ptsSrc := ptsSrc[pickedCircle := Add(Vec2(x as real, y as real), pickOffset)];
      }
    }

    /** The connection attempt, whose outcome is an input; every failure path leaves the flag false. */
    method SetupSocket(connects: bool)
      modifies this`socketConnected
      ensures socketConnected == connects
    {
      socketConnected := connects;
    }

    /** Build the message with the push-back loops of the source. */
    method BuildContourMessage(contours: seq<seq<Pixel>>) returns (m: Message)
      ensures m == MessageOf(contours, w, h)
    {
      var entries: seq<ContourEntry> := [];
      for i := 0 to |contours|
        invariant entries == EntriesOf(contours[..i], w, h)
      {
        var points := contours[i];
        var vertices: seq<Vertex> := [];
        for j := 0 to |points|
          invariant vertices == VerticesOf(points[..j], w, h)
        {
          vertices := vertices + [Centred(points[j], w, h)];
          assert points[..j + 1][..j] == points[..j];
        }
        assert points[..|points|] == points;
        entries := entries + [ContourEntry(vertices)];
        assert contours[..i + 1][..i] == contours[..i];
      }
      assert contours[..|contours|] == contours;
      m := Message(entries);
    }

    /**
     * Send one frame's contours. Nothing is produced while disconnected; otherwise the text handed to
     * send() is returned, and a failed send leaves the thread disconnected.
     */
    method SendContourData(contours: seq<seq<Pixel>>, num: real -> string, sendSucceeds: bool)
      returns (sent: Option<string>)
      modifies this`socketConnected
      ensures !old(socketConnected) ==> sent == None && !socketConnected
      ensures old(socketConnected) ==> sent == Some(Frame(MessageOf(contours, w, h), num))
      ensures old(socketConnected) ==> socketConnected == sendSucceeds
    {
      if !socketConnected {
        return None;
      }
      var m := BuildContourMessage(contours);
      var text := Dump(m, num) + "\n";
      sent := Some(text);
      if !sendSucceeds {
        socketConnected := false;
      }
    }
  }
}
