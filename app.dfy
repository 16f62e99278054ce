/**
 * The application around the tracking thread: setup order, the per-frame forwarding of the GUI values,
 * the calibration-gated mouse handlers, and the persisted layout of the quad and the parameters.
 */
module TouchApp {
  import opened Optional
  import opened Geometry
  import opened TableThread

  /** The saved document: the quad flattened to numbers under "rect", the parameters under "tracker". */
  datatype Doc = Doc(rect: seq<real>, tracker: map<string, real>)

  /** The keys under "tracker", spelt as the source spells them. */
  const ThresholdKey: string := "threshold"
  const MinAreaRadiusKey: string := "minAreaRadius"
  const MaxAreaRadiusKey: string := "maxArearaduis"
  const GammaKey: string := "gamma"

  /** The four live-tunable segmentation parameters. */
  datatype Params = Params(threshold: real, minAreaRadius: real, maxAreaRadius: real, gamma: real)

  /** The values the GUI panel is set up with. */
  const DefaultParams := Params(128.0, 10.0, 100.0, 0.5)

  /** Point i becomes the numbers at positions 2i and 2i+1. */
  function Flatten(q: seq<Vec2>): (r: seq<real>)
    requires |q| == 4
    ensures |r| == 8
    ensures forall i :: 0 <= i < 4 ==> r[2 * i] == q[i].x && r[2 * i + 1] == q[i].y
  {
    [q[0].x, q[0].y, q[1].x, q[1].y, q[2].x, q[2].y, q[3].x, q[3].y]
  }

  /** Point i is read back from the numbers at positions 2i and 2i+1; later numbers are ignored. */
  function Unflatten(r: seq<real>): (q: seq<Vec2>)
    requires |r| >= 8
    ensures |q| == 4
    ensures forall i :: 0 <= i < 4 ==> q[i] == Vec2(r[2 * i], r[2 * i + 1])
  {
    [Vec2(r[0], r[1]), Vec2(r[2], r[3]), Vec2(r[4], r[5]), Vec2(r[6], r[7])]
  }

  function EncodeParams(p: Params): map<string, real> {
    map[ThresholdKey := p.threshold, MinAreaRadiusKey := p.minAreaRadius,
        MaxAreaRadiusKey := p.maxAreaRadius, GammaKey := p.gamma]
  }

  predicate HasParamKeys(m: map<string, real>) {
    ThresholdKey in m && MinAreaRadiusKey in m && MaxAreaRadiusKey in m && GammaKey in m
  }

  function DecodeParams(m: map<string, real>): Params
    requires HasParamKeys(m)
  {
    Params(m[ThresholdKey], m[MinAreaRadiusKey], m[MaxAreaRadiusKey], m[GammaKey])
  }

  /** A document loadParam can read without an exception: 8 numbers under "rect" and the four keys. */
  predicate WellFormed(d: Doc) {
    |d.rect| >= 8 && HasParamKeys(d.tracker)
  }

  function Encode(q: seq<Vec2>, p: Params): Doc
    requires |q| == 4
  {
    Doc(Flatten(q), EncodeParams(p))
  }

  /** Reading back a flattened quad gives the same 4 points. */
  lemma QuadRoundTrip(q: seq<Vec2>)
    requires |q| == 4
    ensures Unflatten(Flatten(q)) == q
  {
  }

  /** Flattening a read-back quad gives the first 8 numbers of the document. */
  lemma RectRoundTrip(r: seq<real>)
    requires |r| >= 8
    ensures Flatten(Unflatten(r)) == r[..8]
  {
  }

  /** The four keys are distinct, so each parameter comes back from the key it was saved under. */
  lemma ParamsRoundTrip(p: Params)
    ensures HasParamKeys(EncodeParams(p))
    ensures DecodeParams(EncodeParams(p)) == p
  {
  }

  /** A saved document is well formed, and loading it gives back the quad and the parameters. */
  lemma DocRoundTrip(q: seq<Vec2>, p: Params)
    requires |q| == 4
    ensures WellFormed(Encode(q, p))
    ensures Unflatten(Encode(q, p).rect) == q
    ensures DecodeParams(Encode(q, p).tracker) == p
  {
  }

  /** ofApp: camera, GUI drawing and the thread loop are not modelled. */
  class App {
    var w: int
    var h: int
    /** The GUI parameter values. */
    var minAreaRadius: real
    var maxAreaRadius: real
    var threshold: real
    var gamma: real
    var isCalibMode: bool
    var thread: TableThread?

    constructor ()
      ensures thread == null
    {
      thread := null;
    }

    function GuiParams(): Params
      reads this
    {
      Params(threshold, minAreaRadius, maxAreaRadius, gamma)
    }

    /** After setup: the thread exists, shares the frame size and holds a 4-point quad. */
    ghost predicate Valid()
      reads this, thread
    {
      thread != null && |thread.ptsSrc| == 4 && thread.w == w && thread.h == h
    }

    /**
     * After the first frame: in calibration mode the pick is cleared or a quad index. setup leaves the
     * mode and the pick as the thread's constructor left them, unassigned; update establishes this.
     */
    ghost predicate Synced()
      reads this, thread
    {
      Valid() && (thread.isCalibMode ==> thread.pickedCircle < 4)
    }

    method GetWindowSize(w_: int, h_: int)
      modifies this`w, this`h
      ensures w == w_ && h == h_
    {
      w := w_;
      h := h_;
    }

    /**
     * The GUI gets its defaults; the thread is created with the frame size, its quad put on the frame
     * corners, the socket connected (or not), and only then the saved file, if it opens, is loaded.
     */
    method Setup(connects: bool, file: Option<Doc>, solve: PerspectiveSolver)
      requires file.Some? ==> WellFormed(file.value)
      modifies this
      ensures Valid() && fresh(thread) && thread.solver == solve
      ensures w == old(w) && h == old(h) && !isCalibMode
      ensures file.None? ==> thread.ptsSrc == Corners(w, h) && GuiParams() == DefaultParams
      ensures file.Some? ==> thread.ptsSrc == Unflatten(file.value.rect)
      ensures file.Some? ==> GuiParams() == DecodeParams(file.value.tracker)
      ensures thread.perspectiveMat == thread.solver(thread.ptsSrc, Corners(w, h))
      ensures thread.socketConnected == connects
    {
      minAreaRadius := 10.0;
      maxAreaRadius := 100.0;
      threshold := 128.0;
      gamma := 0.5;
      isCalibMode := false;
      var t := new TableThread(solve);
      thread := t;
      t.GetWindowSize(w, h);
      t.ResetCircle();
      t.SetupSocket(connects);
      LoadParam(file);
    }

    /** Forward the calibration toggle and the parameters to the thread, as every frame does. */
    method Update()
      requires Valid() && (isCalibMode ==> Synced())
      modifies thread`isCalibMode, thread`pickedCircle
      modifies thread`minAreaRadius, thread`maxAreaRadius, thread`threshold, thread`gamma
      modifies thread`trackerPersistence, thread`trackerMaximumDistance
      ensures Synced()
      ensures thread.isCalibMode == isCalibMode
      ensures thread.pickedCircle == if old(thread.isCalibMode) != isCalibMode then -1 else old(thread.pickedCircle)
      ensures thread.minAreaRadius == minAreaRadius && thread.maxAreaRadius == maxAreaRadius
      ensures thread.threshold == threshold && thread.gamma == gamma
      ensures thread.trackerPersistence == TrackerPersistence && thread.trackerMaximumDistance == TrackerMaximumDistance
      ensures thread.ptsSrc == old(thread.ptsSrc) && thread.perspectiveMat == old(thread.perspectiveMat)
      ensures thread.pickOffset == old(thread.pickOffset) && thread.socketConnected == old(thread.socketConnected)
    {
      thread.SetCalibMode(isCalibMode);
      thread.SetParam(minAreaRadius, maxAreaRadius, threshold, gamma);
    }

    /** In calibration mode a press picks the nearest corner; otherwise nothing changes. */
    method MousePressed(x: int, y: int)
      requires Synced()
      modifies thread`pickedCircle, thread`pickOffset
      ensures Synced()
      ensures old(thread.isCalibMode) ==>
        && thread.pickedCircle == Nearest(thread.ptsSrc, Vec2(x as real, y as real))
        && thread.pickOffset == Sub(thread.ptsSrc[thread.pickedCircle], Vec2(x as real, y as real))
        && thread.ptsSrc == old(thread.ptsSrc)
        && thread.perspectiveMat == old(thread.perspectiveMat)
        && thread.isCalibMode
      ensures !old(thread.isCalibMode) ==> unchanged(thread)
    {
      if thread.GetCalibMode() {
        thread.PickClosestPoint(x, y);
      }
    }

    /** In calibration mode a drag moves the picked corner; otherwise nothing changes. */
    method MouseDragged(x: int, y: int)
      requires Synced()
      modifies thread`ptsSrc
      ensures Synced()
      ensures old(thread.isCalibMode) ==>
        && thread.pickedCircle == old(thread.pickedCircle) && thread.pickOffset == old(thread.pickOffset)
        && thread.ptsSrc == Moved(old(thread.ptsSrc), thread.pickedCircle, Vec2(x as real, y as real), thread.pickOffset)
        && thread.perspectiveMat == old(thread.perspectiveMat)
        && thread.isCalibMode
      ensures !old(thread.isCalibMode) ==> unchanged(thread)
    {
      if thread.GetCalibMode() {
        thread.MoveClosestPoint(x, y);
      }
    }

    /** In calibration mode a release re-commits the quad; otherwise nothing changes. */
    method MouseReleased(x: int, y: int)
      requires Synced()
      modifies thread`ptsSrc, thread`perspectiveMat
      ensures Synced()
      ensures old(thread.isCalibMode) ==>
        && thread.ptsSrc == old(thread.ptsSrc)
        && thread.perspectiveMat == thread.solver(thread.ptsSrc, Corners(w, h))
        && thread.pickedCircle == old(thread.pickedCircle)
        && thread.isCalibMode
      ensures !old(thread.isCalibMode) ==> unchanged(thread)
    {
      if thread.GetCalibMode() {
        thread.SetCalib();
      }
    }

    /** Read the saved file: nothing changes if it does not open; otherwise the quad goes through setPerspective. */
    method LoadParam(file: Option<Doc>)
      requires thread != null && |thread.ptsSrc| == 4
      requires file.Some? ==> WellFormed(file.value)
      modifies this`threshold, this`minAreaRadius, this`maxAreaRadius, this`gamma
      modifies thread`ptsSrc, thread`perspectiveMat
      ensures |thread.ptsSrc| == 4
      ensures w == old(w) && h == old(h) && isCalibMode == old(isCalibMode)
      ensures file.None? ==> GuiParams() == old(GuiParams()) && unchanged(thread)
      ensures file.Some? ==> thread.ptsSrc == Unflatten(file.value.rect)
      ensures file.Some? ==> thread.perspectiveMat == thread.solver(thread.ptsSrc, Corners(thread.w, thread.h))
      ensures file.Some? ==> GuiParams() == DecodeParams(file.value.tracker)
      ensures thread.w == old(thread.w) && thread.h == old(thread.h)
      ensures thread.isCalibMode == old(thread.isCalibMode) && thread.pickedCircle == old(thread.pickedCircle)
      ensures thread.socketConnected == old(thread.socketConnected)
    {
      if file.None? {
        return;
      }
      var j := file.value;
      var circles: seq<Vec2> := [];
      for i := 0 to 4
        invariant |circles| == i
        invariant forall k :: 0 <= k < i ==> circles[k] == Vec2(j.rect[2 * k], j.rect[2 * k + 1])
      {
        circles := circles + [Vec2(j.rect[i * 2], j.rect[i * 2 + 1])];
      }
      assert circles == Unflatten(j.rect);
      thread.SetPerspective(circles);
      threshold := j.tracker[ThresholdKey];
      minAreaRadius := j.tracker[MinAreaRadiusKey];
      maxAreaRadius := j.tracker[MaxAreaRadiusKey];
      gamma := j.tracker[GammaKey];
    }

    /** The document written on exit: the quad flattened into an 8-number array, and the parameters. */
    method SaveParam() returns (doc: Doc)
      requires Valid()
      ensures doc == Encode(thread.ptsSrc, GuiParams())
    {
      var circles := new real[8];
      for i := 0 to 4
        invariant forall k :: 0 <= k < i ==> circles[2 * k] == thread.ptsSrc[k].x && circles[2 * k + 1] == thread.ptsSrc[k].y
      {
        var p := thread.ptsSrc[i];
        circles[i * 2] := p.x;
        circles[i * 2 + 1] := p.y;
      }
      assert circles[..] == Flatten(thread.ptsSrc);
      doc := Doc(circles[..], map[ThresholdKey := threshold, MinAreaRadiusKey := minAreaRadius,
                                  MaxAreaRadiusKey := maxAreaRadius, GammaKey := gamma]);
    }
  }

  /**
   * What one run saves on exit, the next run's setup restores: the same quad, the matrix derived from
   * it, and the same parameters.
   */
  method SaveThenRestart(a: App, connects: bool) returns (b: App)
    requires a.Valid()
    ensures b.Valid() && b.thread.solver == a.thread.solver
    ensures b.thread.ptsSrc == a.thread.ptsSrc
    ensures b.thread.perspectiveMat == a.thread.solver(a.thread.ptsSrc, Corners(a.w, a.h))
    ensures b.GuiParams() == a.GuiParams()
  {
    var doc := a.SaveParam();
    DocRoundTrip(a.thread.ptsSrc, a.GuiParams());
    b := new App();
    b.GetWindowSize(a.w, a.h);
    b.Setup(connects, Some(doc), a.thread.solver);
  }
}
