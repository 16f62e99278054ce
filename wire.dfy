/**
 * The per-frame contour message: one entry per contour, in finder order, each vertex re-centred as
 * (w/2 - x, h/2 - y), written as one JSON object per line. How a number is rendered as text is a
 * parameter `num` of the serialiser.
 */
module ContourWire {
  import opened Geometry

  datatype Vertex = Vertex(x: real, y: real)
  datatype ContourEntry = ContourEntry(vertices: seq<Vertex>)
  datatype Message = Message(contours: seq<ContourEntry>)

  /** The vertex transform of the wire format: recentre on the frame centre, without flipping back. */
  function Centred(p: Pixel, w: int, h: int): Vertex {
    Vertex(w as real / 2.0 - p.x as real, h as real / 2.0 - p.y as real)
  }

  /** What a consumer recovers from a vertex: the image position. */
  function Uncentred(v: Vertex, w: int, h: int): Vec2 {
    Vec2(w as real / 2.0 - v.x, h as real / 2.0 - v.y)
  }

  /** The vertex array of one contour, built the way the source pushes each vertex at the back. */
  function VerticesOf(points: seq<Pixel>, w: int, h: int): (vs: seq<Vertex>)
    ensures |vs| == |points|
    ensures forall j :: 0 <= j < |points| ==> vs[j] == Centred(points[j], w, h)
    decreases |points|
  {
    if points == [] then []
    else VerticesOf(points[..|points| - 1], w, h) + [Centred(points[|points| - 1], w, h)]
  }

  /** The contour array, one entry per contour in finder order. */
  function EntriesOf(contours: seq<seq<Pixel>>, w: int, h: int): (es: seq<ContourEntry>)
    ensures |es| == |contours|
    ensures forall k :: 0 <= k < |contours| ==> es[k] == ContourEntry(VerticesOf(contours[k], w, h))
    decreases |contours|
  {
    if contours == [] then []
    else EntriesOf(contours[..|contours| - 1], w, h) + [ContourEntry(VerticesOf(contours[|contours| - 1], w, h))]
  }

  /** The message for a frame whose finder reported these contours. */
  function MessageOf(contours: seq<seq<Pixel>>, w: int, h: int): (m: Message)
    ensures |m.contours| == |contours|
    ensures forall k :: 0 <= k < |contours| ==> |m.contours[k].vertices| == |contours[k]|
    ensures forall k, j :: 0 <= k < |contours| && 0 <= j < |contours[k]| ==>
      m.contours[k].vertices[j] == Centred(contours[k][j], w, h)
  {
    Message(EntriesOf(contours, w, h))
  }

  /** The positions a consumer reads back from a message. */
  function PositionsOf(m: Message, w: int, h: int): seq<seq<Vec2>> {
    seq(|m.contours|, k requires 0 <= k < |m.contours| =>
      seq(|m.contours[k].vertices|, j requires 0 <= j < |m.contours[k].vertices| =>
        Uncentred(m.contours[k].vertices[j], w, h)))
  }

  function PixelPositions(contours: seq<seq<Pixel>>): seq<seq<Vec2>> {
    seq(|contours|, k requires 0 <= k < |contours| =>
      seq(|contours[k]|, j requires 0 <= j < |contours[k]| => PixelVec(contours[k][j])))
  }

  /** The vertex transform is its own inverse, so the consumer recovers every pixel position. */
  lemma CentredInverts(p: Pixel, w: int, h: int)
    ensures Uncentred(Centred(p, w, h), w, h) == PixelVec(p)
  {
  }

  /** Reading a message back gives every contour, in order, with every vertex in order. */
  lemma MessageRecoversContours(contours: seq<seq<Pixel>>, w: int, h: int)
    ensures PositionsOf(MessageOf(contours, w, h), w, h) == PixelPositions(contours)
  {
    var m := MessageOf(contours, w, h);
    var got := PositionsOf(m, w, h);
    var want := PixelPositions(contours);
    forall k | 0 <= k < |contours| ensures got[k] == want[k] {
      forall j | 0 <= j < |contours[k]| ensures got[k][j] == want[k][j] {
        CentredInverts(contours[k][j], w, h);
      }
    }
  }

  // ---------------------------------------------------------------------------------------------
  // Serialiser

  /** Items rendered by f and separated by commas. */
  function Join<T>(items: seq<T>, f: T -> string): string
    decreases |items|
  {
    if |items| == 0 then ""
    else if |items| == 1 then f(items[0])
    else f(items[0]) + "," + Join(items[1..], f)
  }

  function DumpVertex(v: Vertex, num: real -> string): string {
    "{\"x\":" + num(v.x) + ",\"y\":" + num(v.y) + "}"
  }

  function DumpContour(c: ContourEntry, num: real -> string): string {
    "{\"vertices\":[" + Join(c.vertices, (v: Vertex) => DumpVertex(v, num)) + "]}"
  }

  /** The compact JSON dump of a message: one object whose only member is the contour array. */
  function Dump(m: Message, num: real -> string): (d: string)
    ensures |d| >= 15 && d[..13] == "{\"contours\":[" && d[|d| - 2..] == "]}"
  {
    "{\"contours\":[" + Join(m.contours, (c: ContourEntry) => DumpContour(c, num)) + "]}"
  }

  /** The text handed to the socket: the dump followed by one newline. */
  function Frame(m: Message, num: real -> string): (t: string)
    ensures |t| > 0 && t[|t| - 1] == '\n' && t[..|t| - 1] == Dump(m, num)
  {
    Dump(m, num) + "\n"
  }

  /** A frame without contours is exactly {"contours":[]} and a newline, whatever the number rendering. */
  lemma EmptyFrame(num: real -> string)
    ensures Frame(MessageOf([], 0, 0), num) == "{\"contours\":[]}\n"
    ensures forall w: int, h: int :: Frame(MessageOf([], w, h), num) == Frame(MessageOf([], 0, 0), num)
  {
  }

  lemma {:induction false} JoinHasNoNewline<T>(items: seq<T>, f: T -> string)
    requires forall k :: 0 <= k < |items| ==> '\n' !in f(items[k])
    ensures '\n' !in Join(items, f)
    decreases |items|
  {
    if |items| > 1 {
      JoinHasNoNewline(items[1..], f);
    }
  }

  /**
   * If no number renders with a newline, the frame is one line: the newline appended at the end is
   * its only one.
   */
  lemma FrameIsOneLine(m: Message, num: real -> string)
    requires forall r :: '\n' !in num(r)
    ensures var t := Frame(m, num);
      |t| > 0 && t[|t| - 1] == '\n' && forall i :: 0 <= i < |t| - 1 ==> t[i] != '\n'
  {
    var fc := (c: ContourEntry) => DumpContour(c, num);
    forall k | 0 <= k < |m.contours| ensures '\n' !in fc(m.contours[k]) {
      var c := m.contours[k];
      JoinHasNoNewline(c.vertices, (v: Vertex) => DumpVertex(v, num));
    }
    JoinHasNoNewline(m.contours, fc);
    var d := Dump(m, num);
    assert '\n' !in d;
    var t := Frame(m, num);
    assert t[..|d|] == d;
    forall i | 0 <= i < |t| - 1 ensures t[i] != '\n' {
      assert t[i] == d[i];
    }
  }

  /** A single-pixel contour at the centre (cx, cy) of a 2cx-by-2cy frame is sent as the vertex (0, 0). */
  lemma ScenarioCentrePixel(cx: int, cy: int, num: real -> string)
    ensures MessageOf([[Pixel(cx, cy)]], 2 * cx, 2 * cy) == Message([ContourEntry([Vertex(0.0, 0.0)])])
    ensures Frame(MessageOf([[Pixel(cx, cy)]], 2 * cx, 2 * cy), num) ==
      "{\"contours\":[{\"vertices\":[{\"x\":" + num(0.0) + ",\"y\":" + num(0.0) + "}]}]}\n"
  {
    var m := MessageOf([[Pixel(cx, cy)]], 2 * cx, 2 * cy);
    assert Centred(Pixel(cx, cy), 2 * cx, 2 * cy) == Vertex(0.0, 0.0);
    assert m.contours[0].vertices == [Vertex(0.0, 0.0)];
    assert m.contours == [ContourEntry([Vertex(0.0, 0.0)])];
  }
}
