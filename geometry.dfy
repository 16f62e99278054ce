/** The optional value used for "nothing produced" and "file could not be opened". */
module Optional {
  datatype Option<T> = None | Some(value: T)
}

/** Value types shared by the tracker, the calibration quad and the wire message. */
module Geometry {

  /** A point or an offset in image space (openFrameworks' ofVec2f, and ofVec3f whose z is always 0 here). */
  datatype Vec2 = Vec2(x: real, y: real)

  function Add(a: Vec2, b: Vec2): Vec2 {
    Vec2(a.x + b.x, a.y + b.y)
  }

  function Sub(a: Vec2, b: Vec2): Vec2 {
    Vec2(a.x - b.x, a.y - b.y)
  }

  /** Squared length; ordering by it is ordering by length, since the square root is monotone. */
  function Norm2(v: Vec2): real {
    v.x * v.x + v.y * v.y
  }

  /** ofVec3f::interpolate: move the fraction p of the way from a towards b. */
  function Interpolate(a: Vec2, b: Vec2, p: real): Vec2 {
    Vec2(a.x * (1.0 - p) + b.x * p, a.y * (1.0 - p) + b.y * p)
  }

  /** An integer pixel position (cv::Point). */
  datatype Pixel = Pixel(x: int, y: int)

  function PixelVec(p: Pixel): Vec2 {
    Vec2(p.x as real, p.y as real)
  }

  /** An integer bounding box (cv::Rect). */
  datatype Rect = Rect(x: int, y: int, width: int, height: int)

  /** The centre of the box once it is converted to an ofRectangle. */
  function Centre(r: Rect): Vec2 {
    Vec2(r.x as real + r.width as real / 2.0, r.y as real + r.height as real / 2.0)
  }
}
