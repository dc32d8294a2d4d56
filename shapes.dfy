/** The shape and index rules of the server's image pipeline: the orientation rule
    of prepare_image and correct_image, the fixed output size, the radius bounds
    handed to the circle detector and the slice unwrap_vial keeps. Pixel operations
    of the image library are represented only by the shapes they produce. */
module ImageShapes {
  import opened Basics

  /** A 2-D image's shape, as numpy reports it: rows first. */
  datatype Shape = Shape(rows: nat, cols: nat)

  /** A size as the image library takes it: width first. */
  datatype Size = Size(width: nat, height: nat)

  /** The size every corrected image is resized to. */
  const VIAL_AREA_SIZE: Size := Size(3878, 2550)

  /** The shape of an image turned a quarter turn clockwise. */
  function Rotate90(s: Shape): (r: Shape)
    ensures r.rows == s.cols && r.cols == s.rows
  {
    Shape(s.cols, s.rows)
  }

  /** The orientation rule shared by prepare_image and correct_image: a portrait
      image is turned a quarter turn, anything else is left as it is. */
  function Landscape(s: Shape): (r: Shape)
    ensures r.rows <= r.cols
    ensures r.rows == Min(s.rows, s.cols) && r.cols == Max(s.rows, s.cols)
    ensures r == s <==> s.rows <= s.cols
  {
    if s.rows > s.cols then Rotate90(s) else s
  }

  /** prepare_image on a colour image of the given shape: the gray conversion keeps
      rows and columns, then the orientation rule applies. */
  function PrepareImage(s: Shape): (r: Shape)
    ensures r.rows <= r.cols
    ensures r.rows * r.cols == s.rows * s.cols
    ensures s.rows > s.cols ==> r == Rotate90(s)
    ensures s.rows <= s.cols ==> r == s
  {
    Landscape(s)
  }

  /** Preparing an already prepared image changes nothing. */
  lemma PrepareIdempotent(s: Shape)
    ensures PrepareImage(PrepareImage(s)) == PrepareImage(s)
  {
  }

  /** The resize to a given size: the library takes width then height, so the result
      has dsize.height rows and dsize.width columns. Resizing an empty image fails. */
  function Resize(s: Shape, dsize: Size): (r: Option<Shape>)
    ensures r.None? <==> s.rows == 0 || s.cols == 0
    ensures r.Some? ==> r.value.rows == dsize.height && r.value.cols == dsize.width
  {
    if s.rows == 0 || s.cols == 0 then None else Some(Shape(dsize.height, dsize.width))
  }

  /** correct_image, given the shape the perspective warp produced: the orientation
      rule, then the resize to the fixed size. Every corrected image has 2550 rows and
      3878 columns, whatever the orientation and size of the warped image, and is
      already landscape; only an empty warp result fails. */
  function CorrectImage(warped: Shape): (r: Option<Shape>)
    ensures r.None? <==> warped.rows == 0 || warped.cols == 0
    ensures r.Some? ==> r.value == Shape(2550, 3878) && PrepareImage(r.value) == r.value
  {
    Resize(Landscape(warped), VIAL_AREA_SIZE)
  }

  /** Python's int() on a non-negative float: truncation, which is the floor here. */
  function Trunc(x: real): (n: int)
    requires x >= 0.0
    ensures n >= 0 && n as real <= x < n as real + 1.0
  {
    x.Floor
  }

  /** The arguments detect_vials passes to the circle detector. */
  datatype HoughParams = HoughParams(dp: int, minDist: int, param1: int, param2: int,
                                     minRadius: int, maxRadius: int)

  /** detect_vials' arguments for an image of the given shape: the largest radius is a
      sixteenth of the shorter side, the smallest three quarters of it, and circles
      must be at least two smallest radii apart. Both int() truncations are floors of
      exact quotients, so the bounds are ordered. */
  function HoughCircleParams(s: Shape): (p: HoughParams)
    ensures p.maxRadius == Min(s.rows, s.cols) / 16
    ensures p.minRadius == 3 * p.maxRadius / 4
    ensures 0 <= p.minRadius <= p.maxRadius
    ensures p.minDist == 2 * p.minRadius
    ensures p.dp == 1 && p.param1 == 50 && p.param2 == 30
  {
    var n := Min(s.rows, s.cols);
    var maxRadius := Trunc(if s.rows < s.cols then s.rows as real / 16.0 else s.cols as real / 16.0);
    FloorQuotient(n, 16);
    assert maxRadius == n / 16;
    var minRadius := Trunc(maxRadius as real * 0.75);
    FloorQuotient(3 * maxRadius, 4);
    assert maxRadius as real * 0.75 == (3 * maxRadius) as real / 4.0;
    HoughParams(1, 2 * minRadius, 50, 30, minRadius, maxRadius)
  }

  /** The floor of an exact quotient of naturals is integer division. */
  lemma FloorQuotient(a: nat, b: nat)
    requires b > 0
    ensures Trunc(a as real / b as real) == a / b
  {
    var q, m := a / b, a % b;
    assert a == q * b + m && 0 <= m < b;
    assert a as real / b as real == q as real + m as real / b as real;
    assert 0.0 <= m as real / b as real < 1.0;
  }

  /** Which side is shorter does not matter: a square image gives the same bounds from
      either branch, and turning an image does not change them. */
  lemma HoughSymmetric(s: Shape)
    ensures HoughCircleParams(Rotate90(s)) == HoughCircleParams(s)
  {
  }

  /** The bounds for a corrected image of 2550 x 3878 pixels. */
  lemma HoughForCorrectedImage()
    ensures HoughCircleParams(Shape(2550, 3878)) == HoughParams(1, 238, 50, 30, 119, 159)
  {
  }

  /** A Python slice s[lo:hi] with non-negative bounds: both ends are clamped to the
      length, and a range whose start is not below its end is empty. */
  function PySlice<T>(s: seq<T>, lo: nat, hi: nat): (r: seq<T>)
    ensures |r| == (if Min(hi, |s|) > lo then Min(hi, |s|) - lo else 0)
    ensures forall k :: 0 <= k < |r| ==> lo + k < |s| && r[k] == s[lo + k]
  {
    var end := Min(hi, |s|);
    if lo < end then s[lo..end] else []
  }

  /** The column range unwrap_vial keeps of a polar image w columns wide. */
  function FirstColumn(w: nat): nat {
    Trunc(w as real / 8.0)
  }

  function EndColumn(w: nat): nat {
    Trunc(w as real - w as real / 8.0)
  }

  /** The final slice of unwrap_vial on the polar image's pixel rows: rows 2 up to half
      the height, and the columns between an eighth and seven eighths of the width, so
      max(h/2 - 2, 0) rows of 7w/8 - w/8 columns, pixel (i, j) being pixel
      (i + 2, j + w/8) of the polar image. */
  function UnwrapVialCrop(polar: seq<seq<int>>): (crop: seq<seq<int>>)
    requires forall y :: 0 <= y < |polar| ==> |polar[y]| == |polar[0]|
    ensures var h := |polar|;
      |crop| == (if h / 2 > 2 then h / 2 - 2 else 0)
    ensures var w := if |polar| == 0 then 0 else |polar[0]|;
      forall i :: 0 <= i < |crop| ==>
        |crop[i]| == 7 * w / 8 - w / 8 &&
        forall j :: 0 <= j < |crop[i]| ==> crop[i][j] == polar[i + 2][j + w / 8]
  {
    var h := |polar|;
    var w := if h == 0 then 0 else |polar[0]|;
    FloorQuotient(h, 2);
    ColumnBounds(w);
    var rows := PySlice(polar, 2, Trunc(h as real / 2.0));
    seq(|rows|, i requires 0 <= i < |rows| => PySlice(rows[i], FirstColumn(w), EndColumn(w)))
  }

  /** The slice bounds in integer arithmetic: floor(w/8) columns go on the left,
      ceil(w/8) on the right. */
  lemma ColumnBounds(w: nat)
    ensures FirstColumn(w) == w / 8
    ensures EndColumn(w) == 7 * w / 8
    ensures w / 8 <= 7 * w / 8 <= w
    ensures w - 7 * w / 8 == (w + 7) / 8
  {
    FloorQuotient(w, 8);
    FloorQuotient(7 * w, 8);
    assert w as real - w as real / 8.0 == (7 * w) as real / 8.0;
  }
}
