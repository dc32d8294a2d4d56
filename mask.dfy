/** The annulus mask the server applies to a cropped vial before reading it:
    pixels whose squared distance from the image centre lies between the two
    squared radii are kept, every other pixel becomes 0. */
module CircularMask {

  /** A numpy image: a 2-D grid of intensities, or a 3-D grid whose last axis holds
      the channels of a pixel. */
  datatype Image = Gray(plane: seq<seq<int>>) | Color(pixels: seq<seq<seq<int>>>)

  /** Every row of a grid has the same length. */
  ghost predicate RectangularGrid<T>(g: seq<seq<T>>) {
    forall y :: 0 <= y < |g| ==> |g[y]| == |g[0]|
  }

  /** The image is a proper array: rectangular, and for a colour image every pixel
      has the same number of channels. */
  ghost predicate WellShaped(img: Image) {
    match img
    case Gray(g) => RectangularGrid(g)
    case Color(p) =>
      && RectangularGrid(p)
      && forall y, x :: 0 <= y < |p| && 0 <= x < |p[y]| ==> |p[y][x]| == |p[0][0]|
  }

  /** Both images are of the same kind and have the same shape, channels included. */
  ghost predicate SameShape(a: Image, b: Image) {
    match a
    case Gray(g) =>
      && b.Gray? && |b.plane| == |g|
      && forall y :: 0 <= y < |g| ==> |b.plane[y]| == |g[y]|
    case Color(p) =>
      && b.Color? && |b.pixels| == |p|
      && (forall y :: 0 <= y < |p| ==> |b.pixels[y]| == |p[y]|)
      && forall y, x :: 0 <= y < |p| && 0 <= x < |p[y]| ==> |b.pixels[y][x]| == |p[y][x]|
  }

  /** img.shape[0]. */
  function Height(img: Image): nat {
    match img
    case Gray(g) => |g|
    case Color(p) => |p|
  }

  /** img.shape[1]; an image without rows is taken to have no columns. */
  function Width(img: Image): nat {
    match img
    case Gray(g) => if |g| == 0 then 0 else |g[0]|
    case Color(p) => if |p| == 0 then 0 else |p[0]|
  }

  /** The squared distance of pixel (y, x) from the centre (height // 2, width // 2). */
  function SquaredDistance(y: int, x: int, height: nat, width: nat): int {
    (x - width / 2) * (x - width / 2) + (y - height / 2) * (y - height / 2)
  }

  /** The mask: the squared distance is at most radius1 squared and at least radius2
      squared. Radii are real numbers; the caller passes r - 5 and r / 3. */
  predicate Kept(y: int, x: int, height: nat, width: nat, radius1: real, radius2: real) {
    var d := SquaredDistance(y, x, height, width) as real;
    d <= radius1 * radius1 && d >= radius2 * radius2
  }

  /** np.where(mask, plane, 0) for a 2-D plane whose centre is given by (height, width). */
  function MaskPlane(g: seq<seq<int>>, height: nat, width: nat, radius1: real, radius2: real): (m: seq<seq<int>>)
    ensures |m| == |g|
    ensures forall y :: 0 <= y < |m| ==> |m[y]| == |g[y]|
    ensures forall y, x :: 0 <= y < |m| && 0 <= x < |m[y]| ==>
      m[y][x] == (if Kept(y, x, height, width, radius1, radius2) then g[y][x] else 0)
  {
    seq(|g|, y requires 0 <= y < |g| =>
      seq(|g[y]|, x requires 0 <= x < |g[y]| =>
        if Kept(y, x, height, width, radius1, radius2) then g[y][x] else 0))
  }

  /** np.where over a colour image: the 2-D mask, broadcast along the channel axis. */
  function MaskPixels(p: seq<seq<seq<int>>>, height: nat, width: nat, radius1: real, radius2: real)
    : (m: seq<seq<seq<int>>>)
    ensures |m| == |p|
    ensures forall y :: 0 <= y < |m| ==> |m[y]| == |p[y]|
    ensures forall y, x :: 0 <= y < |m| && 0 <= x < |m[y]| ==>
      |m[y][x]| == |p[y][x]| &&
      forall c :: 0 <= c < |m[y][x]| ==>
        m[y][x][c] == (if Kept(y, x, height, width, radius1, radius2) then p[y][x][c] else 0)
  {
    seq(|p|, y requires 0 <= y < |p| =>
      seq(|p[y]|, x requires 0 <= x < |p[y]| =>
        if Kept(y, x, height, width, radius1, radius2) then p[y][x] else seq(|p[y][x]|, _ => 0)))
  }

  /** apply_circular_mask: an image of the same kind and shape in which each value is
      the input value where the pixel lies in the annulus and 0 elsewhere. */
  function ApplyCircularMask(img: Image, radius1: real, radius2: real): (out: Image)
    requires WellShaped(img)
    ensures SameShape(img, out) && WellShaped(out)
    ensures Height(out) == Height(img) && Width(out) == Width(img)
    ensures out.Gray? ==> forall y, x :: 0 <= y < |out.plane| && 0 <= x < |out.plane[y]| ==>
      out.plane[y][x] == (if Kept(y, x, Height(img), Width(img), radius1, radius2) then img.plane[y][x] else 0)
    ensures out.Color? ==> forall y, x, c ::
      0 <= y < |out.pixels| && 0 <= x < |out.pixels[y]| && 0 <= c < |out.pixels[y][x]| ==>
      out.pixels[y][x][c] ==
        (if Kept(y, x, Height(img), Width(img), radius1, radius2) then img.pixels[y][x][c] else 0)
  {
    match img
    case Gray(g) => Gray(MaskPlane(g, Height(img), Width(img), radius1, radius2))
    case Color(p) => Color(MaskPixels(p, Height(img), Width(img), radius1, radius2))
  }

  /** Every value of the image is 0. */
  ghost predicate AllZero(img: Image) {
    match img
    case Gray(g) => forall y, x :: 0 <= y < |g| && 0 <= x < |g[y]| ==> g[y][x] == 0
    case Color(p) => forall y, x, c :: 0 <= y < |p| && 0 <= x < |p[y]| && 0 <= c < |p[y][x]| ==> p[y][x][c] == 0
  }

  /** When radius2 squared exceeds radius1 squared no distance fits, so the mask
      blanks the whole image. */
  lemma EmptyAnnulus(img: Image, radius1: real, radius2: real)
    requires WellShaped(img)
    requires radius1 * radius1 < radius2 * radius2
    ensures AllZero(ApplyCircularMask(img, radius1, radius2))
  {
    var out := ApplyCircularMask(img, radius1, radius2);
    forall y, x | 0 <= y && 0 <= x
      ensures !Kept(y, x, Height(img), Width(img), radius1, radius2)
    {
    }
  }

  /** For non-negative radii, radius2 > radius1 blanks the whole image. */
  lemma CrossedRadii(img: Image, radius1: real, radius2: real)
    requires WellShaped(img)
    requires 0.0 <= radius1 < radius2
    ensures AllZero(ApplyCircularMask(img, radius1, radius2))
  {
    var gap, sum := radius2 - radius1, radius2 + radius1;
    assert gap > 0.0 && sum > 0.0;
    assert gap * sum > 0.0;
    assert radius2 * radius2 - radius1 * radius1 == gap * sum;
    EmptyAnnulus(img, radius1, radius2);
  }

  /** For a negative radius1 the rule above fails: squaring drops the sign, so with
      radius1 = -1 and radius2 = 0 the centre pixel of a 1 x 1 image is kept. */
  lemma NegativeRadiusKeepsCentre()
    ensures ApplyCircularMask(Gray([[7]]), -1.0, 0.0) == Gray([[7]])
    ensures !AllZero(ApplyCircularMask(Gray([[7]]), -1.0, 0.0))
  {
    var img := Gray([[7]]);
    assert WellShaped(img);
    assert Kept(0, 0, 1, 1, -1.0, 0.0);
    var out := ApplyCircularMask(img, -1.0, 0.0);
    assert out.plane[0][0] == 7;
    assert out.plane[0] == [7];
    assert out.plane == [[7]];
  }

  /** Masking twice with the same radii gives the same image as masking once. */
  lemma MaskIdempotent(img: Image, radius1: real, radius2: real)
    requires WellShaped(img)
    ensures ApplyCircularMask(ApplyCircularMask(img, radius1, radius2), radius1, radius2)
         == ApplyCircularMask(img, radius1, radius2)
  {
    var once := ApplyCircularMask(img, radius1, radius2);
    var twice := ApplyCircularMask(once, radius1, radius2);
    match img
    case Gray(g) =>
      forall y | 0 <= y < |g|
        ensures twice.plane[y] == once.plane[y]
      {
      }
      assert twice.plane == once.plane;
    case Color(p) =>
      forall y, x | 0 <= y < |p| && 0 <= x < |p[y]|
        ensures twice.pixels[y][x] == once.pixels[y][x]
      {
      }
      forall y | 0 <= y < |p|
        ensures twice.pixels[y] == once.pixels[y]
      {
      }
      assert twice.pixels == once.pixels;
  }

  /** Channel c of a colour image as a 2-D plane. */
  function Channel(p: seq<seq<seq<int>>>, c: nat): (g: seq<seq<int>>)
    requires forall y, x :: 0 <= y < |p| && 0 <= x < |p[y]| ==> c < |p[y][x]|
    ensures |g| == |p| && forall y :: 0 <= y < |g| ==> |g[y]| == |p[y]|
    ensures forall y, x :: 0 <= y < |g| && 0 <= x < |g[y]| ==> g[y][x] == p[y][x][c]
  {
    seq(|p|, y requires 0 <= y < |p| => seq(|p[y]|, x requires 0 <= x < |p[y]| => p[y][x][c]))
  }

  /** On a colour image every channel is masked exactly as a gray plane of the same
      size would be: one 2-D mask, shared by all channels. */
  lemma SameMaskPerChannel(p: seq<seq<seq<int>>>, radius1: real, radius2: real, c: nat)
    requires WellShaped(Color(p)) && |p| > 0 && |p[0]| > 0 && c < |p[0][0]|
    ensures WellShaped(ApplyCircularMask(Color(p), radius1, radius2))
    ensures Channel(ApplyCircularMask(Color(p), radius1, radius2).pixels, c)
         == ApplyCircularMask(Gray(Channel(p, c)), radius1, radius2).plane
  {
    var out := ApplyCircularMask(Color(p), radius1, radius2).pixels;
    var gray := Gray(Channel(p, c));
    assert WellShaped(gray) by {
      forall y | 0 <= y < |p|
        ensures |gray.plane[y]| == |gray.plane[0]|
      {
      }
    }
    var lhs := Channel(out, c);
    var rhs := ApplyCircularMask(gray, radius1, radius2).plane;
    assert Height(gray) == |p| && Width(gray) == |p[0]|;
    forall y | 0 <= y < |p|
      ensures lhs[y] == rhs[y]
    {
    }
  }
}
