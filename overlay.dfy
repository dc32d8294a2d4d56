/**
 * The overlay the client draws on its canvas (app/static/app.js, resizeCanvas,
 * drawImage, drawBackstage, drawVial, drawVials), as the sequence of drawing
 * operations it issues rather than as pixels.
 */
module Overlay {
  import opened Vials

  const ACCENT_COLOR: string := "#ff3d00"
  const ACCENT_THICKNESS: nat := 15
  const SECONDARY_COLOR: string := "black"
  const SECONDARY_THICKNESS: nat := 10
  const BACKSTAGE_COLOR: string := "white"
  const BACKSTAGE_ALPHA: real := 0.5

  /** A circle as added to the context's current path: centre and radius in image
      pixels, under the uniform scale in force when it was added. */
  datatype Arc = Arc(scale: real, cx: int, cy: int, r: int)

  datatype DrawCmd =
      /** Assigning the canvas size: the bitmap is cleared and the context, with
          its current path, goes back to its defaults. */
    | ResetSurface
      /** clearRect and drawImage of the whole image, under the uniform scale. */
    | DrawBase(scale: real, width: int, height: int)
      /** fillRect over the whole image, under the uniform scale. */
    | FillRect(scale: real, width: int, height: int, color: string, alpha: real)
      /** fill() of the context's current path. */
    | FillPath(path: seq<Arc>, color: string, alpha: real)
      /** stroke() of a path holding one circle. */
    | StrokeArc(arc: Arc, color: string, thickness: nat)

  /** How many selected vials get a marker: min(n, MAX_VIALS_NUM). */
  function MarkerCount(n: nat): nat {
    if n < MAX_VIALS_NUM then n else MAX_VIALS_NUM
  }

  /** drawVial for a selected vial: the best match in the accent style, the others
      in the secondary style. */
  function Marker(v: Vial, scale: real, first: bool): DrawCmd {
    var arc := Arc(scale, v.cx, v.cy, v.r);
    if first then StrokeArc(arc, ACCENT_COLOR, ACCENT_THICKNESS)
    else StrokeArc(arc, SECONDARY_COLOR, SECONDARY_THICKNESS)
  }

  /** The markers drawVials strokes, in order. */
  function Markers(selected: seq<Vial>, scale: real): seq<DrawCmd> {
    seq(MarkerCount(|selected|), i requires 0 <= i < MarkerCount(|selected|) =>
      Marker(selected[i], scale, i == 0))
  }

  /** drawBackstage: the translucent white rectangle, then the trailing fill() of
      whatever path is current, in white at full opacity. */
  function Backstage(scale: real, width: int, height: int, path: seq<Arc>): seq<DrawCmd> {
    [FillRect(scale, width, height, BACKSTAGE_COLOR, BACKSTAGE_ALPHA), FillPath(path, BACKSTAGE_COLOR, 1.0)]
  }

  /** drawVials: nothing for an empty selection, otherwise the backstage and then the markers. */
  function VialsCommands(selected: seq<Vial>, scale: real, width: int, height: int, path: seq<Arc>): seq<DrawCmd> {
    if |selected| < 1 then [] else Backstage(scale, width, height, path) + Markers(selected, scale)
  }

  /** The context's current path after drawVials: the last marker's circle. */
  function PathAfterVials(selected: seq<Vial>, scale: real, path: seq<Arc>): seq<Arc> {
    if |selected| < 1 then path
    else
      var last := selected[MarkerCount(|selected|) - 1];
      [Arc(scale, last.cx, last.cy, last.r)]
  }

  /** drawImage followed by drawVials, on a context whose current path is the given one. */
  function Redraw(selected: seq<Vial>, scale: real, width: int, height: int, path: seq<Arc>): seq<DrawCmd> {
    [DrawBase(scale, width, height)] + VialsCommands(selected, scale, width, height, path)
  }

  /** One resizeCanvas: the size assignment, then the redraw on a fresh context: two
      operations, and for a non-empty selection two more plus one per marked vial
      (FrameOrder gives each of them). */
  function Frame(selected: seq<Vial>, scale: real, width: int, height: int): (f: seq<DrawCmd>)
    ensures |f| == (if |selected| == 0 then 2 else 4 + MarkerCount(|selected|))
    ensures f[0] == ResetSurface && f[1] == DrawBase(scale, width, height)
  {
    [ResetSurface] + Redraw(selected, scale, width, height, [])
  }

  /** The number of stroked circles in a command sequence. */
  function CountStrokes(cmds: seq<DrawCmd>, color: string): (n: nat)
    ensures n <= |cmds|
  {
    if cmds == [] then 0
    else (if cmds[0].StrokeArc? && cmds[0].color == color then 1 else 0) + CountStrokes(cmds[1..], color)
  }

  lemma {:induction false} CountStrokesAppend(a: seq<DrawCmd>, b: seq<DrawCmd>, color: string)
    ensures CountStrokes(a + b, color) == CountStrokes(a, color) + CountStrokes(b, color)
  {
    if a == [] {
      assert a + b == b;
    } else {
      assert (a + b)[1..] == a[1..] + b;
      CountStrokesAppend(a[1..], b, color);
    }
  }

  /** Counting the secondary-style strokes of the markers from position i on. */
  lemma {:induction false} SecondaryStrokesFrom(selected: seq<Vial>, scale: real, i: nat)
    requires 1 <= i <= MarkerCount(|selected|)
    ensures CountStrokes(Markers(selected, scale)[i..], SECONDARY_COLOR) == MarkerCount(|selected|) - i
    ensures CountStrokes(Markers(selected, scale)[i..], ACCENT_COLOR) == 0
    decreases MarkerCount(|selected|) - i
  {
    var m := Markers(selected, scale);
    if i < |m| {
      assert m[i..][1..] == m[i + 1..];
      assert m[i..][0] == Marker(selected[i], scale, false);
      SecondaryStrokesFrom(selected, scale, i + 1);
    }
  }

  /** drawVials strokes one accent circle for a non-empty selection and the rest of
      the marked vials in the secondary style. */
  lemma VialsStrokeCounts(selected: seq<Vial>, scale: real, width: int, height: int, path: seq<Arc>)
    ensures var v := VialsCommands(selected, scale, width, height, path);
      && CountStrokes(v, ACCENT_COLOR) == (if |selected| == 0 then 0 else 1)
      && CountStrokes(v, SECONDARY_COLOR) == MarkerCount(|selected|) - (if |selected| == 0 then 0 else 1)
  {
    if |selected| > 0 {
      var b := Backstage(scale, width, height, path);
      var m := Markers(selected, scale);
      CountStrokesAppend(b, m, ACCENT_COLOR);
      CountStrokesAppend(b, m, SECONDARY_COLOR);
      assert m == [m[0]] + m[1..];
      CountStrokesAppend([m[0]], m[1..], ACCENT_COLOR);
      CountStrokesAppend([m[0]], m[1..], SECONDARY_COLOR);
      SecondaryStrokesFrom(selected, scale, 1);
    }
  }

  /** A frame strokes min(|selected|, MAX_VIALS_NUM) circles: exactly one in the
      accent style when the selection is not empty, the rest in the secondary style. */
  lemma FrameStrokeCounts(selected: seq<Vial>, scale: real, width: int, height: int)
    ensures var f := Frame(selected, scale, width, height);
      && CountStrokes(f, ACCENT_COLOR) == (if |selected| == 0 then 0 else 1)
      && CountStrokes(f, SECONDARY_COLOR) == MarkerCount(|selected|) - (if |selected| == 0 then 0 else 1)
  {
    var redraw := Redraw(selected, scale, width, height, []);
    var v := VialsCommands(selected, scale, width, height, []);
    CountStrokesAppend([ResetSurface], redraw, ACCENT_COLOR);
    CountStrokesAppend([ResetSurface], redraw, SECONDARY_COLOR);
    CountStrokesAppend([DrawBase(scale, width, height)], v, ACCENT_COLOR);
    CountStrokesAppend([DrawBase(scale, width, height)], v, SECONDARY_COLOR);
    VialsStrokeCounts(selected, scale, width, height, []);
  }

  /** The order of a frame: size reset, base image, and then, only when something is
      selected, the backstage followed by the best match in the accent style and the
      next vials, up to the cap, in the secondary style. */
  lemma FrameOrder(selected: seq<Vial>, scale: real, width: int, height: int)
    ensures var f := Frame(selected, scale, width, height);
      && f[0] == ResetSurface && f[1] == DrawBase(scale, width, height)
      && (|selected| == 0 ==> |f| == 2)
      && (|selected| > 0 ==>
            && |f| == 4 + MarkerCount(|selected|)
            && f[2] == FillRect(scale, width, height, BACKSTAGE_COLOR, BACKSTAGE_ALPHA)
            && f[3] == FillPath([], BACKSTAGE_COLOR, 1.0)
            && f[4] == StrokeArc(Arc(scale, selected[0].cx, selected[0].cy, selected[0].r), ACCENT_COLOR, ACCENT_THICKNESS)
            && forall k :: 5 <= k < |f| ==>
                 f[k] == StrokeArc(Arc(scale, selected[k - 4].cx, selected[k - 4].cy, selected[k - 4].r), SECONDARY_COLOR, SECONDARY_THICKNESS))
  {
  }
}
