/**
 * The result list under the search box and the crop preview of its first entry
 * (app/static/app.js, cropSelectedVial and the loop of the keyup handler).
 */
module SearchResults {
  import opened Basics
  import opened Vials

  /** A pixel rectangle of the original image: top-left corner and size. */
  datatype Rect = Rect(x: int, y: int, width: int, height: int)

  /** What cropSelectedVial produces: the region it reads from the full-size image
      and the size of the canvas it copies that region onto. */
  datatype Crop = Crop(region: Rect, canvasWidth: nat, canvasHeight: nat)

  /** cropSelectedVial(cx, cy, r). The region is the square of side 2r around the
      centre, never clamped to the image; when that side is 0, getImageData throws
      an IndexSizeError and there is no crop. */
  function CropSelectedVial(cx: int, cy: int, r: nat): (c: Option<Crop>)
    ensures c.None? <==> r == 0
    ensures c.Some? ==> c.value.canvasWidth == c.value.canvasHeight == 2 * r
    ensures c.Some? ==> c.value.region.width == c.value.canvasWidth && c.value.region.height == c.value.canvasHeight
    ensures c.Some? ==> c.value.region.x + r == cx && c.value.region.y + r == cy
  {
    var startX, startY := cx - r, cy - r;
    var width, height := 2 * r, 2 * r;
    if width == 0 || height == 0 then None
    else Some(Crop(Rect(startX, startY, width, height), width, height))
  }

  /** The crop region covers every pixel of the vial's disc. */
  lemma CropCoversVial(cx: int, cy: int, r: nat, px: int, py: int)
    requires (px - cx) * (px - cx) + (py - cy) * (py - cy) < r * r
    ensures CropSelectedVial(cx, cy, r).Some?
    ensures var reg := CropSelectedVial(cx, cy, r).value.region;
      reg.x <= px < reg.x + reg.width && reg.y <= py < reg.y + reg.height
  {
    SquareAtLeast(px - cx, r);
    SquareAtLeast(py - cy, r);
  }

  /** A number at distance r or more from 0 has a square of at least r * r. */
  lemma SquareAtLeast(d: int, r: int)
    requires r >= 0
    ensures (d >= r || d <= -r) ==> d * d >= r * r
  {
    if d >= r {
      assert d * d >= r * d >= r * r;
    } else if d <= -r {
      assert d * d == (-d) * (-d) >= r * (-d) >= r * r;
    }
  }

  /** One `<li>` of the result list: the crop preview with the label, or the label alone. */
  datatype ListItem = Preview(crop: Crop, caption: string) | LabelOnly(caption: string)

  /** The list the keyup handler renders for a selection, or None when cropping its
      first entry throws, which happens only when the first vial has radius 0:
      min(|selected|, MAX_VIALS_NUM) entries, the first a 2r x 2r preview of the first
      vial with its label, every later one the matching vial's label alone. */
  function ResultList(selected: seq<Vial>): (l: Option<seq<ListItem>>)
    ensures l.None? <==> |selected| > 0 && selected[0].r == 0
    ensures l.Some? ==>
      && |l.value| == Min(|selected|, MAX_VIALS_NUM)
      && (|selected| > 0 ==>
            && l.value[0].Preview?
            && l.value[0].caption == selected[0].text
            && l.value[0].crop.canvasWidth == l.value[0].crop.canvasHeight == 2 * selected[0].r)
      && (forall k :: 1 <= k < |l.value| ==> l.value[k] == LabelOnly(selected[k].text))
  {
    var n := Min(|selected|, MAX_VIALS_NUM);
    if n > 0 && CropSelectedVial(selected[0].cx, selected[0].cy, selected[0].r).None? then None
    else Some(seq(n, i requires 0 <= i < n =>
      if i == 0 then Preview(CropSelectedVial(selected[0].cx, selected[0].cy, selected[0].r).value, selected[0].text)
      else LabelOnly(selected[i].text)))
  }

  /** The listElements loop of the keyup handler. */
  method ListElements(selected: seq<Vial>) returns (items: Option<seq<ListItem>>)
    ensures items == ResultList(selected)
  {
    var listElements: seq<ListItem> := [];
    var n := Min(|selected|, MAX_VIALS_NUM);
    for i := 0 to n
      invariant |listElements| == i
      invariant i > 0 ==> selected[0].r != 0
      invariant forall k :: 0 < k < i ==> listElements[k] == LabelOnly(selected[k].text)
      invariant i > 0 ==> listElements[0] == Preview(CropSelectedVial(selected[0].cx, selected[0].cy, selected[0].r).value, selected[0].text)
    {
      var vial := selected[i];
      if i == 0 {
        var img := CropSelectedVial(vial.cx, vial.cy, vial.r);
        if img.None? {
          return None;
        }
        listElements := listElements + [Preview(img.value, vial.text)];
      } else {
        listElements := listElements + [LabelOnly(vial.text)];
      }
    }
    assert n > 0 ==> CropSelectedVial(selected[0].cx, selected[0].cy, selected[0].r).Some?;
    assert ResultList(selected).Some?;
    assert listElements == ResultList(selected).value;
    items := Some(listElements);
  }

  /** Twelve vials all matching "A" appear as ten entries: a preview for the first,
      labels for the next nine, nothing for the last two. */
  lemma TwelveMatchesShowTen(vials: seq<Vial>)
    requires |vials| == 12
    requires forall j :: 0 <= j < 12 ==> vials[j].r > 0 && JsText.Includes(vials[j].text, "A")
    ensures Select(vials, "A") == vials
    ensures var l := ResultList(Select(vials, "A"));
      l.Some? && |l.value| == 10 && l.value[0].Preview?
      && forall k :: 1 <= k < 10 ==> l.value[k] == LabelOnly(vials[k].text)
  {
    assert JsText.TrimStart("A") == "A";
    FilterAllMatch(vials, "A");
  }
}
