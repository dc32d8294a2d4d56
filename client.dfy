/**
 * The browser client (app/static/app.js): its module-level state, the handlers
 * that reassign it, and the canvas operations they issue.
 */
module Client {
  import opened Basics
  import JsText
  import opened Vials
  import opened SearchResults
  import opened Overlay

  const NO_FILE_MESSAGE: string := "Please select an image file."
  const LOADING_MESSAGE: string := "<span class=\"loader\"></span><span>Processing image, please wait...</span>"
  const SERVER_ERROR_MESSAGE: string := "Server returned an error, check image file and try again."
  const NETWORK_ERROR_MESSAGE: string := "Network response was not ok, try again."
  const FETCH_PROBLEM_PREFIX: string := "There was a problem with the fetch operation: "
  const PNG_DATA_URL_PREFIX: string := "data:image/png;base64,"
  /** The leading words of the TypeError thrown when the response array is empty. */
  const EMPTY_DATA_ERROR: string := "TypeError"

  /** The banner above the panes: hidden, a message (showMessage) or an error (showError). */
  datatype Message = Hidden | Info(html: string) | Error(html: string)

  /** The file chosen in the file input. */
  datatype ImageFile = ImageFile(name: string)

  /** One element of the JSON array /process_image answers with. */
  datatype Payload = Payload(img: string, imgWidth: int, imgHeight: int, vials: seq<Vial>)

  /** What response.json() gives: the parsed array, or a rejection. */
  datatype Body = Json(items: seq<Payload>) | NotJson(reason: string)

  /** How the awaited fetch settles: with a response, or rejected. */
  datatype FetchOutcome = Responded(status: int, body: Body) | Rejected(reason: string)

  /** Response.ok. */
  predicate IsOk(status: int) { 200 <= status <= 299 }

  /** The three branches the change handler takes on a response. */
  datatype StatusBranch = NotOkBranch | Status500Branch | OkBranch

  /** The branch taken on a response's status: `!response.ok` first, then
      `status === 500`. Since a 500 response is never ok, the second is dead. */
  function ResponseBranch(status: int): (b: StatusBranch)
    ensures b == OkBranch <==> IsOk(status)
    ensures b != Status500Branch
  {
    if !IsOk(status) then NotOkBranch else if status == 500 then Status500Branch else OkBranch
  }

  /** The error a settled upload leaves in the banner, or None when the response is
      loaded: a rejected fetch, a non-ok status, a body that is not JSON and an empty
      array (processResponse throws on data[0].vials) are the failures. */
  function SettledError(outcome: FetchOutcome): (e: Option<string>)
    ensures e.None? <==>
      outcome.Responded? && IsOk(outcome.status) && outcome.body.Json? && |outcome.body.items| > 0
    ensures outcome.Responded? && !IsOk(outcome.status) ==> e == Some(SERVER_ERROR_MESSAGE)
    ensures e != Some(NETWORK_ERROR_MESSAGE)
  {
    match outcome
    case Rejected(reason) => Some(FETCH_PROBLEM_PREFIX + reason)
    case Responded(status, body) =>
      var branch := ResponseBranch(status);
      if branch == NotOkBranch then Some(SERVER_ERROR_MESSAGE)
      else if branch == Status500Branch then Some(NETWORK_ERROR_MESSAGE)
      else match body
        case NotJson(reason) => Some(FETCH_PROBLEM_PREFIX + reason)
        case Json(data) =>
          if |data| == 0 then Some(FETCH_PROBLEM_PREFIX + EMPTY_DATA_ERROR) else None
  }

  /** The outcome in which processResponse runs and throws: an ok response whose
      body is an empty JSON array. */
  predicate EmptyResponse(outcome: FetchOutcome) {
    outcome.Responded? && IsOk(outcome.status) && outcome.body.Json? && outcome.body.items == []
  }

  /** The selection is drawn from the vial list, in its order, and every selected
      label contains the search box's content. */
  ghost predicate SelectionFromList(selected: seq<Vial>, list: seq<Vial>, query: string) {
    && (exists idx :: IsSubsequenceVia(selected, list, idx))
    && forall v :: v in selected ==> JsText.Includes(v.text, query)
  }

  /** The selection the keyup handler makes keeps the invariant, whatever the list
      and the typed text. */
  lemma SearchSelectsFromList(list: seq<Vial>, typed: string)
    ensures SelectionFromList(Select(list, typed), list, typed)
  {
    var idx := SelectPositions(list, typed);
  }

  /** Which parts of the page are displayed: the upload pane, the search pane, the
      canvas and the file input's label. */
  datatype View = View(uploadPane: bool, searchPane: bool, canvasShown: bool, labelShown: bool)

  /** The canvas's 2-D drawing context: every drawing operation issued on it so far,
      oldest first, and its current path. */
  class Context2D {
    var log: seq<DrawCmd>
    var path: seq<Arc>

    constructor ()
      ensures log == [] && path == []
    {
      log := [];
      path := [];
    }
  }

  /** The client's module-level state and the DOM state its handlers set. */
  class App {
    var imageWidth: int
    var imageHeight: int
    var scaleX: real
    var scaleY: real
    var scale: real

    var searchString: string
    var selectedVials: seq<Vial>
    var vialList: seq<Vial>

    /** The search box's content. */
    var searchInput: string
    /** vialImage.src. */
    var imageSrc: string
    /** The file held by the file input. */
    var imageFile: Option<ImageFile>
    var view: View
    var message: Message
    /** The entries of foundVialsList. */
    var foundList: seq<ListItem>
    /** vialCtx, the canvas's drawing context. */
    const ctx: Context2D
    /** Every POST /process_image request sent, oldest first. */
    var requests: seq<ImageFile>

    /** The uniform scale is the smaller of the two scale factors. */
    ghost predicate UniformScale()
      reads this
    {
      scale == MinReal(scaleX, scaleY)
    }

    /** The script's initial values; the page is assumed to open as resetAll leaves it. */
    constructor ()
      ensures UniformScale()
      ensures imageWidth == 0 && imageHeight == 0
      ensures scaleX == 1.0 && scaleY == 1.0 && scale == 1.0
      ensures searchString == [] && selectedVials == [] && vialList == []
      ensures view == View(true, false, false, true)
      ensures message == Hidden && requests == []
      ensures searchInput == [] && imageSrc == [] && imageFile == None && foundList == []
      ensures fresh(ctx) && ctx.log == [] && ctx.path == []
    {
      imageWidth, imageHeight := 0, 0;
      scaleX, scaleY, scale := 1.0, 1.0, 1.0;
      searchString, selectedVials, vialList := [], [], [];
      searchInput, imageSrc, imageFile := [], [], None;
      view, message, foundList := View(true, false, false, true), Hidden, [];
      ctx := new Context2D();
      requests := [];
    }

    /** resetAll: the initial state, whatever the state before: no image
        size, unit scales, no search, no vials, the upload pane and its label shown,
        the search pane and the canvas hidden. The banner, the canvas bitmap and its
        context are left as they are. */
    method ResetAll()
      modifies this`imageWidth, this`imageHeight, this`scaleX, this`scaleY, this`scale
      modifies this`searchString, this`selectedVials, this`vialList, this`searchInput
      modifies this`imageSrc, this`view, this`foundList, this`imageFile
      ensures UniformScale()
      ensures imageWidth == 0 && imageHeight == 0
      ensures scaleX == 1.0 && scaleY == 1.0 && scale == 1.0
      ensures searchString == [] && selectedVials == [] && vialList == [] && searchInput == []
      ensures imageSrc == [] && imageFile == None && foundList == []
      ensures view == View(true, false, false, true)
      ensures SelectionFromList(selectedVials, vialList, searchInput)
    {
      ResetGeometry();
      ResetSearch();
      ResetView();
      assert IsSubsequenceVia(selectedVials, vialList, []);
    }

    /** The first block of resetAll: image size and scale factors. */
    method ResetGeometry()
      modifies this`imageWidth, this`imageHeight, this`scaleX, this`scaleY, this`scale
      ensures UniformScale() && imageWidth == 0 && imageHeight == 0
      ensures scaleX == 1.0 && scaleY == 1.0 && scale == 1.0
    {
      imageWidth := 0;
      imageHeight := 0;
      scaleX := 1.0;
      scaleY := 1.0;
      scale := 1.0;
    }

    /** The second block of resetAll: the search state and the search box. */
    method ResetSearch()
      modifies this`searchString, this`selectedVials, this`vialList, this`searchInput
      ensures searchString == [] && selectedVials == [] && vialList == [] && searchInput == []
    {
      searchString := [];
      selectedVials := [];
      vialList := [];
      searchInput := [];
    }

    /** The last blocks of resetAll: the image, the panes, the result list and the file input. */
    method ResetView()
      modifies this`imageSrc, this`view, this`foundList, this`imageFile
      ensures imageSrc == [] && imageFile == None && foundList == []
      ensures view == View(true, false, false, true)
    {
      imageSrc := [];
      view := view.(canvasShown := false);
      view := view.(searchPane := false);
      view := view.(uploadPane := true);
      foundList := [];

      imageFile := None;
      view := view.(labelShown := true);
    }

    /** drawImage: the whole image under the uniform scale. */
    method DrawImage()
      modifies ctx`log
      ensures ctx.log == old(ctx.log) + [DrawBase(scale, imageWidth, imageHeight)]
    {
      ctx.log := ctx.log + [DrawBase(scale, imageWidth, imageHeight)];
    }

    /** drawBackstage: the translucent rectangle and the fill() of the current path. */
    method DrawBackstage()
      modifies ctx`log
      ensures ctx.log == old(ctx.log) + Backstage(scale, imageWidth, imageHeight, ctx.path)
    {
      ctx.log := ctx.log + [FillRect(scale, imageWidth, imageHeight, BACKSTAGE_COLOR, BACKSTAGE_ALPHA)];
      ctx.log := ctx.log + [FillPath(ctx.path, BACKSTAGE_COLOR, 1.0)];
    }

    /** drawVial: a new path holding one circle, stroked; drawVials has set the
        uniform scale as the transform. */
    method DrawVial(cx: int, cy: int, cr: int, color: string, thickness: nat)
      modifies ctx`log, ctx`path
      ensures ctx.path == [Arc(scale, cx, cy, cr)]
      ensures ctx.log == old(ctx.log) + [StrokeArc(Arc(scale, cx, cy, cr), color, thickness)]
    {
      ctx.path := [Arc(scale, cx, cy, cr)];
      ctx.log := ctx.log + [StrokeArc(ctx.path[0], color, thickness)];
    }

    /** drawVials: nothing for an empty selection; otherwise the backstage, the first
        vial in the accent style and the next ones up to the cap in the secondary style. */
    method DrawVials()
      modifies ctx`log, ctx`path
      ensures ctx.log == old(ctx.log) + VialsCommands(selectedVials, scale, imageWidth, imageHeight, old(ctx.path))
      ensures ctx.path == PathAfterVials(selectedVials, scale, old(ctx.path))
    {
      if |selectedVials| < 1 {
        return;
      }
      DrawBackstage();
      ghost var start := ctx.log;
      var vial := selectedVials[0];
      DrawVial(vial.cx, vial.cy, vial.r, ACCENT_COLOR, ACCENT_THICKNESS);
      ghost var markers := Markers(selectedVials, scale);
      assert ctx.log == start + markers[..1];
      var n := MarkerCount(|selectedVials|);
      for i := 1 to n
        invariant ctx.log == start + markers[..i]
        invariant ctx.path == [Arc(scale, selectedVials[i - 1].cx, selectedVials[i - 1].cy, selectedVials[i - 1].r)]
      {
        vial := selectedVials[i];
        DrawVial(vial.cx, vial.cy, vial.r, SECONDARY_COLOR, SECONDARY_THICKNESS);
        assert markers[..i + 1] == markers[..i] + [markers[i]];
        AppendAssoc(start, markers[..i], [markers[i]]);
      }
      assert markers[..n] == markers;
      AppendAssoc(old(ctx.log), Backstage(scale, imageWidth, imageHeight, old(ctx.path)), markers);
    }

    /** resizeCanvas: new scale factors (computed by the browser from the window
        width), the size assignment that resets the context, then a full redraw. */
    method ResizeCanvas(newScaleX: real, newScaleY: real)
      modifies this`scaleX, this`scaleY, this`scale, ctx`log, ctx`path
      ensures UniformScale() && scaleX == newScaleX && scaleY == newScaleY
      ensures ctx.log == old(ctx.log) + Frame(selectedVials, scale, imageWidth, imageHeight)
      ensures ctx.path == PathAfterVials(selectedVials, scale, [])
    {
      ghost var start := ctx.log;
      ResetCanvasSize();
      SetScales(newScaleX, newScaleY);
      DrawFrame();
      AppendAssoc(start, [ResetSurface], Redraw(selectedVials, scale, imageWidth, imageHeight, []));
    }

    /** The redraw at the end of resizeCanvas: drawImage, then drawVials. */
    method DrawFrame()
      modifies ctx`log, ctx`path
      ensures ctx.log == old(ctx.log) + Redraw(selectedVials, scale, imageWidth, imageHeight, old(ctx.path))
      ensures ctx.path == PathAfterVials(selectedVials, scale, old(ctx.path))
    {
      ghost var start := ctx.log;
      DrawImage();
      DrawVials();
      AppendAssoc(start, [DrawBase(scale, imageWidth, imageHeight)],
        VialsCommands(selectedVials, scale, imageWidth, imageHeight, old(ctx.path)));
    }

    /** The size assignment at the head of resizeCanvas: it clears the bitmap and
        resets the context, the current path included. */
    method ResetCanvasSize()
      modifies ctx`log, ctx`path
      ensures ctx.log == old(ctx.log) + [ResetSurface] && ctx.path == []
    {
      ctx.log := ctx.log + [ResetSurface];
      ctx.path := [];
    }

    /** The scale factors resizeCanvas computes, and the uniform scale as their minimum. */
    method SetScales(newScaleX: real, newScaleY: real)
      modifies this`scaleX, this`scaleY, this`scale
      ensures UniformScale() && scaleX == newScaleX && scaleY == newScaleY
    {
      scaleX := newScaleX;
      scaleY := newScaleY;
      scale := MinReal(scaleX, scaleY);
    }

    /** The keyup handler of the search box: the selection from the box's content,
        the result list, and a redraw. When cropping the first match throws, the
        handler stops after assigning the selection. The shadowed global
        searchString is not touched. */
    method OnSearchKeyUp(typed: string, newScaleX: real, newScaleY: real)
      modifies this`searchInput, this`selectedVials, this`foundList
      modifies this`scaleX, this`scaleY, this`scale, ctx`log, ctx`path
      ensures searchInput == typed && selectedVials == Select(vialList, typed)
      ensures ResultList(selectedVials).None? ==>
        && foundList == old(foundList) && ctx.log == old(ctx.log) && ctx.path == old(ctx.path)
        && scaleX == old(scaleX) && scaleY == old(scaleY) && scale == old(scale)
      ensures ResultList(selectedVials).Some? ==>
        && foundList == ResultList(selectedVials).value
        && UniformScale() && scaleX == newScaleX && scaleY == newScaleY
        && ctx.log == old(ctx.log) + Frame(selectedVials, scale, imageWidth, imageHeight)
        && ctx.path == PathAfterVials(selectedVials, scale, [])
    {
      UpdateSelection(typed);
      ShowResults(newScaleX, newScaleY);
    }

    /** The rest of the keyup handler: the result list for the selection, then a
        redraw, unless cropping the first match throws. */
    method ShowResults(newScaleX: real, newScaleY: real)
      modifies this`foundList, this`scaleX, this`scaleY, this`scale, ctx`log, ctx`path
      ensures ResultList(selectedVials).None? ==>
        && foundList == old(foundList) && ctx.log == old(ctx.log) && ctx.path == old(ctx.path)
        && scaleX == old(scaleX) && scaleY == old(scaleY) && scale == old(scale)
      ensures ResultList(selectedVials).Some? ==>
        && foundList == ResultList(selectedVials).value
        && UniformScale() && scaleX == newScaleX && scaleY == newScaleY
        && ctx.log == old(ctx.log) + Frame(selectedVials, scale, imageWidth, imageHeight)
        && ctx.path == PathAfterVials(selectedVials, scale, [])
    {
      var listElements := ListElements(selectedVials);
      if listElements.None? {
        return;
      }
      foundList := listElements.value;
      ResizeCanvas(newScaleX, newScaleY);
    }

    /** The first part of the keyup handler: the box's content, trimmed to decide
        whether there is a query, and the vials whose label holds the untrimmed content. */
    method UpdateSelection(typed: string)
      modifies this`searchInput, this`selectedVials
      ensures searchInput == typed && selectedVials == Select(vialList, typed)
    {
      searchInput := typed;
      var query := JsText.Trim(searchInput);
      if query == [] {
        selectedVials := [];
      } else {
        selectedVials := Filter(vialList, searchInput);
      }
    }

    /** processResponse: the panes switch first; an empty array then throws; otherwise
        the first element's vials, size and image are loaded and the canvas redrawn.
        The selection is left as it was, so it may no longer come from the new list. */
    method ProcessResponse(data: seq<Payload>, newScaleX: real, newScaleY: real) returns (thrown: bool)
      modifies this`view, this`vialList, this`imageWidth, this`imageHeight, this`imageSrc
      modifies this`scaleX, this`scaleY, this`scale, ctx`log, ctx`path
      ensures thrown <==> data == []
      ensures thrown ==> view == old(view).(uploadPane := false, searchPane := true)
      ensures !thrown ==> view == old(view).(uploadPane := false, searchPane := true, canvasShown := true)
      ensures thrown ==>
        && vialList == old(vialList) && imageWidth == old(imageWidth) && imageHeight == old(imageHeight)
        && imageSrc == old(imageSrc) && ctx.log == old(ctx.log) && ctx.path == old(ctx.path)
        && scaleX == old(scaleX) && scaleY == old(scaleY) && scale == old(scale)
      ensures !thrown ==>
        && vialList == data[0].vials && imageWidth == data[0].imgWidth && imageHeight == data[0].imgHeight
        && imageSrc == PNG_DATA_URL_PREFIX + data[0].img
        && UniformScale() && scaleX == newScaleX && scaleY == newScaleY
        && ctx.log == old(ctx.log) + Frame(selectedVials, scale, imageWidth, imageHeight)
        && ctx.path == PathAfterVials(selectedVials, scale, [])
    {
      view := view.(uploadPane := false, searchPane := true);

      if |data| == 0 {
        return true;
      }
      var item := data[0];
      LoadPayload(item);
      ResizeCanvas(newScaleX, newScaleY);
      return false;
    }

    /** The assignments processResponse makes from the response's first element. */
    method LoadPayload(item: Payload)
      modifies this`vialList, this`imageWidth, this`imageHeight, this`imageSrc, this`view
      ensures vialList == item.vials && imageWidth == item.imgWidth && imageHeight == item.imgHeight
      ensures imageSrc == PNG_DATA_URL_PREFIX + item.img && view == old(view).(canvasShown := true)
    {
      vialList := item.vials;
      imageWidth := item.imgWidth;
      imageHeight := item.imgHeight;
      imageSrc := PNG_DATA_URL_PREFIX + item.img;
      view := view.(canvasShown := true);
    }

    /** The change handler of the file input, up to the awaited fetch: with no file an
        error and no request; otherwise the label hidden, the loading message shown
        and one request sent. */
    method OnFileChosen(file: Option<ImageFile>)
      modifies this`imageFile, this`message, this`view, this`requests
      ensures imageFile == file
      ensures file.None? ==>
        message == Error(NO_FILE_MESSAGE) && view == old(view) && requests == old(requests)
      ensures file.Some? ==>
        && message == Info(LOADING_MESSAGE) && view == old(view).(labelShown := false)
        && requests == old(requests) + [file.value]
    {
      imageFile := file;
      if imageFile.None? {
        message := Error(NO_FILE_MESSAGE);
        return;
      }
      view := view.(labelShown := false);
      message := Hidden;
      view := view.(labelShown := false);
      message := Info(LOADING_MESSAGE);
      requests := requests + [imageFile.value];
    }

    /** The rest of the change handler, once the fetch settles: a failure shows its
        error and the label again and leaves the vial list and the image alone; a
        loaded response hides the banner. No check ties the response to the latest
        request. */
    method OnUploadSettled(outcome: FetchOutcome, newScaleX: real, newScaleY: real)
      modifies this`view, this`vialList, this`imageWidth, this`imageHeight, this`imageSrc
      modifies this`scaleX, this`scaleY, this`scale, ctx`log, ctx`path, this`message
      ensures SettledError(outcome).Some? ==>
        && message == Error(SettledError(outcome).value)
        && view == (if EmptyResponse(outcome) then old(view).(uploadPane := false, searchPane := true, labelShown := true)
                    else old(view).(labelShown := true))
        && vialList == old(vialList) && imageWidth == old(imageWidth) && imageHeight == old(imageHeight)
        && imageSrc == old(imageSrc) && ctx.log == old(ctx.log) && ctx.path == old(ctx.path)
        && scaleX == old(scaleX) && scaleY == old(scaleY) && scale == old(scale)
      ensures SettledError(outcome).None? ==>
        && message == Hidden && view == old(view).(uploadPane := false, searchPane := true, canvasShown := true)
        && vialList == outcome.body.items[0].vials
        && imageWidth == outcome.body.items[0].imgWidth && imageHeight == outcome.body.items[0].imgHeight
        && imageSrc == PNG_DATA_URL_PREFIX + outcome.body.items[0].img
        && UniformScale() && scaleX == newScaleX && scaleY == newScaleY
        && ctx.log == old(ctx.log) + Frame(selectedVials, scale, imageWidth, imageHeight)
        && ctx.path == PathAfterVials(selectedVials, scale, [])
    {
      match outcome {
        case Rejected(reason) =>
          message := Error(FETCH_PROBLEM_PREFIX + reason);
          view := view.(labelShown := true);
        case Responded(status, body) =>
          var branch := ResponseBranch(status);
          if branch != OkBranch {
            message := Error(if branch == NotOkBranch then SERVER_ERROR_MESSAGE else NETWORK_ERROR_MESSAGE);
            view := view.(labelShown := true);
          } else {
            match body {
              case NotJson(reason) =>
                message := Error(FETCH_PROBLEM_PREFIX + reason);
                view := view.(labelShown := true);
              case Json(data) =>
                var thrown := ProcessResponse(data, newScaleX, newScaleY);
                if thrown {
                  message := Error(FETCH_PROBLEM_PREFIX + EMPTY_DATA_ERROR);
                  view := view.(labelShown := true);
                } else {
                  message := Hidden;
                }
            }
          }
      }
    }
  }
}
