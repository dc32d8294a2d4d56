# vial-seeker, modelled in Dafny

vial-seeker reads the labels on a tray of sample vials. The server finds the vial tray in a photo and straightens it. It then detects the circular vial tops and reads each label. A browser client shows the corrected image and lets the user search the labels.

This project models the two parts of that system that are logic rather than library calls.

**The browser client** (`app/static/app.js`) is one mutable state record plus the handlers that reassign it. It is modelled as the class `Client.App`:

- the image size, the scale factors and the search state are fields;
- the DOM state the handlers set (panes, banner, result list, file input) is fields too;
- the canvas's 2-D context is a separate object, `Client.Context2D`. It holds the log of drawing operations issued on it and its current path.

Each handler is a method whose `ensures` gives the new state in terms of specification functions:

| function | what it specifies |
|---|---|
| `Vials.Select` | the selection |
| `SearchResults.ResultList` | the result list |
| `Overlay.Frame` | one redraw |
| `Client.SettledError` | the upload outcome |

Lemmas prove what those functions promise:

- the selection is the order-preserving subsequence of the vial list whose labels contain the query;
- the list holds min(n, 10) entries, and only the first has a preview;
- a frame draws base, backstage, one accent circle, then secondary circles;
- the `status === 500` branch is never taken, so its message never appears.

**The server pipeline** (`app/methods.py`) contributes only its integer and shape rules:

- `CircularMask` models `apply_circular_mask`, the annulus mask over a 2-D or 3-D integer grid;
- `ImageShapes` models the orientation rule of `prepare_image` and `correct_image`, the fixed output size, the Hough radius bounds of `detect_vials`, and the slice `unwrap_vial` keeps.

Modules, one file each:

| file | module |
|---|---|
| `basics.dfy` | `Basics`: Option, Min/Max, associativity of `+` |
| `text.dfy` | `JsText`: `trim` and `includes` |
| `vials.dfy` | `Vials`: the selection |
| `results.dfy` | `SearchResults`: the crop rectangle and the result list |
| `overlay.dfy` | `Overlay`: drawing operations |
| `client.dfy` | `Client`: the state and the handlers |
| `mask.dfy` | `CircularMask` |
| `shapes.dfy` | `ImageShapes` |

Behaviour of the code that is easy to misread:

- **Transport errors do not reset state.** At app/static/app.js:235-248, a rejected fetch, a non-ok status, a body that is not JSON and an empty response array all leave the vial list, the image, the selection and the canvas untouched. The error banner and the file label change. An empty array also switches the panes first, because `processResponse` hides the upload pane before it reads `data[0]`.
- **The first vial counts toward the cap.** The comment on `MAX_VIALS_NUM` (app/static/app.js:2) says ten vials are shown "in addition to" the first. In the code the first vial is one of the ten, both in the list and in the overlay.
- **The 500 branch is dead.** At app/static/app.js:235-241, `status === 500` is examined only after `!response.ok`. So a 500 response shows the server-error message, and the network-error message is never shown (`Client.ResponseBranch`, `Client.SettledError`).
- **A late response keeps the old selection.** It replaces the vial list, but `processResponse` keeps the previous selection (app/static/app.js:60-73), which may then no longer come from the list (`Client.App.ProcessResponse`).
- **The empty-query rule tests the trimmed text, the filter matches the untrimmed text.** The query `" A"` is non-empty, yet it matches only labels that contain `" A"` (`Vials.LeadingSpaceQuery`).
- **"radius2 > radius1 blanks the image" needs non-negative radii.** It holds for non-negative radii (`CircularMask.CrossedRadii`). In general radius2² > radius1² suffices (`CircularMask.EmptyAnnulus`), because a negative radius is squared (`CircularMask.NegativeRadiusKeepsCentre`).

## Model

| member | source | states |
|---|---|---|
| JsText.TrimStart | app/static/app.js:254 | the result is a suffix of the input; every dropped character is JS whitespace; a non-empty result does not start with whitespace |
| JsText.TrimEnd | app/static/app.js:254 | the result is a prefix of the input; every dropped character is JS whitespace; a non-empty result does not end with whitespace |
| JsText.Trim | app/static/app.js:254 | `trim()` is never longer than its input; a non-empty result starts and ends with non-whitespace |
| JsText.TrimEmptyIff | app/static/app.js:254-255 | the trimmed query is empty exactly when every character of the box is JS whitespace |
| JsText.Includes | app/static/app.js:258 | the empty query is included in every label; a query longer than the label is not included |
| JsText.IncludesIffOccurs | app/static/app.js:258 | `label.includes(q)` holds exactly when q occurs at some index of the label |
| Vials.Filter | app/static/app.js:258 | the filtered list is never longer than the vial list, and every vial in it is a vial of the list whose label includes the query (its positions are stated by FilterPositions) |
| Vials.FilterPositions | app/static/app.js:258 | filter keeps exactly the vials whose label includes the query, as a subsequence at their original positions, in order |
| Vials.SelectPositions | app/static/app.js:254-259 | the selection is the subsequence of the vial list at the positions whose label includes the untrimmed text, and is empty when the trimmed text is |
| Vials.Select | app/static/app.js:254-259 | the selection is empty when the trimmed text is; otherwise every selected vial is in the vial list and its label includes the untrimmed text; it is never longer than the list |
| Vials.FilterAllMatch | app/static/app.js:258 | when every label includes the query, filter returns the whole list |
| Vials.SelectEmptyIff | app/static/app.js:254-259 | the selection is empty exactly when the trimmed text is empty or no label includes the untrimmed text |
| Vials.LeadingSpaceQuery | app/static/app.js:254-258 | " A" trims to "A" and "A1" includes "A", yet " A" selects nothing from [A1, B2] |
| Vials.SingleMatchQuery | app/static/app.js:254-258 | "A" selects exactly A1 from [A1, B2] |
| SearchResults.CropSelectedVial | app/static/app.js:142-146 | the crop reads the 2r x 2r square whose corner is (cx - r, cy - r), without clamping to the image, onto a 2r x 2r canvas; it fails (getImageData throws) exactly when r = 0 |
| SearchResults.CropCoversVial | app/static/app.js:143-146 | every pixel strictly inside the vial's circle lies in the crop region |
| SearchResults.ListElements | app/static/app.js:261-270 | the loop builds exactly ResultList of the selection, stopping with no list when the first crop throws |
| SearchResults.ResultList | app/static/app.js:261-270 | the list fails only when the first vial has radius 0 (the crop throws); otherwise it has min(n, MAX_VIALS_NUM) entries, the first a 2r x 2r preview with the first label, each later one that vial's label alone |
| SearchResults.TwelveMatchesShowTen | app/static/app.js:2-2 | twelve vials all matching "A" give ten entries: one preview and nine labels |
| Overlay.FrameStrokeCounts | app/static/app.js:121-136 | a frame strokes exactly one accent circle when the selection is non-empty, none otherwise, and min(n, 10) - 1 secondary circles, so the first vial counts toward the cap |
| Overlay.VialsStrokeCounts | app/static/app.js:121-136 | drawVials alone strokes the same circles: one in #ff3d00 for a non-empty selection, min(n, 10) - 1 in black |
| Overlay.Frame | app/static/app.js:77-139 | one resize issues the size reset and the base image, and for a non-empty selection two backstage operations and one stroke per marked vial: 2, or 4 + min(n, 10), operations |
| Overlay.FrameOrder | app/static/app.js:77-139 | a frame is: the size reset; the base image; then, only for a non-empty selection, the half-transparent white rectangle, the fill of the empty path, vial 0 in #ff3d00 at 15, and vials 1.. up to the cap in black at 10 |
| Client.ResponseBranch | app/static/app.js:235-241 | the ok branch is taken exactly for 2xx statuses, and the `status === 500` branch is never taken |
| Client.SettledError | app/static/app.js:224-248 | the upload fails unless the response is ok, parses as JSON and holds a non-empty array; a non-ok status gives the server-error message; the network-error message never appears |
| Client.SearchSelectsFromList | app/static/app.js:253-259 | the selection the keyup handler assigns is an order-preserving subsequence of the vial list, and every selected label contains the typed text |
| Client.Context2D.constructor | app/static/app.js:13 | a fresh context has drawn nothing and has no current path |
| Client.App.constructor | app/static/app.js:17-27 | zero image size, unit scales, empty search state and search box, no image source, file or result list, the upload pane and label shown, no banner, nothing drawn |
| Client.App.ResetAll | app/static/app.js:35-56 | whatever the prior state: zero size, unit scales, uniform scale consistent; empty search string, selection, vial list and search box; the image source, result list and file cleared; upload pane and label shown, search pane and canvas hidden; the selection invariant holds |
| Client.App.ResetGeometry | app/static/app.js:36-40 | zero image size and unit scales |
| Client.App.ResetSearch | app/static/app.js:42-45 | empty search string, selection, vial list and search box |
| Client.App.ResetView | app/static/app.js:47-55 | image source, result list and file cleared; upload pane and label shown, search pane and canvas hidden |
| Client.App.DrawImage | app/static/app.js:89-95 | the log gains one base-image operation at the uniform scale, and nothing else changes |
| Client.App.DrawBackstage | app/static/app.js:99-108 | the log gains the half-transparent white rectangle, then a white fill of whatever path is current |
| Client.App.DrawVial | app/static/app.js:112-118 | the current path becomes the one circle, and the log gains one stroke of it in the given colour and thickness |
| Client.App.DrawVials | app/static/app.js:121-139 | the log gains exactly VialsCommands (nothing for an empty selection); the current path ends as the last marked vial's circle |
| Client.App.ResizeCanvas | app/static/app.js:77-85 | the new scales are stored with the uniform scale their minimum; the log gains exactly one Frame, which depends on the state and not on the earlier path, so resizing twice draws the same frame twice |
| Client.App.ResetCanvasSize | app/static/app.js:78-79 | the size assignment logs a surface reset and empties the current path |
| Client.App.SetScales | app/static/app.js:80-82 | the scale factors are stored and the uniform scale is their minimum |
| Client.App.DrawFrame | app/static/app.js:83-84 | the log gains the base image followed by drawVials' operations |
| Client.App.UpdateSelection | app/static/app.js:254-259 | the box content is recorded and the selection becomes Select(vialList, typed) |
| Client.App.OnSearchKeyUp | app/static/app.js:253-274 | the selection is Select(vialList, typed); when the first crop throws, the result list, the canvas and the scales are untouched; otherwise the result list is ResultList, the new scales are stored, one Frame is drawn and the current path is the last marked vial's circle |
| Client.App.ShowResults | app/static/app.js:261-273 | for the current selection: when the first crop throws, nothing changes; otherwise the result list is ResultList, the new scales are stored, one Frame is drawn and the current path is the last marked vial's circle |
| Client.App.ProcessResponse | app/static/app.js:60-73 | the panes switch in every case; an empty array throws after that and changes nothing else; otherwise the vial list, the size and the image come from data[0], the canvas is shown, the new scales are stored and a Frame is drawn, the selection being kept |
| Client.App.LoadPayload | app/static/app.js:66-71 | vial list, size and data-URL image come from the payload, and the canvas is shown |
| Client.App.OnFileChosen | app/static/app.js:213-233 | with no file: the error banner, no request and nothing else changed; with a file: the label hidden, the loading banner and exactly one request for that file |
| Client.App.OnUploadSettled | app/static/app.js:230-250 | on any failure (SettledError): that error in the banner and the label shown, the panes as before except for an empty array, which switches them; the vial list, the image, the scales and the canvas untouched. On success: banner hidden, panes switched, canvas shown, the payload loaded, the new scales stored and a Frame drawn |
| CircularMask.MaskPlane | app/methods.py:198-207 | each value of the 2-D plane is kept inside the annulus and 0 outside, the shape unchanged |
| CircularMask.MaskPixels | app/methods.py:209-214 | for a 3-D image every channel of a pixel is kept inside the annulus and 0 outside, the shape unchanged |
| CircularMask.ApplyCircularMask | app/methods.py:185-216 | same kind and shape as the input; value (y, x[, c]) equals the input where radius2² ≤ (x − w//2)² + (y − h//2)² ≤ radius1², else 0 |
| CircularMask.EmptyAnnulus | app/methods.py:207-214 | when radius2² > radius1² every output value is 0 |
| CircularMask.CrossedRadii | app/methods.py:207-214 | for 0 ≤ radius1 < radius2 every output value is 0 |
| CircularMask.NegativeRadiusKeepsCentre | app/methods.py:207 | with radius1 = -1 and radius2 = 0 the 1 x 1 image [[7]] is returned unchanged, so the rule above needs non-negative radii |
| CircularMask.MaskIdempotent | app/methods.py:204-214 | masking twice with the same radii equals masking once |
| CircularMask.SameMaskPerChannel | app/methods.py:209-214 | each channel of a masked colour image equals the gray mask applied to that channel alone |
| ImageShapes.Rotate90 | app/methods.py:23 | a quarter turn swaps rows and columns |
| ImageShapes.Landscape | app/methods.py:21-23 | the result has rows = min and cols = max of the input's sides, and is the input exactly when rows ≤ cols |
| ImageShapes.PrepareImage | app/methods.py:15-25 | columns ≥ rows after preparation; rotation happens only when rows > cols and swaps them; the pixel count is kept |
| ImageShapes.PrepareIdempotent | app/methods.py:21-23 | preparing a prepared shape leaves it unchanged |
| ImageShapes.Resize | app/methods.py:149 | the resize yields dsize.height rows and dsize.width columns; an empty source fails |
| ImageShapes.CorrectImage | app/methods.py:143-149 | every non-empty warp result is corrected to 2550 rows x 3878 columns, already landscape |
| ImageShapes.HoughCircleParams | app/methods.py:168-178 | maxRadius = min(rows, cols) / 16, minRadius = 3·maxRadius / 4 (floors of the int() truncations), 0 ≤ minRadius ≤ maxRadius, minDist = 2·minRadius, dp 1, param1 50, param2 30 |
| ImageShapes.HoughSymmetric | app/methods.py:169 | the parameters do not depend on which side is the shorter: a quarter-turned image gets the same ones |
| ImageShapes.HoughForCorrectedImage | app/methods.py:168-179 | a 2550 x 3878 image gets maxRadius 159, minRadius 119, minDist 238 |
| ImageShapes.PySlice | app/methods.py:282 | a Python slice clamps both ends to the length and is empty when start ≥ end; element k is s[lo + k] |
| ImageShapes.ColumnBounds | app/methods.py:282 | the column slice runs from w/8 to 7w/8 (floors): floor(w/8) columns dropped on the left, ceil(w/8) on the right |
| ImageShapes.UnwrapVialCrop | app/methods.py:281-282 | unwrap_vial keeps max(h/2 − 2, 0) rows of 7w/8 − w/8 columns; pixel (i, j) is polar pixel (i + 2, j + w/8) |

## Left out

- OpenCV pixel operations are left out: foreign library calls. This covers `cvtColor`, `rotate`'s pixel mapping, `medianBlur`, `threshold`, `erode`/`dilate`, `findContours`, `convexHull`, `approxPolyDP`, `HoughCircles`, `getPerspectiveTransform`/`warpPerspective`, `warpPolar` and `getRotationMatrix2D`. Only the shapes they produce are modelled, and the warp's output shape is a parameter of `CorrectImage`.
- `ImageShapes.Resize`: an empty source is modelled as a failure, following the image library's non-empty-source assertion; nothing else of the resize is modelled.
- OCR (`pytesseract`) in `get_number_on_vial` is left out: it is an external program.
- Floating-point geometry and statistics are left out because they are real-number geometry: `order_points`, the centroid scaling, the `correct_image` edge lengths, `stretch_contrast`, the `rotate_vial` angle, `norm`, and the search over quadrilaterals in `get_vial_area_polygon`.
- `get_number_on_vial`'s own arithmetic is left out. Its operands are unsigned 16-bit, so `r - 5` wraps for r < 5. The mask takes real radii as given.
- `ImageShapes.HoughCircleParams`, `ImageShapes.ColumnBounds` and `ImageShapes.UnwrapVialCrop` compute exact real quotients and floors. This matches float64 for the image sizes involved; rounding of very large sizes is not modelled.
- `CircularMask.ApplyCircularMask`: the mask covers only images with 2 or 3 axes. A numpy array with rows of width w but no rows has width w, while the model gives it width 0.
- `resizeCanvas`'s scale computation is left out because it is floating-point division over `window.innerWidth` and the browser's canvas-size truncation. `Client.App.ResizeCanvas` and the handlers that call it take the two scale factors as parameters.
- The `resizeCanvas()` call at script load is not modelled: it divides by the zero image size. `Client.App.constructor` starts from the declared initial values and assumes the page opens in the layout `resetAll` restores.
- Pixel rendering, `toDataURL`/`innerHTML` markup, CSS display values and the `fetch` transport are browser facilities, so they are left out. Drawing is a log of operations, each pane is a boolean, the result list is a list of entries, and a settled fetch is a `FetchOutcome` value.
- `Client.App.OnUploadSettled`: the text of the caught exception is not modelled; an empty array is reported as `TypeError` after the fetch-problem prefix.
- The upload handler is split at its `await` into `OnFileChosen` and `OnUploadSettled`, because concurrency is not modelled. Interleavings of several pending uploads are represented only by calling `OnUploadSettled` in any order.
- `app/__init__.py` is not part of this model. It is Flask routing, image decoding and base64 encoding.
