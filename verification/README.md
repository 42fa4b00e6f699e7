# colorpicker_api annotation core, modelled in Dafny

`colorpicker_api/main.py` is a FastAPI + WebRTC backend. It receives a
browser's camera track and sends back each frame annotated. Every frame gets
the three dominant scene colours as a palette in the top-left corner. Every
object the YOLO detector found gets a rectangle in the object's dominant
colour and a class label. This project models the deterministic pieces
around that plumbing:

- `imaging.dfy` (`Imaging`): BGR pixels and RGB triples, images with
  NumPy's slicing rules, Python's `int()` on floats, and a `Canvas` class.
  The canvas records the OpenCV drawing calls in order instead of
  rasterising them.
- `hex.dfy` (`HexFormat`): the `f"#{r:02x}{g:02x}{b:02x}"` label, and a
  parser that reads it back.
- `naming.dfy` (`ColorNaming`): `rgb_to_name`. The exact lookup comes first.
  The fallback fills a distance-keyed dict and takes the name under the
  smallest key.
- `topcolors.dfy` (`DominantColors`): `get_top_colors`. Colours are counted,
  ranked by count, cut to `n`, and returned in RGB order. An empty region or
  a failing resample gives `n` whites.
- `palette.dfy` (`Palette`): `draw_color_palette`, with its swatch layout and
  labels.
- `video.dfy` (`VideoProcessing`): `VideoProcessor` with its frame counter,
  detection cadence and result cache. `recv` draws the scene palette, runs
  detection, draws the boxes and copies the timestamp.
- `registry.dfy` (`Signaling`): the `pcs` set of peer connections, with
  offer, the connection-state handler and shutdown.

Collaborators the code calls but does not define are parameters of the
model:

- the 100x100 resample inside `get_top_colors`: `resize`, where None means it
  raised;
- webcolors' exact lookup: `exact`;
- the HTML4 name table: `table`, a sequence in iteration order;
- the YOLO model: `Option<Detector>`. None means loading failed. A detector
  returning None means inference raised.

Behaviour of the code worth noting:

- The counter is incremented before the `frame_count % skip_frames` test.
  With the default period of 2, detection therefore runs on frames 2, 4, …
  and never on the first frame (`FirstFrameNotDue`). Over n frames it runs
  n / 2 times (`CallsUpToCount`).
- Colour names are kept in a dict keyed by distance, so among equally near
  table entries the **last** one wins (`IsLastNearest`).
- On frames where detection did not run, boxes are labelled "Object"
  (`StaleLabelsAreObject`). On the frames where it ran they carry class names
  (`FreshLabelsAreClassNames`).
- With a model present and `skip_frames == 0`, the `%` raises
  ZeroDivisionError. The whole detection block is then skipped (`Raised`).

## Model

| member | source | states |
|---|---|---|
| Imaging.ToRgb | colorpicker_api/main.py:66-67 | the `(r, g, b)` tuple of a counted BGR pixel is in range and maps back to that pixel |
| Imaging.InkOfCountedPixel | colorpicker_api/main.py:128 | the ink drawn for a counted colour is the pixel of the resampled region it was counted from, channels in the frame's (b, g, r) order |
| Imaging.SliceIndex | colorpicker_api/main.py:124 | the normalised bound lies in 0..n and keeps exactly the indices at or after the bound, a negative bound counting from the end |
| Imaging.SliceIndexDetermined | colorpicker_api/main.py:124 | that slicing rule fixes the normalised bound uniquely |
| Imaging.Crop | colorpicker_api/main.py:124 | `img[y1:y2, x1:x2]` has the clamped height and width (0 when the bounds cross), and pixel (i, j) is the source pixel at the offset of the normalised start bounds |
| Imaging.Trunc | colorpicker_api/main.py:123 | `int(x)` truncates toward zero: it is the floor for non-negative x and the ceiling for negative x |
| Imaging.Canvas.DrawRectangle | colorpicker_api/main.py:130 | a rectangle call is appended to the calls already made |
| Imaging.Canvas.DrawText | colorpicker_api/main.py:131-132 | a text call is appended to the calls already made |
| HexFormat.DigitsRoundTrip | colorpicker_api/main.py:77 | the hex digits of v are all hex, read back as v, and number 1, 2 or at least 3 by magnitude |
| HexFormat.Format02xRoundTrip | colorpicker_api/main.py:77 | `format(v, "02x")` of a non-negative int is all hex digits, reads back as v, and is exactly two characters wide iff v < 256 |
| HexFormat.Format02xNegative | colorpicker_api/main.py:77 | a negative channel is printed with a minus sign, so it is not hex |
| HexFormat.HexCodeRoundTrip | colorpicker_api/main.py:77 | for channels in 0..255 the code is `#` and six lower-case hex digits, and it parses back to (r, g, b) |
| ColorNaming.SqDist | colorpicker_api/main.py:50-53 | the squared distance is zero exactly for the same colour |
| ColorNaming.LastNearest | colorpicker_api/main.py:47-54 | picks an entry at minimal distance with every later entry strictly farther, so on ties the last entry wins |
| ColorNaming.LastNearestUnique | colorpicker_api/main.py:53-54 | at most one entry is the last nearest, so the dict's choice is determined |
| ColorNaming.MinKey | colorpicker_api/main.py:54 | `min(keys)` is a member no larger than any key; None exactly for no keys, where `min` raises |
| ColorNaming.RgbToName | colorpicker_api/main.py:43-54 | the exact name if there is one; otherwise, for a non-empty table, the name of the last entry at minimal squared distance; None (raised) for an empty table |
| DominantColors.Count | colorpicker_api/main.py:62 | a colour's count is positive iff it occurs |
| DominantColors.DistinctSpec | colorpicker_api/main.py:62 | `np.unique`: each distinct pixel once, nothing else |
| DominantColors.InsertMembers | colorpicker_api/main.py:63 | inserting adds exactly one element and keeps the list duplicate-free |
| DominantColors.InsertSorted | colorpicker_api/main.py:63 | inserting keeps the list ordered by non-increasing count |
| DominantColors.SortByCountSpec | colorpicker_api/main.py:63 | the sort is a duplicate-free reordering by non-increasing count |
| DominantColors.NoDupsCard | colorpicker_api/main.py:62-65 | the number of distinct colours is the length of the unique list |
| DominantColors.RankedIsTop | colorpicker_api/main.py:62-67 | the first `min(n, #distinct)` colours of a count-ordered unique list meet the top-colour property |
| DominantColors.RankColorsIsTop | colorpicker_api/main.py:61-67 | returns `min(n, #distinct)` distinct in-range colours, each a pixel of the resampled region in RGB order; counts are non-increasing and no left-out pixel is more frequent than any returned colour |
| DominantColors.TopColorsSpec | colorpicker_api/main.py:56-70 | an empty region or a raising resample gives exactly n whites; otherwise the top-colour property holds; every entry is in 0..255 |
| DominantColors.GetTopColors | colorpicker_api/main.py:56-70 | the early returns and the appending loop compute TopColors |
| DominantColors.TopColorOfRegion | colorpicker_api/main.py:127 | `get_top_colors(roi, 1)` of a region with pixels is one colour that no pixel outnumbers |
| Palette.Entries | colorpicker_api/main.py:73-75 | the scene colours become well-formed three-value entries, one per colour, entry i holding colour i's r, g and b in that order |
| Palette.PaletteLength | colorpicker_api/main.py:73-86 | the palette draws two calls per well-formed entry and none for the others |
| Palette.PalettePrefix | colorpicker_api/main.py:73 | the calls for a prefix of the list come first |
| Palette.PaletteSwatchAt | colorpicker_api/main.py:82-86 | well-formed entry i gets a filled 20x20 square at (x, y + 25*i) in its own colour, then the label "name #rrggbb" at (x + 30, y + 25*i + 15), whatever was skipped before it |
| Palette.PaletteSkipsMalformed | colorpicker_api/main.py:74-75 | a None or wrongly sized entry adds no call |
| Palette.LabelIsNameAndHexCode | colorpicker_api/main.py:77-85 | the label is the colour's name, or "Unknown" when naming raised, then a space and the `#rrggbb` code, which parses back to the colour |
| Palette.DrawColorPalette | colorpicker_api/main.py:72-88 | the loop makes exactly the calls PaletteOps lists, in order |
| Palette.DrawSwatch | colorpicker_api/main.py:76-86 | one well-formed entry adds its square and its label |
| VideoProcessing.DetectionPass | colorpicker_api/main.py:114-118 | the detector is used only when a model exists and the period divides the counter, and then its answer is the pass's result; nothing runs iff there is no model or the period does not divide the counter; the step raises iff a model exists and the period is 0 or the detector raised |
| VideoProcessing.VideoProcessor.constructor | colorpicker_api/main.py:92-97 | counter 0, the given period, no cached results |
| VideoProcessing.VideoProcessor.Recv | colorpicker_api/main.py:99-139 | the counter grows by one; the cache is replaced by the new boxes iff detection ran; the output's base image is the input's, with the drawing calls kept as its overlay, and it keeps the input's pts and time base; its calls are the scene calls followed by the detection calls |
| VideoProcessing.VideoProcessor.Detect | colorpicker_api/main.py:115-118 | the detector runs on every period-th frame; its boxes replace the cache, and its class table is used for labels on that frame only |
| VideoProcessing.DrawDetections | colorpicker_api/main.py:120-134 | boxes are drawn only while a cache exists and the step did not raise |
| VideoProcessing.DrawScene | colorpicker_api/main.py:105-111 | the caption at (10, 30), then the palette of the top three colours at (10, 40) |
| VideoProcessing.DrawBox | colorpicker_api/main.py:121-132 | one box: an empty slice is skipped; a missing class name raises (so does an empty colour list, which the source's 100x100 resample never yields); otherwise a rectangle and a label in the slice's dominant colour |
| VideoProcessing.DrawBoxes | colorpicker_api/main.py:120-132 | the box loop makes the calls BoxesOps lists: every box in order until the first that raises |
| VideoProcessing.DrawOutcomes | colorpicker_api/main.py:121-134 | the loop over the boxes' outcomes stops at the first that raised |
| VideoProcessing.BoxesOpsIsStepsOps | colorpicker_api/main.py:121-134 | the calls of the box loop are those of the boxes' outcomes in order |
| VideoProcessing.OutcomesOfBoxes | colorpicker_api/main.py:121-134 | every box's outcome is the one BoxOutcome defines |
| VideoProcessing.OutcomeShape | colorpicker_api/main.py:127-132 | a drawn box gives a rectangle in its slice's dominant colour, then its label |
| VideoProcessing.StepsOpsFrom | colorpicker_api/main.py:121-132 | every call of the loop belongs to a drawn box |
| VideoProcessing.CallFrom | colorpicker_api/main.py:121-132 | every call of the box loop is one of the calls drawn for some box |
| VideoProcessing.CallAt | colorpicker_api/main.py:124-132 | every rectangle frames a non-empty slice in its dominant colour, and every text is some box's label |
| VideoProcessing.StaleLabelsAreObject | colorpicker_api/main.py:129 | on a frame where detection did not run, every label is "Object" |
| VideoProcessing.FreshLabelsAreClassNames | colorpicker_api/main.py:129 | on a frame where detection ran, every label is one of that result's class names |
| VideoProcessing.RectanglesFrameNonEmptySlices | colorpicker_api/main.py:124-130 | every rectangle frames a non-empty slice and is drawn in that slice's dominant colour |
| VideoProcessing.EmptySliceSkipped | colorpicker_api/main.py:125-126 | a box with an empty slice adds nothing and the loop goes on |
| VideoProcessing.DetectionOpsLabels | colorpicker_api/main.py:120-129 | nothing is drawn before the cache is filled; labels are "Object" unless detection ran, and then they are class names |
| VideoProcessing.DivStep | colorpicker_api/main.py:102-116 | one more frame adds one call exactly when the period divides the new counter |
| VideoProcessing.CallsUpToCount | colorpicker_api/main.py:102-118 | over the first n frames a present model is called n / s times |
| VideoProcessing.FirstFrameNotDue | colorpicker_api/main.py:102-116 | with a period of two or more the first frame never runs detection |
| Signaling.PeerConnection.constructor | colorpicker_api/main.py:149 | a new connection is open |
| Signaling.PeerConnection.SetState | colorpicker_api/main.py:158-160 | the transport changes the state, not the closed flag |
| Signaling.PeerConnection.Close | colorpicker_api/main.py:161 | `close()` marks the connection closed |
| Signaling.Registry.constructor | colorpicker_api/main.py:142 | `pcs` starts empty |
| Signaling.Registry.Offer | colorpicker_api/main.py:149-150 | each offer registers a fresh open connection and keeps every registered connection open |
| Signaling.Registry.OnConnectionStateChange | colorpicker_api/main.py:158-162 | failed, closed or disconnected: the connection is closed and discarded, a no-op on the set when it is absent; any other state changes nothing |
| Signaling.Registry.Shutdown | colorpicker_api/main.py:190-194 | every registered connection is closed and `pcs` ends empty, so a second shutdown finds nothing to close |

## Left out

- HTTP layer: the FastAPI app, CORS, the routes and the JSON bodies. This is I/O plumbing.
- SDP negotiation and `on_track`: aiortc's offer/answer exchange, track routing and `MediaBlackhole`. This is transport.
- YOLO itself: loading and inference are foreign calls. The detector is an opaque parameter that returns boxes and a class table, or raises.
- OpenCV and NumPy internals:
  - pixel rasterisation of `cv2.rectangle` and `cv2.putText`: drawing is a list of calls;
  - font and line-type arguments;
  - the interpolation of `cv2.resize`: the resample is an opaque parameter;
  - frame conversion to and from `bgr24`.
- Drawing feeding back into later reads: in the source, calls draw into `img` in place, so the detector and later box slices see the palette and earlier rectangles. In the model the pixels stay as they came in, and every step reads the un-annotated frame.
- webcolors internals: the exact-name lookup and the HTML4 table's contents are parameters.
- Logging, `print` and the ICE-state handler: they only log.
- Concurrency: `asyncio.gather` closes the connections concurrently. The model closes them one at a time. Events re-entering from `close()` (a "closed" state change firing the handler again) are not modelled.
- `RTCPeerConnection.close()` itself: the model only records that it was called.
- Exceptions from `cv2` drawing calls: they are not modelled. In the palette they are caught per entry; in `recv` they would end the scene or detection step.
- Entries that are not ints: `draw_color_palette` receives its colours from `get_top_colors`, so entries are modelled as int sequences, and `int(c)` is the identity on them.
- Floats that do not convert: `int()` of NaN or infinity in a box's coordinates or class id would raise. The model takes box values as reals.
- DominantColors.RankColorsIsTop: it does not fix the order among colours of equal count. NumPy's `unique` sorts rows lexicographically and `argsort` is not stable. The contract states only what holds for any tie order; the model's own order is first occurrence.
- VideoProcessing.BoxOutcome: `resize` is unconstrained, so the model keeps a path where `get_top_colors(roi, 1)` is empty and `[0]` raises. In the source the 100x100 resample always yields 10000 pixels, so that path cannot happen there.
- DominantColors.TopColors: `n` is a natural number. A negative `n_colors` is not modelled.
