/** `VideoProcessor`: the per-track annotator.  Each `recv` takes the next
    frame, bumps the frame counter, draws the scene palette, runs the object
    detector on every `skip_frames`-th frame (counting from 1, after the
    bump) and keeps its boxes as the cache, draws one rectangle and label per
    cached box whose slice of the image is not empty, and hands back a frame
    with the input's timestamp and time base. */
module VideoProcessing {
  import opened Imaging
  import opened ColorNaming
  import opened DominantColors
  import opened Palette

  /** One row of `results[0].boxes.data`: corners, confidence, class id. */
  datatype Box = Box(x1: real, y1: real, x2: real, y2: real, conf: real, cls: real)

  /** The first result of a detector call: its boxes and its class-name table. */
  datatype Detections = Detections(boxes: seq<Box>, names: map<int, string>)

  /** A detector call on an image; None when inference raised. */
  type Detector = Image -> Option<Detections>

  /** The collaborators the colour steps use: the resampler behind
      `get_top_colors`, the exact name lookup and the reference name table. */
  datatype Tools = Tools(resize: Image -> Option<seq<Pixel>>, exact: Rgb -> Option<string>,
                         table: seq<NamedColor>)

  datatype TimeBase = TimeBase(num: int, den: int)

  /** An incoming frame: pixels, presentation timestamp and time base. */
  datatype VideoFrame = VideoFrame(image: Image, pts: Option<int>, timeBase: TimeBase)

  /** An outgoing frame: the pixels with the drawing calls made on them. */
  datatype AnnotatedFrame = AnnotatedFrame(image: Image, overlay: seq<DrawCmd>, pts: Option<int>,
                                           timeBase: TimeBase)

  /** `model and frame_count % skip_frames == 0`: the detector is called.
      (Python's `%` and Dafny's differ for a negative divisor, but agree on
      when the remainder is zero.) */
  predicate Invoked(model: Option<Detector>, skipFrames: int, frameCount: int) {
    model.Some? && Due(skipFrames, frameCount)
  }

  predicate Due(skipFrames: int, frameCount: int) {
    skipFrames != 0 && frameCount % skipFrames == 0
  }

  /** What the detection step of one `recv` did. */
  datatype Pass = NotRun | Ran(found: Detections) | Raised

  /** The detection step at counter value frameCount (after the increment).
      With a model and `skip_frames == 0`, `%` raises ZeroDivisionError. */
  function DetectionPass(model: Option<Detector>, skipFrames: int, frameCount: int, img: Image): (p: Pass)
    ensures p.Ran? ==> Invoked(model, skipFrames, frameCount) && model.value(img) == Some(p.found)
    ensures p.NotRun? <==> model.None? || (skipFrames != 0 && frameCount % skipFrames != 0)
    ensures Invoked(model, skipFrames, frameCount) && model.value(img).Some? ==> p == Ran(model.value(img).value)
    ensures p.Raised? <==> model.Some? && (skipFrames == 0 || (frameCount % skipFrames == 0 && model.value(img).None?))
  {
    if model.None? then NotRun
    else if skipFrames == 0 then Raised
    else if frameCount % skipFrames != 0 then NotRun
    else match model.value(img)
      case None => Raised
      case Some(d) => Ran(d)
  }

  /** `last_results` after the step: replaced wholesale when detection ran. */
  function NextCache(p: Pass, cache: Option<seq<Box>>): Option<seq<Box>> {
    if p.Ran? then Some(p.found.boxes) else cache
  }

  /** The label of a box: the class name from the current results, or
      "Object" when detection did not run this frame; None when the class id
      is not in the name table (a KeyError). */
  function LabelFor(box: Box, names: Option<map<int, string>>): Option<string> {
    match names
    case None => Some("Object")
    case Some(m) => if Trunc(box.cls) in m then Some(m[Trunc(box.cls)]) else None
  }

  /** What one iteration of the box loop does. */
  datatype BoxStep = SkipBox | Stop | Draw(cmds: seq<DrawCmd>)

  function BoxOutcome(box: Box, img: Image, names: Option<map<int, string>>,
                      resize: Image -> Option<seq<Pixel>>): BoxStep
  {
    var x1, y1, x2, y2 := Trunc(box.x1), Trunc(box.y1), Trunc(box.x2), Trunc(box.y2);
    var roi := Crop(img, y1, y2, x1, x2);
    if IsEmpty(roi) then SkipBox
    else
      var top := TopColors(roi, 1, resize);
      if top == [] then Stop  // `[0]` of an empty list raises IndexError
      else
        var ink := RgbToBgr(top[0]);
        match LabelFor(box, names)
        case None => Stop
        case Some(text) => Draw([Rectangle(x1, y1, x2, y2, ink, 2), PutText(text, x1, y1 - 10, 0.7, ink, 2)])
  }

  /** The calls of the box loop; an exception ends the loop (and the step). */
  function BoxesOps(boxes: seq<Box>, img: Image, names: Option<map<int, string>>,
                    resize: Image -> Option<seq<Pixel>>): seq<DrawCmd>
    decreases |boxes|
  {
    if boxes == [] then []
    else match BoxOutcome(boxes[0], img, names, resize)
      case SkipBox => BoxesOps(boxes[1..], img, names, resize)
      case Stop => []
      case Draw(cmds) => cmds + BoxesOps(boxes[1..], img, names, resize)
  }

  /** The class table the labels of this frame use: that of this frame's
      results, or none (every label "Object") when detection did not run. */
  function PassNames(p: Pass): Option<map<int, string>> {
    if p.Ran? then Some(p.found.names) else None
  }

  /** The calls of the detection step, given what the step did and the cache
      after it: nothing while there is no cache or when the step raised. */
  function DetectionOps(p: Pass, cache: Option<seq<Box>>, img: Image,
                        resize: Image -> Option<seq<Pixel>>): seq<DrawCmd> {
    if p.Raised? || cache.None? then []
    else BoxesOps(cache.value, img, PassNames(p), resize)
  }

  /** The calls of the scene step: the caption and the top-3 palette at (10, 40). */
  function SceneOps(img: Image, tools: Tools): seq<DrawCmd> {
    [PutText("Scene Colors:", 10, 30, 0.7, WhiteInk, 2)]
    + PaletteOps(Entries(TopColors(img, 3, tools.resize)), 10, 40, tools.exact, tools.table)
  }

  class VideoProcessor {
    var frameCount: int
    const skipFrames: int
    var lastResults: Option<seq<Box>>

    constructor (skipFrames: int)
      ensures frameCount == 0 && this.skipFrames == skipFrames && lastResults == None
    {
      frameCount := 0;
      this.skipFrames := skipFrames;
      lastResults := None;
    }

    /** `recv`, for the frame the source track delivered and the detector
        (None when the model failed to load). */
    method Recv(frame: VideoFrame, model: Option<Detector>, tools: Tools) returns (out: AnnotatedFrame)
      modifies this
      ensures frameCount == old(frameCount) + 1
      ensures lastResults == NextCache(DetectionPass(model, skipFrames, frameCount, frame.image), old(lastResults))
      ensures out == AnnotatedFrame(frame.image,
                                    SceneOps(frame.image, tools)
                                    + DetectionOps(DetectionPass(model, skipFrames, frameCount, frame.image),
                                                   lastResults, frame.image, tools.resize),
                                    frame.pts, frame.timeBase)
    {
      var img := frame.image;
      var canvas := new Canvas(img);
      frameCount := frameCount + 1;

      DrawScene(canvas, img, tools);
      ghost var scene := canvas.ops;
      assert scene == SceneOps(img, tools);

      ghost var p := DetectionPass(model, skipFrames, frameCount, img);
      var names, raised := Detect(img, model);
      assert canvas.ops == scene;
      DrawDetections(canvas, p, lastResults, raised, names, img, tools.resize);
      assert canvas.ops == scene + DetectionOps(p, lastResults, img, tools.resize);
      out := AnnotatedFrame(img, canvas.ops, frame.pts, frame.timeBase);
    }

    /** The detection step of `recv`: on every `skip_frames`-th frame the
        detector runs and its boxes replace the cache; `names` is the class
        table of this frame's results (None when the detector did not run) and
        `raised` says the step raised. */
    method Detect(img: Image, model: Option<Detector>) returns (names: Option<map<int, string>>, raised: bool)
      modifies this
      ensures frameCount == old(frameCount)
      ensures lastResults == NextCache(DetectionPass(model, skipFrames, frameCount, img), old(lastResults))
      ensures raised <==> DetectionPass(model, skipFrames, frameCount, img).Raised?
      ensures names == PassNames(DetectionPass(model, skipFrames, frameCount, img))
    {
      names := None;
      raised := false;
      if model.Some? {
        if skipFrames == 0 {
          raised := true;
        } else if frameCount % skipFrames == 0 {
          var results := model.value(img);
          if results.None? {
            raised := true;
          } else {
            names := Some(results.value.names);
            lastResults := Some(results.value.boxes);
          }
        }
      }
    }
  }

  /** The box drawing of the detection step, which runs unless the step
      raised or there is no cache yet. */
  method DrawDetections(canvas: Canvas, ghost p: Pass, cache: Option<seq<Box>>, raised: bool,
                        names: Option<map<int, string>>, img: Image, resize: Image -> Option<seq<Pixel>>)
    requires raised <==> p.Raised?
    requires names == PassNames(p)
    modifies canvas
    ensures canvas.ops == old(canvas.ops) + DetectionOps(p, cache, img, resize)
  {
    if !raised && cache.Some? {
      DrawBoxes(canvas, cache.value, img, names, resize);
    }
  }

  /** The scene step of `recv`: caption and palette of the frame's top three colours. */
  method DrawScene(canvas: Canvas, img: Image, tools: Tools)
    modifies canvas
    ensures canvas.ops == old(canvas.ops) + SceneOps(img, tools)
  {
    var sceneColors := GetTopColors(img, 3, tools.resize);
    canvas.DrawText("Scene Colors:", 10, 30, 0.7, WhiteInk, 2);
    DrawColorPalette(canvas, Entries(sceneColors), 10, 40, tools.exact, tools.table);
  }

  /** The calls one step of the box loop adds. */
  function StepCmds(o: BoxStep): seq<DrawCmd> {
    if o.Draw? then o.cmds else []
  }

  /** The calls of a run of box outcomes, up to the first that raised. */
  function StepsOps(os: seq<BoxStep>): seq<DrawCmd>
    decreases |os|
  {
    if os == [] then []
    else if os[0].Stop? then []
    else StepCmds(os[0]) + StepsOps(os[1..])
  }

  /** os lists the outcome of each box, as BoxOutcome defines it. */
  ghost predicate OutcomesOf(os: seq<BoxStep>, boxes: seq<Box>, img: Image,
                             names: Option<map<int, string>>, resize: Image -> Option<seq<Pixel>>) {
    && |os| == |boxes|
    && forall i {:trigger BoxOutcome(boxes[i], img, names, resize)} :: 0 <= i < |boxes| ==>
         os[i] == BoxOutcome(boxes[i], img, names, resize)
  }

  function Outcomes(boxes: seq<Box>, img: Image, names: Option<map<int, string>>,
                    resize: Image -> Option<seq<Pixel>>): seq<BoxStep>
    decreases |boxes|
  {
    if boxes == [] then [] else [BoxOutcome(boxes[0], img, names, resize)] + Outcomes(boxes[1..], img, names, resize)
  }

  lemma {:induction false} BoxesOpsIsStepsOps(boxes: seq<Box>, os: seq<BoxStep>, img: Image,
                                              names: Option<map<int, string>>,
                                              resize: Image -> Option<seq<Pixel>>)
    requires OutcomesOf(os, boxes, img, names, resize)
    ensures BoxesOps(boxes, img, names, resize) == StepsOps(os)
    decreases |boxes|
  {
    if boxes != [] {
      assert os[0] == BoxOutcome(boxes[0], img, names, resize);
      assert OutcomesOf(os[1..], boxes[1..], img, names, resize) by {
        forall i | 0 <= i < |boxes| - 1
          ensures os[1..][i] == BoxOutcome(boxes[1..][i], img, names, resize)
        {
          assert os[i + 1] == BoxOutcome(boxes[i + 1], img, names, resize);
        }
      }
      BoxesOpsIsStepsOps(boxes[1..], os[1..], img, names, resize);
    }
  }

  /** The box loop's calls are those of the boxes' outcomes in order. */
  lemma {:induction false} OutcomesOfBoxes(boxes: seq<Box>, img: Image, names: Option<map<int, string>>,
                                           resize: Image -> Option<seq<Pixel>>)
    ensures OutcomesOf(Outcomes(boxes, img, names, resize), boxes, img, names, resize)
    ensures BoxesOps(boxes, img, names, resize) == StepsOps(Outcomes(boxes, img, names, resize))
    decreases |boxes|
  {
    var os := Outcomes(boxes, img, names, resize);
    if boxes != [] {
      OutcomesOfBoxes(boxes[1..], img, names, resize);
      assert os[1..] == Outcomes(boxes[1..], img, names, resize);
      forall i | 0 <= i < |boxes|
        ensures os[i] == BoxOutcome(boxes[i], img, names, resize)
      {
        if i > 0 {
          assert os[i] == os[1..][i - 1];
          assert boxes[i] == boxes[1..][i - 1];
        }
      }
    }
    BoxesOpsIsStepsOps(boxes, os, img, names, resize);
  }

  /** One iteration of the box loop of `recv`, on the k-th cached box; `stop`
      when it raised. */
  method DrawBox(canvas: Canvas, boxes: seq<Box>, k: nat, img: Image, names: Option<map<int, string>>,
                 resize: Image -> Option<seq<Pixel>>, ghost os: seq<BoxStep>) returns (stop: bool)
    requires k < |boxes| && OutcomesOf(os, boxes, img, names, resize)
    modifies canvas
    ensures stop <==> os[k].Stop?
    ensures canvas.ops == old(canvas.ops) + StepCmds(os[k])
  {
    var box := boxes[k];
    assert os[k] == BoxOutcome(box, img, names, resize);
    var x1, y1, x2, y2 := Trunc(box.x1), Trunc(box.y1), Trunc(box.x2), Trunc(box.y2);
    var roi := Crop(img, y1, y2, x1, x2);
    if IsEmpty(roi) {
      return false;
    }
    var top := GetTopColors(roi, 1, resize);
    var caption := LabelFor(box, names);
    if top == [] || caption.None? {
      return true;
    }
    var ink := RgbToBgr(top[0]);
    canvas.DrawRectangle(x1, y1, x2, y2, ink, 2);
    canvas.DrawText(caption.value, x1, y1 - 10, 0.7, ink, 2);
    stop := false;
  }

  /** The box loop of `recv`: every cached box in order, until one raises. */
  method DrawBoxes(canvas: Canvas, boxes: seq<Box>, img: Image, names: Option<map<int, string>>,
                   resize: Image -> Option<seq<Pixel>>)
    modifies canvas
    ensures canvas.ops == old(canvas.ops) + BoxesOps(boxes, img, names, resize)
  {
    OutcomesOfBoxes(boxes, img, names, resize);
    DrawOutcomes(canvas, boxes, img, names, resize, Outcomes(boxes, img, names, resize));
  }

  /** The box loop proper, with os the boxes' outcomes. */
  method DrawOutcomes(canvas: Canvas, boxes: seq<Box>, img: Image, names: Option<map<int, string>>,
                      resize: Image -> Option<seq<Pixel>>, ghost os: seq<BoxStep>)
    requires OutcomesOf(os, boxes, img, names, resize)
    modifies canvas
    ensures canvas.ops == old(canvas.ops) + StepsOps(os)
  {
    var k := 0;
    while k < |boxes|
      invariant k <= |boxes|
      invariant canvas.ops + StepsOps(os[k..]) == old(canvas.ops) + StepsOps(os)
    {
      var stop := DrawBox(canvas, boxes, k, img, names, resize, os);
      assert os[k..][0] == os[k] && os[k..][1..] == os[k + 1..];
      if stop {
        return;
      }
      k := k + 1;
    }
  }

  /** A rectangle that frames a non-empty slice of the image and is drawn in
      that slice's dominant colour. */
  ghost predicate FramesDominantColor(cmd: DrawCmd, img: Image, resize: Image -> Option<seq<Pixel>>)
    requires cmd.Rectangle?
  {
    var roi := Crop(img, cmd.y1, cmd.y2, cmd.x1, cmd.x2);
    && !IsEmpty(roi)
    && |TopColors(roi, 1, resize)| > 0
    && cmd.color == RgbToBgr(TopColors(roi, 1, resize)[0])
  }

  /** The two calls drawn for one box, when it is drawn: a rectangle in the
      dominant colour of the box's slice, then the box's label. */
  lemma OutcomeShape(box: Box, img: Image, names: Option<map<int, string>>,
                     resize: Image -> Option<seq<Pixel>>)
    ensures var o := BoxOutcome(box, img, names, resize);
            o.Draw? ==>
              && |o.cmds| == 2
              && o.cmds[0].Rectangle? && FramesDominantColor(o.cmds[0], img, resize)
              && o.cmds[1].PutText? && LabelFor(box, names) == Some(o.cmds[1].text)
  {
  }

  /** Every call of a run of outcomes is one of the calls of a drawn outcome. */
  lemma {:induction false} StepsOpsFrom(os: seq<BoxStep>, k: nat)
    requires k < |StepsOps(os)|
    ensures exists i, j :: 0 <= i < |os| && os[i].Draw? && 0 <= j < |os[i].cmds| && StepsOps(os)[k] == os[i].cmds[j]
    decreases |os|
  {
    var head := StepCmds(os[0]);
    if k < |head| {
      assert StepsOps(os)[k] == os[0].cmds[k];
    } else {
      StepsOpsFrom(os[1..], k - |head|);
      var i, j :| 0 <= i < |os[1..]| && os[1..][i].Draw? && 0 <= j < |os[1..][i].cmds|
                  && StepsOps(os[1..])[k - |head|] == os[1..][i].cmds[j];
      assert os[i + 1] == os[1..][i];
    }
  }

  /** Every call of the box loop is one of the calls drawn for some box. */
  lemma CallFrom(boxes: seq<Box>, img: Image, names: Option<map<int, string>>,
                 resize: Image -> Option<seq<Pixel>>, k: nat)
    requires k < |BoxesOps(boxes, img, names, resize)|
    ensures exists i, j :: 0 <= i < |boxes| && 0 <= j < |StepCmds(BoxOutcome(boxes[i], img, names, resize))|
                           && BoxesOps(boxes, img, names, resize)[k] == StepCmds(BoxOutcome(boxes[i], img, names, resize))[j]
  {
    var os := Outcomes(boxes, img, names, resize);
    OutcomesOfBoxes(boxes, img, names, resize);
    StepsOpsFrom(os, k);
    var i, j :| 0 <= i < |os| && os[i].Draw? && 0 <= j < |os[i].cmds| && StepsOps(os)[k] == os[i].cmds[j];
    ghost var o := BoxOutcome(boxes[i], img, names, resize);
    assert os[i] == o;
    assert StepCmds(o) == o.cmds;
    assert BoxesOps(boxes, img, names, resize)[k] == StepCmds(o)[j];
  }

  /** Every call of the box loop is drawn for some box i: a rectangle framing
      the dominant colour of its slice, or box i's label. */
  lemma CallAt(boxes: seq<Box>, img: Image, names: Option<map<int, string>>,
               resize: Image -> Option<seq<Pixel>>, k: nat)
    requires k < |BoxesOps(boxes, img, names, resize)|
    ensures var cmd := BoxesOps(boxes, img, names, resize)[k];
            && (cmd.Rectangle? ==> FramesDominantColor(cmd, img, resize))
            && (cmd.PutText? ==> exists i :: 0 <= i < |boxes| && LabelFor(boxes[i], names) == Some(cmd.text))
  {
    CallFrom(boxes, img, names, resize, k);
    var i, j :| 0 <= i < |boxes| && 0 <= j < |StepCmds(BoxOutcome(boxes[i], img, names, resize))|
                && BoxesOps(boxes, img, names, resize)[k] == StepCmds(BoxOutcome(boxes[i], img, names, resize))[j];
    ghost var o := BoxOutcome(boxes[i], img, names, resize);
    ghost var cmd := BoxesOps(boxes, img, names, resize)[k];
    OutcomeShape(boxes[i], img, names, resize);
    assert o.Draw? && cmd == o.cmds[j];
    if j == 0 {
      assert cmd.Rectangle? && FramesDominantColor(cmd, img, resize);
    } else {
      assert cmd.PutText? && LabelFor(boxes[i], names) == Some(cmd.text);
    }
  }

  /** Every text call of ops writes text. */
  ghost predicate AllLabels(ops: seq<DrawCmd>, text: string) {
    forall k :: 0 <= k < |ops| && ops[k].PutText? ==> ops[k].text == text
  }

  /** Every text call of ops writes one of the names of the table. */
  ghost predicate LabelsFrom(ops: seq<DrawCmd>, names: map<int, string>) {
    forall k :: 0 <= k < |ops| && ops[k].PutText? ==> ops[k].text in names.Values
  }

  /** On a frame where detection did not run, every box label is "Object". */
  lemma StaleLabelsAreObject(boxes: seq<Box>, img: Image, resize: Image -> Option<seq<Pixel>>)
    ensures AllLabels(BoxesOps(boxes, img, None, resize), "Object")
  {
    var ops := BoxesOps(boxes, img, None, resize);
    forall k | 0 <= k < |ops| && ops[k].PutText?
      ensures ops[k].text == "Object"
    {
      CallAt(boxes, img, None, resize, k);
    }
  }

  /** On a frame where detection ran, every box label is a class name of
      this frame's results. */
  lemma FreshLabelsAreClassNames(boxes: seq<Box>, img: Image, names: map<int, string>,
                                 resize: Image -> Option<seq<Pixel>>)
    ensures LabelsFrom(BoxesOps(boxes, img, Some(names), resize), names)
  {
    var ops := BoxesOps(boxes, img, Some(names), resize);
    forall k | 0 <= k < |ops| && ops[k].PutText?
      ensures ops[k].text in names.Values
    {
      CallAt(boxes, img, Some(names), resize, k);
      var i :| 0 <= i < |boxes| && LabelFor(boxes[i], Some(names)) == Some(ops[k].text);
      assert names[Trunc(boxes[i].cls)] == ops[k].text;
    }
  }

  /** Every rectangle of the box loop frames a non-empty slice of the image
      and is drawn in that slice's dominant colour. */
  lemma RectanglesFrameNonEmptySlices(boxes: seq<Box>, img: Image, names: Option<map<int, string>>,
                                      resize: Image -> Option<seq<Pixel>>)
    ensures var ops := BoxesOps(boxes, img, names, resize);
            forall k :: 0 <= k < |ops| && ops[k].Rectangle? ==> FramesDominantColor(ops[k], img, resize)
  {
    var ops := BoxesOps(boxes, img, names, resize);
    forall k | 0 <= k < |ops| && ops[k].Rectangle?
      ensures FramesDominantColor(ops[k], img, resize)
    {
      CallAt(boxes, img, names, resize, k);
    }
  }

  /** A box whose slice is empty adds nothing and does not stop the loop. */
  lemma EmptySliceSkipped(box: Box, rest: seq<Box>, img: Image, names: Option<map<int, string>>,
                          resize: Image -> Option<seq<Pixel>>)
    requires IsEmpty(Crop(img, Trunc(box.y1), Trunc(box.y2), Trunc(box.x1), Trunc(box.x2)))
    ensures BoxesOps([box] + rest, img, names, resize) == BoxesOps(rest, img, names, resize)
  {
    assert ([box] + rest)[1..] == rest;
  }

  /** The detection step draws nothing until some pass has filled the cache,
      and on other frames draws only "Object" labels. */
  lemma DetectionOpsLabels(p: Pass, cache: Option<seq<Box>>, img: Image,
                           resize: Image -> Option<seq<Pixel>>)
    ensures cache.None? ==> DetectionOps(p, cache, img, resize) == []
    ensures !p.Ran? ==> AllLabels(DetectionOps(p, cache, img, resize), "Object")
    ensures p.Ran? ==> LabelsFrom(DetectionOps(p, cache, img, resize), p.found.names)
  {
    if !p.Raised? && cache.Some? {
      if p.Ran? {
        var ops := DetectionOps(p, cache, img, resize);
        assert PassNames(p) == Some(p.found.names);
        assert ops == BoxesOps(cache.value, img, Some(p.found.names), resize);
        FreshLabelsAreClassNames(cache.value, img, p.found.names, resize);
      } else {
        var ops := DetectionOps(p, cache, img, resize);
        assert PassNames(p) == None;
        assert ops == BoxesOps(cache.value, img, None, resize);
        StaleLabelsAreObject(cache.value, img, resize);
      }
    }
  }

  /** Number of frames among 1..n on which a present model is called. */
  function CallsUpTo(skipFrames: int, n: nat): nat
    decreases n
  {
    if n == 0 then 0
    else CallsUpTo(skipFrames, n - 1) + (if Due(skipFrames, n) then 1 else 0)
  }

  lemma {:induction false} MulAtLeast(x: int, s: int)
    requires x >= 1 && s > 0
    ensures x * s >= s
    decreases x
  {
    if x > 1 {
      MulAtLeast(x - 1, s);
      assert x * s == (x - 1) * s + s;
    }
  }

  /** Quotient and remainder are determined by n == q * s + r with 0 <= r < s. */
  lemma DivModUnique(n: int, s: int, q: int, r: int)
    requires s > 0 && 0 <= r < s && n == q * s + r
    ensures n / s == q && n % s == r
  {
    var q', r' := n / s, n % s;
    assert n == q' * s + r' && 0 <= r' < s;
    assert q * s - q' * s == (q - q') * s;
    if q' < q {
      MulAtLeast(q - q', s);
    } else if q < q' {
      MulAtLeast(q' - q, s);
    }
  }

  /** Going from n - 1 to n, the quotient by s grows exactly when s divides n. */
  lemma DivStep(n: int, s: int)
    requires s > 0 && n > 0
    ensures n / s == (n - 1) / s + (if n % s == 0 then 1 else 0)
  {
    var q, r := (n - 1) / s, (n - 1) % s;
    if r == s - 1 {
      assert n == (q + 1) * s + 0;
      DivModUnique(n, s, q + 1, 0);
    } else {
      DivModUnique(n, s, q, r + 1);
    }
  }

  /** With a positive period s, a present model is called on exactly n / s
      of the first n frames (the frames s, 2s, ...). */
  lemma {:induction false} CallsUpToCount(s: int, n: nat)
    requires s > 0
    ensures CallsUpTo(s, n) == n / s
    decreases n
  {
    if n > 0 {
      CallsUpToCount(s, n - 1);
      DivStep(n, s);
    }
  }

  /** With a period of two or more, the first frame is not one of them. */
  lemma FirstFrameNotDue(s: int)
    requires s >= 2
    ensures !Due(s, 1)
  {
    DivModUnique(1, s, 0, 1);
  }
}
