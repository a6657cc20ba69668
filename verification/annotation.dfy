/**
 * What the component draws for a set of predictions: a red box and a class
 * label per kept prediction on the hidden canvas, and the live overlay boxes.
 */
module Annotation {
  import opened Wrappers
  import opened Shapes
  import opened Threshold

  /**
   * The baseline of a box's label: 5 px above the box's top edge, or 15 px
   * below it when the box starts within 10 px of the top of the canvas.
   */
  function LabelY(y: real): (ty: real)
    ensures y > 10.0 ==> ty < y
    ensures y <= 10.0 ==> ty > y
    ensures y >= 0.0 ==> ty > 0.0
  {
    if y > 10.0 then y - 5.0 else y + 15.0
  }

  /** `strokeRect` at the box, then `fillText` of the class at the box's x. */
  function Annotate(p: Prediction): (marks: seq<DrawCommand>)
    ensures |marks| == 2 && marks[0].Rect? && marks[1].Text?
    ensures marks[1].text == p.className && marks[1].x == marks[0].x == p.bbox.x
    ensures p.bbox.y >= 0.0 ==> marks[1].y > 0.0
  {
    [Rect(p.bbox.x, p.bbox.y, p.bbox.width, p.bbox.height), Text(p.className, p.bbox.x, LabelY(p.bbox.y))]
  }

  /** The marks drawn for `kept`, in order: two per prediction. */
  function Plan(kept: seq<Prediction>): (plan: seq<DrawCommand>)
    ensures |plan| == 2 * |kept|
  {
    if kept == [] then [] else Annotate(kept[0]) + Plan(kept[1..])
  }

  lemma {:induction false} PlanAppend(a: seq<Prediction>, b: seq<Prediction>)
    ensures Plan(a + b) == Plan(a) + Plan(b)
  {
    if a == [] {
      assert a + b == b;
    } else {
      assert (a + b)[0] == a[0];
      assert (a + b)[1..] == a[1..] + b;
      PlanAppend(a[1..], b);
    }
  }

  lemma MarksAssoc(before: seq<DrawCommand>, drawn: seq<DrawCommand>, rect: DrawCommand, text: DrawCommand)
    ensures before + drawn + [rect] + [text] == before + (drawn + [rect, text])
  {
  }

  /** Drawing one more prediction appends its two marks. */
  lemma PlanSnoc(kept: seq<Prediction>, p: Prediction)
    ensures Plan(kept + [p]) == Plan(kept) + Annotate(p)
  {
    PlanAppend(kept, [p]);
    assert [p][1..] == [];
  }

  /** The i-th kept prediction owns marks 2i (its box) and 2i+1 (its label). */
  lemma {:induction false} PlanAt(kept: seq<Prediction>, i: nat)
    requires i < |kept|
    ensures Plan(kept)[2 * i] == Rect(kept[i].bbox.x, kept[i].bbox.y, kept[i].bbox.width, kept[i].bbox.height)
    ensures Plan(kept)[2 * i + 1] == Text(kept[i].className, kept[i].bbox.x, LabelY(kept[i].bbox.y))
  {
    if i > 0 {
      PlanAt(kept[1..], i - 1);
    }
  }

  /**
   * The marks of a screenshot: none unless annotations are on; otherwise the
   * plan of the predictions that reach the threshold.
   */
  function ScreenshotPlan(preds: seq<Prediction>, threshold: real, show: bool): (marks: seq<DrawCommand>)
    ensures !show ==> marks == []
    ensures |marks| % 2 == 0 && |marks| <= 2 * |preds|
  {
    if show then Plan(AboveThreshold(preds, threshold)) else []
  }

  /**
   * With annotations off a screenshot carries no marks; with them on it
   * carries exactly one box and one label per prediction that reaches the
   * threshold, in prediction order.
   */
  lemma ScreenshotPlanShape(preds: seq<Prediction>, threshold: real, show: bool)
    ensures !show ==> ScreenshotPlan(preds, threshold, show) == []
    ensures show ==>
      var kept := AboveThreshold(preds, threshold);
      var plan := ScreenshotPlan(preds, threshold, show);
      |plan| == 2 * |kept| &&
      forall i :: 0 <= i < |kept| ==>
        plan[2 * i] == Rect(kept[i].bbox.x, kept[i].bbox.y, kept[i].bbox.width, kept[i].bbox.height) &&
        plan[2 * i + 1] == Text(kept[i].className, kept[i].bbox.x, LabelY(kept[i].bbox.y))
  {
    if show {
      var kept := AboveThreshold(preds, threshold);
      forall i | 0 <= i < |kept|
        ensures Plan(kept)[2 * i] == Rect(kept[i].bbox.x, kept[i].bbox.y, kept[i].bbox.width, kept[i].bbox.height)
        ensures Plan(kept)[2 * i + 1] == Text(kept[i].className, kept[i].bbox.x, LabelY(kept[i].bbox.y))
      {
        PlanAt(kept, i);
      }
    }
  }

  /**
   * A label starts at its box's x and, for a box that starts on the canvas
   * (y >= 0), has its baseline below the canvas's top edge (y > 0): above
   * the box when there is room, below the box's top edge otherwise. Nothing
   * is said about the label's extent to the right or the bottom.
   */
  lemma LabelPlacement(kept: seq<Prediction>, i: nat)
    requires i < |kept|
    requires kept[i].bbox.y >= 0.0
    ensures Plan(kept)[2 * i].Rect? && Plan(kept)[2 * i + 1].Text?
    ensures Plan(kept)[2 * i + 1].x == Plan(kept)[2 * i].x
    ensures Plan(kept)[2 * i + 1].y > 0.0
    ensures Plan(kept)[2 * i + 1].y < Plan(kept)[2 * i].y <==> Plan(kept)[2 * i].y > 10.0
  {
    PlanAt(kept, i);
  }

  /** The hidden canvas turned into an image: the frame and the screenshot's marks. */
  function Shot(video: Video, preds: seq<Prediction>, threshold: real, show: bool): (img: Image)
    ensures img.width == video.videoWidth && img.height == video.videoHeight
    ensures img.background == Some(video.frame)
    ensures !show ==> img.marks == []
    ensures |img.marks| <= 2 * |preds|
  {
    Image(video.videoWidth, video.videoHeight, Some(video.frame), ScreenshotPlan(preds, threshold, show))
  }

  /** One absolutely positioned `<div>` of the live overlay. */
  datatype OverlayBox = OverlayBox(left: real, top: real, width: real, height: real, caption: string, score: real)

  /** The overlay box of a prediction: placed and sized by its bbox, captioned with its class and score. */
  function BoxOf(p: Prediction): (box: OverlayBox)
    ensures (box.left, box.top, box.width, box.height) == (p.bbox.x, p.bbox.y, p.bbox.width, p.bbox.height)
    ensures box.caption == p.className && box.score == p.score
  {
    OverlayBox(p.bbox.x, p.bbox.y, p.bbox.width, p.bbox.height, p.className, p.score)
  }

  function Boxes(kept: seq<Prediction>): (boxes: seq<OverlayBox>)
    ensures |boxes| == |kept|
    ensures forall i :: 0 <= i < |kept| ==> boxes[i] == BoxOf(kept[i])
  {
    if kept == [] then [] else [BoxOf(kept[0])] + Boxes(kept[1..])
  }

  /**
   * The live overlay: nothing when bounding boxes are hidden, otherwise one
   * box per prediction that reaches the threshold, at its bounding box and
   * captioned with its class, in prediction order.
   */
  function Overlay(preds: seq<Prediction>, threshold: real, show: bool): (boxes: seq<OverlayBox>)
    ensures !show ==> boxes == []
    ensures show ==> |boxes| == |AboveThreshold(preds, threshold)|
    ensures show ==> forall i :: 0 <= i < |boxes| ==>
      boxes[i].score >= threshold && boxes[i] == BoxOf(AboveThreshold(preds, threshold)[i])
  {
    AboveThresholdKeeps(preds, threshold);
    if show then Boxes(AboveThreshold(preds, threshold)) else []
  }
}
