/**
 * The hidden `<canvas>` the component draws its screenshots on, and the
 * loop that draws the annotations of a prediction set onto it.
 */
module Drawing {
  import opened Wrappers
  import opened Shapes
  import opened Threshold
  import opened Annotation

  /** A 2D canvas: its size, the frame painted on it and the marks drawn since. */
  class Canvas {
    var width: nat
    var height: nat
    var background: Option<Frame>
    var marks: seq<DrawCommand>

    /** A new canvas element is 300 by 150 pixels and blank. */
    constructor ()
      ensures width == 300 && height == 150 && background == None && marks == []
    {
      width, height := 300, 150;
      background, marks := None, [];
    }

    /** Setting `canvas.width` and `canvas.height` resizes the canvas and clears it. */
    method Resize(w: nat, h: nat)
      modifies this
      ensures width == w && height == h
      ensures background == None && marks == []
    {
      width, height := w, h;
      background, marks := None, [];
    }

    /** `drawImage(video, 0, 0, width, height)`: the frame covers the whole canvas. */
    method DrawImage(frame: Frame)
      modifies this
      ensures width == old(width) && height == old(height)
      ensures background == Some(frame) && marks == []
    {
      background, marks := Some(frame), [];
    }

    /** `strokeRect(x, y, w, h)` in red, 2 px wide. */
    method StrokeRect(x: real, y: real, w: real, h: real)
      modifies this
      ensures width == old(width) && height == old(height) && background == old(background)
      ensures marks == old(marks) + [Rect(x, y, w, h)]
    {
      marks := marks + [Rect(x, y, w, h)];
    }

    /** `fillText(text, x, y)` in red. */
    method FillText(text: string, x: real, y: real)
      modifies this
      ensures width == old(width) && height == old(height) && background == old(background)
      ensures marks == old(marks) + [Text(text, x, y)]
    {
      marks := marks + [Text(text, x, y)];
    }

    /** `toDataURL('image/jpeg')`: the canvas as an image. */
    function ToDataURL(): (img: Image)
      reads this
      ensures img.width == width && img.height == height
      ensures img.background == background && img.marks == marks
    {
      Image(width, height, background, marks)
    }
  }

  /**
   * The `forEach` over the kept predictions: a box and then a label for
   * each, one prediction after the other, over whatever the canvas shows.
   */
  method DrawPlan(canvas: Canvas, kept: seq<Prediction>)
    modifies canvas
    ensures canvas.width == old(canvas.width) && canvas.height == old(canvas.height)
    ensures canvas.background == old(canvas.background)
    ensures canvas.marks == old(canvas.marks) + Plan(kept)
  {
    ghost var before := canvas.marks;
    var i := 0;
    while i < |kept|
      invariant 0 <= i <= |kept|
      invariant canvas.width == old(canvas.width) && canvas.height == old(canvas.height)
      invariant canvas.background == old(canvas.background)
      invariant canvas.marks == before + Plan(kept[..i])
    {
      var p := kept[i];
      canvas.StrokeRect(p.bbox.x, p.bbox.y, p.bbox.width, p.bbox.height);
      canvas.FillText(p.className, p.bbox.x, LabelY(p.bbox.y));
      MarksAssoc(before, Plan(kept[..i]), Rect(p.bbox.x, p.bbox.y, p.bbox.width, p.bbox.height),
                 Text(p.className, p.bbox.x, LabelY(p.bbox.y)));
      PlanSnoc(kept[..i], p);
      assert kept[..i + 1] == kept[..i] + [p];
      i := i + 1;
    }
    assert kept[..i] == kept;
  }

  /** Draws the annotations of the predictions that reach the threshold. */
  method DrawAnnotations(canvas: Canvas, preds: seq<Prediction>, threshold: real)
    modifies canvas
    ensures canvas.width == old(canvas.width) && canvas.height == old(canvas.height)
    ensures canvas.background == old(canvas.background)
    ensures canvas.marks == old(canvas.marks) + Plan(AboveThreshold(preds, threshold))
  {
    DrawPlan(canvas, AboveThreshold(preds, threshold));
  }
}
