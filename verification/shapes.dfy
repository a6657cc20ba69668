/**
 * The values the object-detector component passes around: detector
 * predictions, video frames, canvas draw commands, encoded images and
 * detection-history entries.
 */
module Shapes {
  import opened Wrappers

  /** A wall-clock time as the history shows it; opaque to the model. */
  type Timestamp = string

  /** The detector's `bbox`: `[x, y, width, height]` in video pixels. */
  datatype BoundingBox = BoundingBox(x: real, y: real, width: real, height: real)

  /** One detector result; `className` is the detector's `class` field. */
  datatype Prediction = Prediction(className: string, score: real, bbox: BoundingBox)

  /** A decoded video frame; its pixels are opaque to the model. */
  datatype Frame = Frame(id: nat)

  /** What the component reads from the webcam's `<video>` element. */
  datatype Video = Video(readyState: int, videoWidth: nat, videoHeight: nat, frame: Frame)

  /** The `readyState` a video has once it can be played through (HAVE_ENOUGH_DATA). */
  const HAVE_ENOUGH_DATA := 4

  /** A red mark drawn on the hidden canvas: an outlined box or a text label. */
  datatype DrawCommand =
    | Rect(x: real, y: real, width: real, height: real)
    | Text(text: string, x: real, y: real)

  /**
   * The JPEG data URL of the canvas: its size, the frame painted on it
   * (if any) and the marks drawn over that frame, in drawing order.
   */
  datatype Image = Image(width: nat, height: nat, background: Option<Frame>, marks: seq<DrawCommand>)

  /** A detection-history entry; `screenshot` is null until the capture sets it. */
  datatype HistoryEntry = HistoryEntry(className: string, score: real, timestamp: Timestamp, screenshot: Option<Image>)
}
