/**
 * The webcam-capture component: its state, the detection tick, the two
 * screenshot paths and the user's toggles.
 */
module Session {
  import opened Wrappers
  import opened Shapes
  import opened Annotation
  import opened Drawing
  import opened History
  import opened Camera

  /** A tick runs only with a webcam whose video has enough data and a loaded model. */
  predicate TickRuns(webcam: Option<Video>, modelLoaded: bool)
    ensures TickRuns(webcam, modelLoaded) ==> webcam.Some? && modelLoaded
    ensures webcam.Some? && modelLoaded ==> (TickRuns(webcam, modelLoaded) <==> webcam.value.readyState == HAVE_ENOUGH_DATA)
  {
    webcam.Some? && webcam.value.readyState == HAVE_ENOUGH_DATA && modelLoaded
  }

  class WebcamCapture {
    /** The hidden canvas screenshots are drawn on. */
    const canvas: Canvas
    /** Whether `model` is no longer null. */
    var modelLoaded: bool
    var isLoading: bool
    /** The latest result set published by a tick. */
    var predictions: seq<Prediction>
    /** First sightings, newest first. */
    var detectionHistory: seq<HistoryEntry>
    var showBoundingBoxes: bool
    var confidenceThreshold: real
    var facingMode: string
    /**
     * The `predictions` and `confidenceThreshold` seen by the running
     * `detectObjects` callback. The callback is re-created only when the
     * model or the history changes, so these are the values of the render
     * that followed the last such change, and the automatic captures draw
     * them.
     */
    var callbackPredictions: seq<Prediction>
    var callbackThreshold: real

    ghost predicate Valid()
      reads this
    {
      && isLoading == !modelLoaded
      && IsFacingMode(facingMode)
      && forall k :: 0 <= k < |detectionHistory| ==> detectionHistory[k].screenshot.Some?
    }

    /** The state of a freshly mounted component. */
    constructor ()
      ensures Valid() && fresh(canvas)
      ensures !modelLoaded && isLoading
      ensures predictions == [] && detectionHistory == []
      ensures showBoundingBoxes && confidenceThreshold == 0.5 && facingMode == USER
      ensures callbackPredictions == [] && callbackThreshold == 0.5
    {
      canvas := new Canvas();
      modelLoaded, isLoading := false, true;
      predictions, detectionHistory := [], [];
      showBoundingBoxes, confidenceThreshold, facingMode := true, 0.5, USER;
      callbackPredictions, callbackThreshold := [], 0.5;
    }

    /**
     * The detector has finished loading. The new `model` re-creates the
     * tick callback, which now sees the current predictions and threshold.
     */
    method OnModelLoaded()
      requires Valid()
      modifies this`modelLoaded, this`isLoading, this`callbackPredictions, this`callbackThreshold
      ensures Valid() && modelLoaded && !isLoading
      ensures callbackPredictions == predictions && callbackThreshold == confidenceThreshold
    {
      modelLoaded := true;
      isLoading := false;
      callbackPredictions, callbackThreshold := predictions, confidenceThreshold;
    }

    /**
     * An automatic capture: paints the video frame, always draws the boxes
     * of the callback's predictions that reach the callback's threshold, and
     * prepends the entry with that image as its screenshot.
     */
    method CaptureScreenshotWithBoundingBoxes(video: Video, detection: HistoryEntry)
      requires Valid()
      modifies this`detectionHistory, canvas
      ensures Valid()
      ensures detectionHistory
           == [Stamped(detection, Shot(video, callbackPredictions, callbackThreshold, true))] + old(detectionHistory)
      ensures canvas.ToDataURL() == Shot(video, callbackPredictions, callbackThreshold, true)
    {
      canvas.Resize(video.videoWidth, video.videoHeight);
      canvas.DrawImage(video.frame);
      DrawAnnotations(canvas, callbackPredictions, callbackThreshold);
      assert canvas.marks == ScreenshotPlan(callbackPredictions, callbackThreshold, true);
      var imageSrc := canvas.ToDataURL();
      assert imageSrc == Shot(video, callbackPredictions, callbackThreshold, true);
      var captured := detection.(screenshot := Some(imageSrc));
      detectionHistory := [captured] + detectionHistory;
    }

    /**
     * The body of the tick's `forEach`: captures `detection` unless its class
     * occurs in `seen`, the history the tick started from.
     */
    method CaptureIfNew(video: Video, seen: seq<HistoryEntry>, detection: HistoryEntry)
      requires Valid()
      modifies this`detectionHistory, canvas
      ensures Valid()
      ensures detectionHistory
           == CaptureOf(detection, seen, Shot(video, callbackPredictions, callbackThreshold, true)) + old(detectionHistory)
    {
      if !Known(seen, detection.className) {
        CaptureScreenshotWithBoundingBoxes(video, detection);
      }
    }

    /**
     * The tick's `forEach`: considers the candidates in order, each against
     * `seen`, the history the tick started from, never against the entries
     * captured earlier in the same pass.
     */
    method CaptureNew(video: Video, seen: seq<HistoryEntry>, candidates: seq<HistoryEntry>)
      requires Valid()
      modifies this`detectionHistory, canvas
      ensures Valid()
      ensures detectionHistory
           == Prepended(candidates, seen, Shot(video, callbackPredictions, callbackThreshold, true)) + old(detectionHistory)
    {
      ghost var img := Shot(video, callbackPredictions, callbackThreshold, true);
      var i := 0;
      while i < |candidates|
        invariant 0 <= i <= |candidates|
        invariant Valid()
        invariant detectionHistory == Prepended(candidates[..i], seen, img) + old(detectionHistory)
      {
        PrependedStep(candidates, i, seen, img);
        ghost var before := detectionHistory;
        CaptureIfNew(video, seen, candidates[i]);
        ConcatAssoc(CaptureOf(candidates[i], seen, img), Prepended(candidates[..i], seen, img), old(detectionHistory));
        i := i + 1;
      }
      assert candidates[..i] == candidates;
    }

    /**
     * One tick of the detection loop, given the webcam (None when there is
     * none), the detector's result set and the time. The video is read once:
     * the frame the guard checks is the frame the captures draw.
     * Every candidate whose class is absent from the history as it stood at
     * the start of the tick is captured, drawn with the callback's
     * predictions and threshold. The result set is then published; when the
     * history grew, the re-created callback sees it and the current
     * threshold. The hidden canvas is scratch space that every capture
     * clears, so its contents afterwards are not part of the contract.
     */
    method DetectObjects(webcam: Option<Video>, detected: seq<Prediction>, now: Timestamp)
      requires Valid()
      modifies this`predictions, this`detectionHistory, this`callbackPredictions, this`callbackThreshold, canvas
      ensures Valid()
      ensures TickRuns(webcam, modelLoaded) ==>
        && predictions == detected
        && detectionHistory
           == Prepended(NewDetections(detected, now), old(detectionHistory),
                        Shot(webcam.value, old(callbackPredictions), old(callbackThreshold), true))
              + old(detectionHistory)
        && if |detectionHistory| > |old(detectionHistory)|
           then callbackPredictions == detected && callbackThreshold == confidenceThreshold
           else callbackPredictions == old(callbackPredictions) && callbackThreshold == old(callbackThreshold)
      ensures !TickRuns(webcam, modelLoaded) ==>
        && predictions == old(predictions) && detectionHistory == old(detectionHistory)
        && callbackPredictions == old(callbackPredictions) && callbackThreshold == old(callbackThreshold)
    {
      if TickRuns(webcam, modelLoaded) {
        var seen := detectionHistory;
        var candidates := NewDetections(detected, now);
        CaptureNew(webcam.value, seen, candidates);
        predictions := detected;
        if |detectionHistory| > |seen| {
          callbackPredictions, callbackThreshold := detected, confidenceThreshold;
        }
      }
    }

    /**
     * The manual screenshot: paints the video frame and, only when bounding
     * boxes are shown, the boxes that reach the threshold; the image is what
     * the download link receives. Without a webcam the handler fails before
     * drawing (None). The history is not touched.
     */
    method CaptureScreenshot(webcam: Option<Video>) returns (shot: Option<Image>)
      requires Valid()
      modifies canvas
      ensures webcam.None? ==> shot == None
      ensures webcam.Some? ==>
        shot == Some(Shot(webcam.value, predictions, confidenceThreshold, showBoundingBoxes))
      ensures shot.Some? ==> canvas.ToDataURL() == shot.value
      ensures detectionHistory == old(detectionHistory)
    {
      if webcam.None? {
        return None;
      }
      var video := webcam.value;
      canvas.Resize(video.videoWidth, video.videoHeight);
      canvas.DrawImage(video.frame);
      if showBoundingBoxes {
        DrawAnnotations(canvas, predictions, confidenceThreshold);
        assert canvas.marks == ScreenshotPlan(predictions, confidenceThreshold, showBoundingBoxes);
      }
      shot := Some(canvas.ToDataURL());
    }

    method ToggleBoundingBoxes()
      requires Valid()
      modifies this`showBoundingBoxes
      ensures Valid() && showBoundingBoxes == !old(showBoundingBoxes)
    {
      showBoundingBoxes := !showBoundingBoxes;
    }

    /** Moving the slider changes what is drawn next, never the history. */
    method SetConfidenceThreshold(threshold: real)
      requires Valid()
      modifies this`confidenceThreshold
      ensures Valid() && confidenceThreshold == threshold
      ensures detectionHistory == old(detectionHistory)
    {
      confidenceThreshold := threshold;
    }

    method ToggleCamera()
      requires Valid()
      modifies this`facingMode
      ensures Valid() && facingMode == Toggled(old(facingMode)) && facingMode != old(facingMode)
    {
      facingMode := Toggled(facingMode);
    }
  }

  /**
   * A client run: a cat is captured, the cat moves without a capture, then
   * a dog is captured. The dog's screenshot shows the cat where it was
   * first seen, because the tick callback was last re-created after the
   * first capture.
   */
  method StaleCallbackScenario()
  {
    var webcam := Video(HAVE_ENOUGH_DATA, 640, 480, Frame(0));
    var catFirst := Prediction("cat", 0.9, BoundingBox(1.0, 1.0, 20.0, 20.0));
    var catMoved := Prediction("cat", 0.9, BoundingBox(50.0, 50.0, 20.0, 20.0));
    var dog := Prediction("dog", 0.8, BoundingBox(5.0, 5.0, 20.0, 20.0));
    var session := new WebcamCapture();
    session.OnModelLoaded();
    CatTick(session, webcam, catFirst);
    MovedCatTick(session, webcam, catFirst, catMoved);
    DogTick(session, webcam, catFirst, dog);
    assert session.detectionHistory[0].screenshot != Some(Shot(webcam, [catMoved], 0.5, true)) by {
      assert Shot(webcam, [catFirst], 0.5, true).marks[0] != Shot(webcam, [catMoved], 0.5, true).marks[0];
    }
  }

  /** The history the client run holds after its first tick. */
  function AfterCat(webcam: Video, catFirst: Prediction): seq<HistoryEntry>
  {
    [Stamped(NewDetections([catFirst], "10:00:00")[0], Shot(webcam, [], 0.5, true))]
  }

  /** The first tick of the client run: the cat is new and is captured. */
  method CatTick(session: WebcamCapture, webcam: Video, catFirst: Prediction)
    requires session.Valid() && session.modelLoaded && webcam.readyState == HAVE_ENOUGH_DATA
    requires session.detectionHistory == [] && session.confidenceThreshold == 0.5
    requires session.callbackPredictions == [] && session.callbackThreshold == 0.5
    modifies session`predictions, session`detectionHistory, session`callbackPredictions,
             session`callbackThreshold, session.canvas
    ensures session.Valid() && session.confidenceThreshold == 0.5
    ensures session.detectionHistory == AfterCat(webcam, catFirst)
    ensures session.callbackPredictions == [catFirst] && session.callbackThreshold == 0.5
  {
    var catEntry := NewDetections([catFirst], "10:00:00")[0];
    assert NewDetections([catFirst], "10:00:00") == [catEntry];
    assert [catEntry][..0] == [];
    session.DetectObjects(Some(webcam), [catFirst], "10:00:00");
  }

  /** The second tick of the client run: the moved cat is known, so nothing is captured. */
  method MovedCatTick(session: WebcamCapture, webcam: Video, catFirst: Prediction, catMoved: Prediction)
    requires session.Valid() && session.modelLoaded && webcam.readyState == HAVE_ENOUGH_DATA
    requires catFirst.className == catMoved.className
    requires session.detectionHistory == AfterCat(webcam, catFirst)
    requires session.callbackPredictions == [catFirst] && session.callbackThreshold == 0.5
    modifies session`predictions, session`detectionHistory, session`callbackPredictions,
             session`callbackThreshold, session.canvas
    ensures session.Valid() && session.predictions == [catMoved]
    ensures session.detectionHistory == AfterCat(webcam, catFirst)
    ensures session.callbackPredictions == [catFirst] && session.callbackThreshold == 0.5
  {
    var movedEntry := NewDetections([catMoved], "10:00:01")[0];
    assert NewDetections([catMoved], "10:00:01") == [movedEntry];
    assert [movedEntry][..0] == [];
    assert Known(AfterCat(webcam, catFirst), movedEntry.className) by {
      assert AfterCat(webcam, catFirst)[0].className == movedEntry.className;
    }
    session.DetectObjects(Some(webcam), [catMoved], "10:00:01");
  }

  /**
   * The last tick of the client run: the dog is new, and its screenshot is
   * drawn from the predictions the callback was last re-created with.
   */
  method DogTick(session: WebcamCapture, webcam: Video, catFirst: Prediction, dog: Prediction)
    requires session.Valid() && session.modelLoaded && webcam.readyState == HAVE_ENOUGH_DATA
    requires catFirst.className == "cat" && dog.className == "dog"
    requires session.detectionHistory == AfterCat(webcam, catFirst)
    requires session.callbackPredictions == [catFirst] && session.callbackThreshold == 0.5
    modifies session`predictions, session`detectionHistory, session`callbackPredictions,
             session`callbackThreshold, session.canvas
    ensures |session.detectionHistory| == 2
    ensures session.detectionHistory[0].className == "dog"
    ensures session.detectionHistory[0].screenshot == Some(Shot(webcam, [catFirst], 0.5, true))
  {
    var dogEntry := NewDetections([dog], "10:00:02")[0];
    assert NewDetections([dog], "10:00:02") == [dogEntry];
    assert [dogEntry][..0] == [];
    assert !Known(AfterCat(webcam, catFirst), dogEntry.className) by {
      assert AfterCat(webcam, catFirst)[0].className == "cat" && "cat"[0] != "dog"[0];
    }
    session.DetectObjects(Some(webcam), [dog], "10:00:02");
  }
}
