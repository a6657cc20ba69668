/**
 * The first-sighting rule of the detection history. Each tick maps its
 * predictions to entries and captures every entry whose class does not
 * occur in the history as it stood when the tick began; each capture is
 * prepended, so the history is newest first.
 */
module History {
  import opened Wrappers
  import opened Shapes

  /** `history.some(h => h.className === className)`. */
  predicate Known(history: seq<HistoryEntry>, className: string)
    ensures Known(history, className) <==> exists e | e in history :: e.className == className
  {
    exists k :: 0 <= k < |history| && history[k].className == className
  }

  /** How many entries of `entries` carry the class `className`. */
  function ClassCount(entries: seq<HistoryEntry>, className: string): nat
  {
    if entries == [] then 0
    else (if entries[0].className == className then 1 else 0) + ClassCount(entries[1..], className)
  }

  /** How many entries of `candidates` have a class that `known` lacks. */
  function CountNew(candidates: seq<HistoryEntry>, known: seq<HistoryEntry>): nat
  {
    if candidates == [] then 0
    else (if Known(known, candidates[0].className) then 0 else 1) + CountNew(candidates[1..], known)
  }

  /**
   * The tick's candidate entries: class and score copied from each
   * prediction, the tick's timestamp, no screenshot yet.
   */
  function NewDetections(preds: seq<Prediction>, now: Timestamp): (candidates: seq<HistoryEntry>)
    ensures |candidates| == |preds|
    ensures forall k :: 0 <= k < |preds| ==>
      candidates[k].className == preds[k].className && candidates[k].score == preds[k].score &&
      candidates[k].timestamp == now && candidates[k].screenshot == None
  {
    if preds == [] then []
    else [HistoryEntry(preds[0].className, preds[0].score, now, None)] + NewDetections(preds[1..], now)
  }

  /** A captured entry: the candidate with its screenshot set. */
  function Stamped(entry: HistoryEntry, img: Image): (captured: HistoryEntry)
    ensures captured.screenshot == Some(img)
    ensures captured.(screenshot := entry.screenshot) == entry
  {
    entry.(screenshot := Some(img))
  }

  /** What one candidate adds: its capture if its class is absent from `known`, else nothing. */
  function CaptureOf(entry: HistoryEntry, known: seq<HistoryEntry>, img: Image): (added: seq<HistoryEntry>)
    ensures |added| <= 1
    ensures added == [] <==> Known(known, entry.className)
    ensures added != [] ==> added[0].className == entry.className && added[0].screenshot == Some(img)
  {
    if Known(known, entry.className) then [] else [Stamped(entry, img)]
  }

  /**
   * The entries a tick prepends to the history, newest first, when it
   * processes `candidates` in order against the tick-start history `known`,
   * every capture carrying the screenshot `img`.
   */
  function Prepended(candidates: seq<HistoryEntry>, known: seq<HistoryEntry>, img: Image): (added: seq<HistoryEntry>)
    ensures |added| <= |candidates|
    decreases |candidates|
  {
    if candidates == [] then []
    else
      CaptureOf(candidates[|candidates| - 1], known, img) + Prepended(candidates[..|candidates| - 1], known, img)
  }

  /** Processing one more candidate prepends its capture, if any, to the earlier ones. */
  lemma PrependedStep(candidates: seq<HistoryEntry>, i: nat, known: seq<HistoryEntry>, img: Image)
    requires i < |candidates|
    ensures Prepended(candidates[..i + 1], known, img)
         == CaptureOf(candidates[i], known, img) + Prepended(candidates[..i], known, img)
  {
    assert candidates[..i + 1][..i] == candidates[..i];
  }

  lemma ConcatAssoc(a: seq<HistoryEntry>, b: seq<HistoryEntry>, c: seq<HistoryEntry>)
    ensures a + (b + c) == (a + b) + c
  {
  }

  lemma {:induction false} ClassCountAppend(a: seq<HistoryEntry>, b: seq<HistoryEntry>, className: string)
    ensures ClassCount(a + b, className) == ClassCount(a, className) + ClassCount(b, className)
  {
    if a == [] {
      assert a + b == b;
    } else {
      assert (a + b)[0] == a[0];
      assert (a + b)[1..] == a[1..] + b;
      ClassCountAppend(a[1..], b, className);
    }
  }

  lemma {:induction false} CountNewAppend(a: seq<HistoryEntry>, b: seq<HistoryEntry>, known: seq<HistoryEntry>)
    ensures CountNew(a + b, known) == CountNew(a, known) + CountNew(b, known)
  {
    if a == [] {
      assert a + b == b;
    } else {
      assert (a + b)[0] == a[0];
      assert (a + b)[1..] == a[1..] + b;
      CountNewAppend(a[1..], b, known);
    }
  }

  /** A class is known exactly when some entry carries it. */
  lemma {:induction false} KnownIffCounted(entries: seq<HistoryEntry>, className: string)
    ensures Known(entries, className) <==> ClassCount(entries, className) > 0
  {
    if entries != [] {
      KnownIffCounted(entries[1..], className);
      if Known(entries[1..], className) {
        var k :| 0 <= k < |entries[1..]| && entries[1..][k].className == className;
        assert entries[k + 1].className == className;
      }
      if Known(entries, className) && entries[0].className != className {
        var k :| 0 <= k < |entries| && entries[k].className == className;
        assert entries[1..][k - 1].className == className;
      }
    }
  }

  /**
   * Processing `a` and then `b` prepends `b`'s captures in front of `a`'s:
   * later captures come first.
   */
  lemma {:induction false} PrependedAppend(a: seq<HistoryEntry>, b: seq<HistoryEntry>, known: seq<HistoryEntry>, img: Image)
    ensures Prepended(a + b, known, img) == Prepended(b, known, img) + Prepended(a, known, img)
    decreases |b|
  {
    if b == [] {
      assert a + b == a;
    } else {
      var front := b[..|b| - 1];
      assert (a + b)[..|a + b| - 1] == a + front;
      assert (a + b)[|a + b| - 1] == b[|b| - 1];
      PrependedAppend(a, front, known, img);
    }
  }

  /** The history grows by one entry per candidate whose class was absent at tick start. */
  lemma {:induction false} PrependedLength(candidates: seq<HistoryEntry>, known: seq<HistoryEntry>, img: Image)
    ensures |Prepended(candidates, known, img)| == CountNew(candidates, known)
    decreases |candidates|
  {
    if candidates != [] {
      var front, last := candidates[..|candidates| - 1], candidates[|candidates| - 1];
      assert candidates == front + [last];
      PrependedLength(front, known, img);
      CountNewAppend(front, [last], known);
      assert [last][1..] == [];
    }
  }

  /**
   * Per class: a class already in the history gains no entry; any other
   * class gains one entry per candidate that carries it, duplicates
   * within the tick included.
   */
  lemma {:induction false} PrependedClassCount(candidates: seq<HistoryEntry>, known: seq<HistoryEntry>, img: Image, className: string)
    ensures ClassCount(Prepended(candidates, known, img), className)
         == if Known(known, className) then 0 else ClassCount(candidates, className)
    decreases |candidates|
  {
    if candidates != [] {
      var front, last := candidates[..|candidates| - 1], candidates[|candidates| - 1];
      assert candidates == front + [last];
      PrependedClassCount(front, known, img, className);
      ClassCountAppend(front, [last], className);
      ClassCountAppend(CaptureOf(last, known, img), Prepended(front, known, img), className);
      assert [last][1..] == [];
      assert ClassCount([last], className) == if last.className == className then 1 else 0;
      if Known(known, last.className) {
        assert CaptureOf(last, known, img) == [];
      } else {
        assert [Stamped(last, img)][1..] == [];
        assert ClassCount(CaptureOf(last, known, img), className) == ClassCount([last], className);
      }
    }
  }

  /** A tick whose candidates all carry known classes leaves the history as it was. */
  lemma {:induction false} AllKnownAddsNothing(candidates: seq<HistoryEntry>, known: seq<HistoryEntry>, img: Image)
    requires forall k :: 0 <= k < |candidates| ==> Known(known, candidates[k].className)
    ensures Prepended(candidates, known, img) + known == known
    decreases |candidates|
  {
    if candidates != [] {
      AllKnownAddsNothing(candidates[..|candidates| - 1], known, img);
    }
  }

  /**
   * Every captured entry is a candidate of this tick whose class was absent
   * at tick start, with the capture's screenshot.
   */
  lemma {:induction false} PrependedSound(candidates: seq<HistoryEntry>, known: seq<HistoryEntry>, img: Image)
    ensures forall e :: e in Prepended(candidates, known, img) ==>
      e.screenshot == Some(img) && !Known(known, e.className) &&
      exists k :: 0 <= k < |candidates| && e == Stamped(candidates[k], img)
    decreases |candidates|
  {
    if candidates != [] {
      var front := candidates[..|candidates| - 1];
      PrependedSound(front, known, img);
      forall e | e in Prepended(front, known, img)
        ensures exists k :: 0 <= k < |candidates| && e == Stamped(candidates[k], img)
      {
        var k :| 0 <= k < |front| && e == Stamped(front[k], img);
        assert candidates[k] == front[k];
      }
    }
  }

  /** Every candidate whose class was absent at tick start is captured. */
  lemma {:induction false} PrependedComplete(candidates: seq<HistoryEntry>, known: seq<HistoryEntry>, img: Image)
    ensures forall k :: 0 <= k < |candidates| && !Known(known, candidates[k].className) ==>
      Stamped(candidates[k], img) in Prepended(candidates, known, img)
    decreases |candidates|
  {
    if candidates != [] {
      var front := candidates[..|candidates| - 1];
      PrependedComplete(front, known, img);
      forall k | 0 <= k < |front|
        ensures candidates[k] == front[k]
      {
      }
    }
  }

  /**
   * Which candidates are captured does not depend on the screenshot, hence
   * not on the confidence threshold it is drawn with: two screenshots give
   * the same classes, scores and timestamps in the same order.
   */
  lemma {:induction false} CaptureIgnoresScreenshot(candidates: seq<HistoryEntry>, known: seq<HistoryEntry>, img1: Image, img2: Image)
    ensures |Prepended(candidates, known, img1)| == |Prepended(candidates, known, img2)|
    ensures forall i :: 0 <= i < |Prepended(candidates, known, img1)| ==>
      Prepended(candidates, known, img1)[i] == Prepended(candidates, known, img2)[i].(screenshot := Some(img1))
    decreases |candidates|
  {
    if candidates != [] {
      CaptureIgnoresScreenshot(candidates[..|candidates| - 1], known, img1, img2);
    }
  }

  /**
   * The history after a tick, per class: unchanged for a class the history
   * already held, grown by that class's candidates otherwise.
   */
  lemma TickClassCount(history: seq<HistoryEntry>, candidates: seq<HistoryEntry>, img: Image, className: string)
    ensures ClassCount(Prepended(candidates, history, img) + history, className)
         == ClassCount(history, className) + (if Known(history, className) then 0 else ClassCount(candidates, className))
  {
    ClassCountAppend(Prepended(candidates, history, img), history, className);
    PrependedClassCount(candidates, history, img, className);
  }

  /**
   * "At most one entry per class" survives a tick when no class that is new
   * to the history occurs twice among the tick's candidates.
   */
  lemma AtMostOnePerClassPreserved(history: seq<HistoryEntry>, candidates: seq<HistoryEntry>, img: Image)
    requires forall c :: ClassCount(history, c) <= 1
    requires forall c :: !Known(history, c) ==> ClassCount(candidates, c) <= 1
    ensures forall c :: ClassCount(Prepended(candidates, history, img) + history, c) <= 1
  {
    forall c | true
      ensures ClassCount(Prepended(candidates, history, img) + history, c) <= 1
    {
      TickClassCount(history, candidates, img, c);
      KnownIffCounted(history, c);
    }
  }

  /**
   * The converse: if a tick leaves at most one entry per class, the history
   * held at most one per class and no new class occurred twice among the
   * tick's candidates.
   */
  lemma AtMostOnePerClassOnlyWhen(history: seq<HistoryEntry>, candidates: seq<HistoryEntry>, img: Image)
    requires forall c :: ClassCount(Prepended(candidates, history, img) + history, c) <= 1
    ensures forall c :: ClassCount(history, c) <= 1
    ensures forall c :: !Known(history, c) ==> ClassCount(candidates, c) <= 1
  {
    forall c | true
      ensures ClassCount(history, c) <= 1
      ensures !Known(history, c) ==> ClassCount(candidates, c) <= 1
    {
      TickClassCount(history, candidates, img, c);
    }
  }

  /**
   * The duplicate check reads the tick-start history, so a new class that
   * appears twice in one result set is captured twice.
   */
  lemma NewClassTwiceInOneTick(entry: HistoryEntry, history: seq<HistoryEntry>, img: Image)
    requires !Known(history, entry.className)
    ensures Prepended([entry, entry], history, img) == [Stamped(entry, img), Stamped(entry, img)]
    ensures ClassCount(Prepended([entry, entry], history, img) + history, entry.className) == 2
  {
    assert [entry, entry][..1] == [entry];
    assert [entry][..0] == [];
    assert Prepended([entry], history, img) == [Stamped(entry, img)];
    TickClassCount(history, [entry, entry], img, entry.className);
    KnownIffCounted(history, entry.className);
    assert [entry, entry][1..] == [entry];
    assert [entry][1..] == [];
  }
}
