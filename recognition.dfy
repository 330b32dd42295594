/** The decision rule of the server's `HandRecognition.process_frame`: which
    label, if any, a frame receives.

    The libraries it calls are parameters here. `detect` stands for colour
    conversion followed by MediaPipe's hand detector and yields the detected
    hands (`None` when MediaPipe reports none); `isClosed` is the closed-hand
    test; `predict` stands for resizing, normalising, adding the batch axis and
    running the Keras model, and yields the class scores; `draw` stands for
    drawing a hand's landmarks onto a copy of the frame. */
module ServerRecognition {
  import opened Wrappers
  import opened Labels
  import opened Numpy

  /** The two ways labelling a frame can fail: numpy's `argmax` raises on an
      empty score vector, and the dictionary lookup raises on an index the
      table does not hold. */
  datatype Fault = EmptyPrediction | MissingKey(index: nat)

  /** What `process_frame` hands back: the gesture label, `None` when no hand
      was found, and the processed copy of the frame. */
  datatype Recognition<Frame> = Recognition(gestureLabel: Option<string>, processedFrame: Frame)

  /** The label the recogniser reports for a closed hand. */
  const ClosedLabel: string := "closed"

  /** No hand was detected: MediaPipe returned nothing, or an empty list
      (both are false in the `if` of `process_frame`). */
  predicate NoHands<Hand>(hands: Option<seq<Hand>>)
  {
    hands.None? || |hands.value| == 0
  }

  /** A label `process_frame` may report: the closed label or a value of the
      table. */
  predicate IsGestureLabel(s: string)
  {
    s == ClosedLabel || exists k | 0 <= k < ClassCount :: LabelsMapping(k) == Some(s)
  }

  /** The label for one detected hand: "closed" when the hand passes the
      closed test, without consulting the classifier; otherwise the table
      entry at the arg-max of the classifier's scores for the frame. */
  function GestureLabel<Frame, Hand>(frame: Frame, hand: Hand, isClosed: Hand -> bool, predict: Frame -> seq<real>)
    : (r: Result<string, Fault>)
    ensures r == Failure(EmptyPrediction) <==> !isClosed(hand) && |predict(frame)| == 0
    ensures isClosed(hand) ==> r == Success(ClosedLabel)
    ensures !isClosed(hand) && ArgMax(predict(frame)).Some? && ArgMax(predict(frame)).value < ClassCount
            ==> r == Success([RuleChar(ArgMax(predict(frame)).value)])
    ensures r.Failure? && r.error.MissingKey?
            ==> !isClosed(hand) && ArgMax(predict(frame)) == Some(r.error.index) && r.error.index >= ClassCount
    ensures !isClosed(hand) && ArgMax(predict(frame)).Some? && ArgMax(predict(frame)).value >= ClassCount
            ==> r == Failure(MissingKey(ArgMax(predict(frame)).value))
    ensures r.Success? ==> IsGestureLabel(r.value)
  {
    if isClosed(hand) then Success(ClosedLabel)
    else
      var prediction := predict(frame);
      match ArgMax(prediction)
      case None => Failure(EmptyPrediction)
      case Some(index) =>
        match LabelsMapping(index)
        case None => Failure(MissingKey(index))
        case Some(entry) => Success(entry)
  }

  /** `process_frame`: no hand gives no label and the untouched copy of the
      frame; otherwise the first detected hand alone decides the label, and
      its landmarks are drawn on the copy that is returned. */
  function ProcessFrame<Frame, Hand>(frame: Frame, detect: Frame -> Option<seq<Hand>>, isClosed: Hand -> bool,
                                     predict: Frame -> seq<real>, draw: (Frame, Hand) -> Frame)
    : (r: Result<Recognition<Frame>, Fault>)
    ensures NoHands(detect(frame)) ==> r == Success(Recognition(None, frame))
    ensures r.Success? && r.value.gestureLabel.None? ==> NoHands(detect(frame))
    ensures r.Success? && r.value.gestureLabel.Some? ==> IsGestureLabel(r.value.gestureLabel.value)
  {
    var hands := detect(frame);
    if NoHands(hands) then Success(Recognition(None, frame))
    else
      var hand := hands.value[0];
      match GestureLabel(frame, hand, isClosed, predict)
      case Failure(fault) => Failure(fault)
      case Success(gesture) => Success(Recognition(Some(gesture), draw(frame, hand)))
  }

  /** Only the first detected hand decides: two detections that agree on
      their first hand give the same outcome, whatever hands follow it. */
  lemma OnlyFirstHandCounts<Frame, Hand>(frame: Frame, detect1: Frame -> Option<seq<Hand>>, detect2: Frame -> Option<seq<Hand>>,
                                         isClosed: Hand -> bool, predict: Frame -> seq<real>, draw: (Frame, Hand) -> Frame)
    requires !NoHands(detect1(frame)) && !NoHands(detect2(frame))
    requires detect1(frame).value[0] == detect2(frame).value[0]
    ensures ProcessFrame(frame, detect1, isClosed, predict, draw) == ProcessFrame(frame, detect2, isClosed, predict, draw)
  {
  }

  /** A closed first hand is labelled "closed", whatever scores the
      classifier would give, empty ones included. */
  lemma ClosedTakesPriority<Frame, Hand>(frame: Frame, detect: Frame -> Option<seq<Hand>>, isClosed: Hand -> bool,
                                         predict: Frame -> seq<real>, draw: (Frame, Hand) -> Frame)
    requires !NoHands(detect(frame)) && isClosed(detect(frame).value[0])
    ensures ProcessFrame(frame, detect, isClosed, predict, draw)
         == Success(Recognition(Some(ClosedLabel), draw(frame, detect(frame).value[0])))
  {
  }

  /** The label is "closed" exactly when a hand was detected and the first
      one is closed: no classifier outcome can produce that label. */
  lemma ClosedIffFirstHandClosed<Frame, Hand>(frame: Frame, detect: Frame -> Option<seq<Hand>>, isClosed: Hand -> bool,
                                              predict: Frame -> seq<real>, draw: (Frame, Hand) -> Frame)
    ensures var r := ProcessFrame(frame, detect, isClosed, predict, draw);
            (r.Success? && r.value.gestureLabel == Some(ClosedLabel))
            <==> (!NoHands(detect(frame)) && isClosed(detect(frame).value[0]))
  {
  }

  /** An open first hand is labelled by the classifier: when the scores are
      non-empty and their first maximum lies at `k` within the table, the
      label is the table entry for `k`, the character the table's rule gives. */
  lemma ClassifierDecides<Frame, Hand>(frame: Frame, detect: Frame -> Option<seq<Hand>>, isClosed: Hand -> bool,
                                       predict: Frame -> seq<real>, draw: (Frame, Hand) -> Frame, k: nat)
    requires !NoHands(detect(frame)) && !isClosed(detect(frame).value[0])
    requires IsFirstMax(predict(frame), k) && k < ClassCount
    ensures LabelsMapping(k).Some?
    ensures ProcessFrame(frame, detect, isClosed, predict, draw)
         == Success(Recognition(LabelsMapping(k), draw(frame, detect(frame).value[0])))
    ensures LabelsMapping(k) == Some([RuleChar(k)])
  {
  }

  /** With fewer than 64 scores, an open first hand always gets a table
      label: the first maximum is then always a key of the table. */
  lemma ShortPredictionAlwaysLabels<Frame, Hand>(frame: Frame, detect: Frame -> Option<seq<Hand>>, isClosed: Hand -> bool,
                                                 predict: Frame -> seq<real>, draw: (Frame, Hand) -> Frame)
    requires !NoHands(detect(frame)) && !isClosed(detect(frame).value[0])
    requires 0 < |predict(frame)| <= ClassCount
    ensures var r := ProcessFrame(frame, detect, isClosed, predict, draw);
            r.Success? && r.value.gestureLabel.Some? && r.value.gestureLabel.value != ClosedLabel
  {
  }

  /** An open first hand whose scores are empty, or whose first maximum lies
      beyond the table, makes `process_frame` fail instead of returning. */
  lemma ClassifierFaults<Frame, Hand>(frame: Frame, detect: Frame -> Option<seq<Hand>>, isClosed: Hand -> bool,
                                      predict: Frame -> seq<real>, draw: (Frame, Hand) -> Frame, k: nat)
    requires !NoHands(detect(frame)) && !isClosed(detect(frame).value[0])
    ensures |predict(frame)| == 0 ==> ProcessFrame(frame, detect, isClosed, predict, draw) == Failure(EmptyPrediction)
    ensures IsFirstMax(predict(frame), k) && k >= ClassCount
            ==> ProcessFrame(frame, detect, isClosed, predict, draw) == Failure(MissingKey(k))
  {
  }
}
