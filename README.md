# Gesture recognition decision rule

This project models the part of the gesture-translation server that decides
which label a camera frame receives: `HandRecognition.process_frame` in
`Server/server_recognition.py`, together with its fixed table from class
index to gesture text (`labels_mapping`) and numpy's `argmax`, which picks the
classifier's answer.

The server receives a frame and runs MediaPipe's hand detector on it. If no
hand is found, the label is `None`. Otherwise only the first detected hand is
used. If that hand passes the closed-hand test, the label is the literal
`"closed"` and the classifier is not run. Otherwise the Keras classifier scores
the frame, `argmax` picks the first index with the highest score, and the table
turns that index into a one-character label: a digit, a letter, or a space.

The libraries are modelled as parameters, because their internals are not part
of this model:
- the detector is a function from a frame to an optional sequence of hands;
- the closed-hand test is a predicate on a hand;
- the preprocessing and classifier together are a function from a frame to a
  sequence of scores;
- drawing a hand's landmarks onto the frame copy is a function from a frame and
  a hand to a frame.

Files:
- `wrappers.dfy` (module `Wrappers`): `Option` and `Result`.
- `labels.dfy` (module `Labels`): the table, whose contract gives its domain
  and ties each entry to an independent arithmetic rule; the rule's inverse;
  lemmas about the table's injectivity and alphabet.
- `numpy.dfy` (module `Numpy`): `argmax` as the first position holding the
  maximum score.
- `recognition.dfy` (module `ServerRecognition`): the decision of
  `process_frame`, including its two failure paths, with lemmas for each
  branch.

When no hand is found the label is `None`; `Server/server.py` pickles that
value and sends it back to the client as the reply.

## Model

| member | source | states |
|---|---|---|
| Numpy.ArgMax | Server/server_recognition.py:46 | an empty score vector has no arg-max; otherwise the result is a position whose score is at least every score, and every earlier score is strictly smaller (ties go to the first index) |
| Numpy.FirstMaxIsArgMax | Server/server_recognition.py:46 | any index with the first-maximum property is the one `ArgMax` returns, so that property determines the arg-max uniquely |
| Numpy.LaterTieKeepsArgMax | Server/server_recognition.py:46 | appending a score no larger than the current maximum, an equal one included, leaves the arg-max where it was, so ties keep the earlier index |
| Labels.RuleChar | Server/server_recognition.py:15-21 | the arithmetic rule for the table always gives a digit, a letter or a space |
| Labels.LabelIndex | Server/server_recognition.py:14-22 | every alphabet character has a class index in 0..62 that the rule sends back to that character |
| Labels.LabelIndexOfRuleChar | Server/server_recognition.py:15-21 | applying the rule and then its inverse gives back the index, so the rule is one-to-one |
| Labels.LabelsMapping | Server/server_recognition.py:14-22 | the table holds a key exactly when it lies in 0..62, and entry i is the one-character string the rule gives: the digit i for 0..9, 'A'+(i-10) for 10..35, a space for 36, 'a'+(i-37) for 37..62 |
| Labels.LabelsInjective | Server/server_recognition.py:14-22 | no two keys of the table share a label |
| Labels.LabelsInAlphabet | Server/server_recognition.py:14-22 | every table value is one character: a digit, a letter or a space |
| Labels.AlphabetInLabels | Server/server_recognition.py:14-22 | every one-character string over that alphabet is a table value, held at the key `LabelIndex` gives |
| Labels.ClosedIsNotALabel | Server/server_recognition.py:14-22 | "closed" is not a table value |
| ServerRecognition.GestureLabel | Server/server_recognition.py:37-47 | for one hand: a closed hand gets "closed"; an open hand whose scores have arg-max k < 63 gets the rule's character for k, the table entry at k; the result is an empty-prediction failure exactly when the hand is open and the scores are empty, and a missing-key failure for k exactly when the hand is open and the arg-max of the scores is k >= 63; any label it gives is "closed" or a table value |
| ServerRecognition.ProcessFrame | Server/server_recognition.py:32-51 | no detected hand gives label `None` and the unmodified frame copy; a `None` label happens only when no hand was detected; any other label is "closed" or a table value |
| ServerRecognition.OnlyFirstHandCounts | Server/server_recognition.py:36-50 | two detections with the same first hand give the same outcome, whatever hands follow it |
| ServerRecognition.ClosedTakesPriority | Server/server_recognition.py:37-38 | a closed first hand gets label "closed" and the frame with that hand drawn, whatever the classifier's scores are (empty ones included) |
| ServerRecognition.ClosedIffFirstHandClosed | Server/server_recognition.py:37-47 | the label is "closed" if and only if a hand was detected and the first one is closed |
| ServerRecognition.ClassifierDecides | Server/server_recognition.py:45-47 | for an open first hand whose first maximum is at k < 63, the label is the table entry for k, which is the rule's character for k |
| ServerRecognition.ShortPredictionAlwaysLabels | Server/server_recognition.py:45-47 | for an open first hand and 1 to 63 scores, the call succeeds with a table label that is not "closed" |
| ServerRecognition.ClassifierFaults | Server/server_recognition.py:45-47 | for an open first hand, empty scores fail as an empty prediction, and a first maximum at k >= 63 fails as a missing key k |

## Left out

- `is_hand_closed` (Server/server_recognition.py:24-30): a floating-point Euclidean distance between two landmarks, compared against 0.02. It is the opaque predicate `isClosed`.
- MediaPipe detection and colour conversion, `cv2.resize`, the division by 255, the batch axis and Keras `model.predict`: foreign library calls on float tensors. They are the opaque functions `detect` and `predict`. Scores are Dafny reals, so numpy's handling of NaN in `argmax` is not modelled.
- `draw_landmarks`: its in-place drawing on the frame copy is modelled only as a value-level function `draw`, applied to the first hand.
- ServerRecognition.ClosedTakesPriority: in a model made of functions, a call that is never made cannot be observed. So "the classifier is not invoked" is stated as "the result does not depend on `predict`": the lemma holds for every `predict`, including one that returns no scores.
- The constructor of `HandRecognition` (model loading, MediaPipe setup): configuration that is set once and never updated.
- `Server/server.py`: the TCP accept and receive loop and pickle (de)serialisation. This is I/O and a library serialiser.
- The client (`Client/client_socket.py`, `Client/client_interface.py`, `interface.py`), `teste.py`, and the training and dataset scripts under `DatasetTraning/`: user interface, camera and cursor control, and training code. They are outside the recognition core.
- `recognition.py` `process_frame`: both of its branches are `pass`, so it has no behaviour to model.
