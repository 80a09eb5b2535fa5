# Contact-center emotion triage, modelled in Dafny

The system classifies a customer's recorded call by emotional tone and sends
it to an agent queue. It has two parts:

- The backend service (`backend/main.py`) turns an uploaded recording into a
  mel-spectrogram image and runs a pretrained classifier on it. It returns
  the raw class label, a Spanish priority tier (`ALTA`, `MEDIA`, `BAJA`)
  derived from that label, and the score the classifier gave its own
  predicted class.
- The Angular home screen (`frontend/src/app/home/home.component.ts`)
  records or uploads audio and sends it for classification. It then shows
  the returned emotion as a face, a Spanish name and a routing suggestion
  for the agent.

This project models the deterministic parts of both.

- `priority.dfy`, module `Priority`:
  - the triage rule `GetPriority`;
  - the `/predict` response built from the classifier's output (`Predict`).
  The classifier itself is an input: a `Prediction` holding the predicted
  class, the classifier's index for it and the per-class score vector.
- `home.dfy`, module `Home`:
  - the three display mappings and the highlighted-emotion test;
  - the component's state, as a class `HomeComponent`. Its fields are
    `selectedEmotion`, `isProcessing`, `isRecording`, `audioChunks`, and
    `hasRecorder`, which stands for `mediaRecorder != null`. Each callback
    that updates the fields is one method.
  - a value model (`UiState`, `Event`, `Step`, `Run`) that says what each
    method does to the fields. Lemmas over any sequence of events use it.

Facts about the code that shape the model:

- `predict` returns the classifier's raw class label unchanged as `emotion`
  (backend/main.py:49). The code maps labels to no other vocabulary.
- The classifier is loaded once, at import time, with no error handling
  (backend/main.py:11). There is no error response for a missing model.
- Priority matching is exact and case-sensitive.

Two specification functions carry the meaning of the component's
callbacks:

- `Step` gives the new field values for each event of
  home.component.ts:34-83.
- `Flatten` gives the bytes of the blob built from the chunk list
  (home.component.ts:46).

The lemmas in the table below state their properties.

## Model

| member | source | states |
|---|---|---|
| Priority.GetPriority | backend/main.py:14-20 | The result is always one of "ALTA", "MEDIA", "BAJA". It is "ALTA" exactly for "angry", "fearful", "disgust". It is "MEDIA" exactly for "sad", "surprised". It is "BAJA" exactly for labels in neither list. |
| Priority.LabelListsDisjoint | backend/main.py:15-18 | No label is in both the ALTA list and the MEDIA list. |
| Priority.TestOrderIrrelevant | backend/main.py:15-18 | Testing the MEDIA list before the ALTA list gives the same tier for every label. |
| Priority.EveryLabelHasOneTier | backend/main.py:14-20 | Every label gets exactly one tier, and each of the three tiers is reached by some label. |
| Priority.DefaultTier | backend/main.py:19-20 | "happy", "neutral", "calm" and the empty string fall through to "BAJA". |
| Priority.UpperCaseFallsThrough | backend/main.py:15-18 | No case folding is done: a label with an upper-case ASCII letter in any position is always "BAJA". |
| Priority.CaseSensitiveExamples | backend/main.py:15-17 | "ANGRY" and "Sad" are "BAJA". |
| Priority.Predict | backend/main.py:45-51 | `emotion` is exactly the predicted class string. `priority` is the tier of that same string. `confidence` is the score at the classifier's own index. |
| Priority.PriorityDependsOnLabelOnly | backend/main.py:48-51 | Two predictions with the same class get the same emotion and priority, whatever their scores or indices. |
| Priority.ConfidenceIsNotRecomputed | backend/main.py:45-46 | For any prediction and any class that scored higher than the classifier's chosen index, the response reports the chosen index's score, which is smaller. |
| Priority.ConfidenceNotMaximumExample | backend/main.py:45-46 | Example: the prediction ("angry", 0, [0.25, 0.75]) reports confidence 0.25, below the other score 0.75. |
| Home.EmotionIcon | frontend/src/app/home/home.component.ts:96-106 | The icon is one Unicode code point. It is the smiling face exactly for happy and the angry face exactly for angry. The neutral face is shown exactly for neutral and for no emotion. |
| Home.IconsDistinguish | frontend/src/app/home/home.component.ts:96-106 | Two emotions share an icon exactly when they are equal or both are among neutral and no emotion. |
| Home.EmotionText | frontend/src/app/home/home.component.ts:109-120 | The text is empty exactly when there is no emotion. |
| Home.AgentSuggestion | frontend/src/app/home/home.component.ts:122-133 | The suggestion is empty exactly when there is no emotion. |
| Home.TextsDistinguish | frontend/src/app/home/home.component.ts:109-133 | Texts are pairwise distinct across the four cases, and so are suggestions. So the three real emotions get three distinct non-empty texts and suggestions. |
| Home.HomeComponent.IsEmotionActive | frontend/src/app/home/home.component.ts:135-137 | An emotion is active exactly when it is the selected emotion. In a valid component with `isProcessing` set, only the null emotion is active. |
| Home.AtMostOneActive | frontend/src/app/home/home.component.ts:135-137 | At most one of happy, neutral and angry is active. The null emotion is active exactly when none of the three is. |
| Home.NothingActiveWhilePending | frontend/src/app/home/home.component.ts:69-77 | In a valid component with `isProcessing` set, none of happy, neutral and angry is active. |
| Home.HomeComponent.constructor | frontend/src/app/home/home.component.ts:16-20 | A new component has no emotion selected, is neither processing nor recording, has no recorder and no chunks, and satisfies the invariant. |
| Home.HomeComponent.ProcessAudio | frontend/src/app/home/home.component.ts:69-71 | Sets `isProcessing` and clears the selected emotion. Recording state and chunks are unchanged. |
| Home.HomeComponent.OnClassified | frontend/src/app/home/home.component.ts:74-77 | Selects the result's emotion and clears `isProcessing`. Everything else is unchanged. |
| Home.HomeComponent.OnClassifyError | frontend/src/app/home/home.component.ts:78-83 | Clears `isProcessing` and leaves the selected emotion and everything else unchanged. |
| Home.HomeComponent.StopRecording | frontend/src/app/home/home.component.ts:62-67 | With a recorder and an active recording, clears `isRecording`. Otherwise nothing changes. Other fields never change. |
| Home.HomeComponent.BeginRecording | frontend/src/app/home/home.component.ts:36-39 | Sets `isRecording`, empties `audioChunks` and creates a recorder. The emotion and `isProcessing` are unchanged. |
| Home.HomeComponent.BeginRecordingFailed | frontend/src/app/home/home.component.ts:37-39 | The recorder constructor threw after lines 37-38 ran, and the catch at 56-59 changes nothing more. `isRecording` is set, `audioChunks` is empty, and the recorder field keeps its old value. |
| Home.HomeComponent.OnDataAvailable | frontend/src/app/home/home.component.ts:41-43 | Appends exactly one chunk at the end. Earlier chunks and all other fields are unchanged. |
| Home.HomeComponent.OnRecorderStop | frontend/src/app/home/home.component.ts:45-48 | Returns the concatenated bytes of all recorded chunks, then starts processing as `ProcessAudio` does. |
| Home.InitialInv | frontend/src/app/home/home.component.ts:16-17 | The initial state satisfies the invariant: no emotion is shown while `isProcessing` is set. |
| Home.StepPreservesInv | frontend/src/app/home/home.component.ts:34-83 | Every single transition keeps the invariant. |
| Home.RunPreservesInv | frontend/src/app/home/home.component.ts:34-83 | Every sequence of transitions from a valid state keeps the invariant. |
| Home.ReachableInv | frontend/src/app/home/home.component.ts:16-83 | Every state reachable from a new component satisfies the invariant. This includes states after a failed recorder creation. |
| Home.OverlappingRequests | frontend/src/app/home/home.component.ts:69-77 | With two overlapping requests, the first answer clears `isProcessing` and shows its emotion. The second request is still out at that point. |
| Home.RunPreservesRecorderInv | frontend/src/app/home/home.component.ts:34-67 | In any event sequence where creating a recorder never throws, "recording implies a recorder exists" holds at the end if it held at the start. |
| Home.RecordingStuckWithoutRecorder | frontend/src/app/home/home.component.ts:37-67 | Once `isRecording` is set with no recorder, only a successful recorder creation clears it. Stop presses have no effect. |
| Home.FailedRecorderCannotStop | frontend/src/app/home/home.component.ts:37-67 | In a new component, a failed recorder creation followed by a stop leaves `isRecording` set. |
| Home.DataEvents | frontend/src/app/home/home.component.ts:41-43 | The event list has one data event per chunk, at the same position as the chunk. |
| Home.DataEventsAppend | frontend/src/app/home/home.component.ts:41-43 | A run of data events appends its chunks in order at the end and changes nothing else. |
| Home.RecordingCollects | frontend/src/app/home/home.component.ts:37-43 | After a recording begins and then receives chunks, the buffer holds exactly those chunks, whatever it held before, and the component is recording. |
| Home.StopIdempotent | frontend/src/app/home/home.component.ts:62-67 | Stopping twice is the same as stopping once. After a stop with a recorder, the component is not recording. |
| Home.StopOnlyClearsRecording | frontend/src/app/home/home.component.ts:62-67 | When recording implies a recorder exists, the recorder test is redundant: stopping just clears `isRecording`. |
| Home.FlattenAppend | frontend/src/app/home/home.component.ts:41-46 | Appending a chunk to the buffer appends its bytes to the blob built from the buffer. |
| Home.RecordAndClassify | frontend/src/app/home/home.component.ts:34-77 | Any number of chunks is recorded, then stopped. The audio handed over is all their bytes in order. The buffer holds exactly those chunks, recording is off, the answer is the active emotion, and processing is off. |

## Left out

- Audio decoding, silence trimming, mel-spectrogram and decibel scaling (backend/main.py:30-33): floating-point signal processing done inside a library.
- Spectrogram rendering and JPEG encoding (backend/main.py:36-42): plotting-library calls.
- The classifier (backend/main.py:11,45): a black-box trained model. Its output `(pred_class, pred_idx, outputs)` is the `Prediction` input. `Predict` requires the index to be inside the score vector, as the classifier guarantees. The code does not handle an out-of-range index.
- Writing the upload to a fixed file name (backend/main.py:24-28): file I/O. The shared name is a hazard when requests run at the same time.
- The web framework, route registration and asynchronous upload read (backend/main.py:8,22-25).
- Browser media: `getUserMedia`, `MediaRecorder` start/stop, stopping stream tracks, building the `File` (frontend/src/app/home/home.component.ts:35-59). Only the field updates are modelled. The `Blob` built from the chunks is modelled as their concatenation. If `getUserMedia` itself is refused, the catch only logs and alerts, and no field changes. A recorder constructor that throws is modelled (`BeginRecordingFailed`).
- The simulated classification after a failed request (frontend/src/app/home/home.component.ts:88-94): it picks a random emotion and sets it after a timer. `OnClassifyError` only clears `isProcessing`, and the later emotion is not modelled. So the invariant of `RunPreservesInv` covers no such timer event. A timer that fires while a newer request is pending would show an emotion during that request.
- `onFileSelected`, `audioUrl`, `selectedFile` (frontend/src/app/home/home.component.ts:21-32): they only pass a chosen file to `processAudio`, which is modelled.
- The HTTP client service (frontend/src/app/services/audio-classification.service.ts): a POST wrapper with no logic of its own.
- Home.HomeComponent.OnClassified: accepts any `Emotion`, including none. The declared result type allows only the three real emotions, and nothing at run time checks it.
- A mapping from raw labels to happy/neutral/angry: no such mapping exists in the code.
