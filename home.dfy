/** The home screen of the front end: how a selected emotion is shown, and
    the recording / processing state of the component. */
module Home {

  /** The component's emotion type: three emotions or none (`null`). */
  datatype Emotion = Happy | Neutral | Angry | NoEmotion

  /** The bytes of one recorded piece of audio. */
  type Blob = seq<bv8>

  const SmilingFace := "\U{1F60A}"
  const NeutralFace := "\U{1F610}"
  const AngryFace := "\U{1F620}"

  /** The face shown for an emotion. Neutral and no emotion share one. */
  function EmotionIcon(e: Emotion): (icon: string)
    ensures |icon| == 1
    ensures icon == NeutralFace <==> e == Neutral || e == NoEmotion
    ensures icon == SmilingFace <==> e == Happy
    ensures icon == AngryFace <==> e == Angry
  {
    match e
    case Happy => SmilingFace
    case Neutral => NeutralFace
    case Angry => AngryFace
    case NoEmotion => NeutralFace
  }

  /** The Spanish name shown for an emotion; empty when there is none. */
  function EmotionText(e: Emotion): (text: string)
    ensures text == "" <==> e == NoEmotion
  {
    match e
    case Happy => "Feliz"
    case Neutral => "Neutral"
    case Angry => "Enojado"
    case NoEmotion => ""
  }

  /** The routing advice shown to the agent; empty when there is no emotion. */
  function AgentSuggestion(e: Emotion): (advice: string)
    ensures advice == "" <==> e == NoEmotion
  {
    match e
    case Happy => "Se sugiere derivar a un agente especializado en atención al cliente feliz"
    case Neutral => "Se sugiere derivar a un agente de atención estándar"
    case Angry => "Se sugiere derivar a un agente especializado en resolución de conflictos"
    case NoEmotion => ""
  }

  /** Two emotions share a face exactly when both are neutral or none. */
  lemma IconsDistinguish(a: Emotion, b: Emotion)
    ensures EmotionIcon(a) == EmotionIcon(b) <==>
      a == b || ((a == Neutral || a == NoEmotion) && (b == Neutral || b == NoEmotion))
  {
  }

  /** Texts and suggestions tell every pair of emotions apart. */
  lemma TextsDistinguish(a: Emotion, b: Emotion)
    ensures EmotionText(a) == EmotionText(b) <==> a == b
    ensures AgentSuggestion(a) == AgentSuggestion(b) <==> a == b
  {
  }

  /** The fields of the component this model follows. `hasRecorder` says
      whether a media recorder has been created. */
  datatype UiState = UiState(
    selected: Emotion,
    processing: bool,
    recording: bool,
    hasRecorder: bool,
    chunks: seq<Blob>)

  /** The state of a freshly constructed component. */
  const Initial := UiState(NoEmotion, false, false, false, [])

  /** The things that change the component's state: a request is sent,
      the request answers or fails, the stop button is pressed, the
      microphone stream has been granted and a recorder created, the
      stream was granted but creating the recorder threw, the recorder
      delivers data. */
  datatype Event =
    | ProcessStarted
    | Classified(emotion: Emotion)
    | ClassifyFailed
    | StopPressed
    | RecordingBegan
    | RecorderFailed
    | DataAvailable(chunk: Blob)

  /** The state after one event. A recorder constructor that throws has
      already set the recording flag and emptied the chunks; the recorder
      field keeps whatever it held. */
  function Step(s: UiState, ev: Event): UiState
  {
    match ev
    case ProcessStarted => s.(processing := true, selected := NoEmotion)
    case Classified(e) => s.(selected := e, processing := false)
    case ClassifyFailed => s.(processing := false)
    case StopPressed => if s.hasRecorder && s.recording then s.(recording := false) else s
    case RecordingBegan => s.(recording := true, chunks := [], hasRecorder := true)
    case RecorderFailed => s.(recording := true, chunks := [])
    case DataAvailable(c) => s.(chunks := s.chunks + [c])
  }

  /** The state after a sequence of events, in order. */
  function Run(s: UiState, evs: seq<Event>): UiState
    decreases |evs|
  {
    if evs == [] then s else Run(Step(s, evs[0]), evs[1..])
  }

  /** What holds in every reachable state: no emotion is shown while the
      processing flag is set. */
  ghost predicate Inv(s: UiState)
  {
    s.processing ==> s.selected == NoEmotion
  }

  lemma InitialInv()
    ensures Inv(Initial)
  {
  }

  lemma StepPreservesInv(s: UiState, ev: Event)
    requires Inv(s)
    ensures Inv(Step(s, ev))
  {
  }

  /** Every sequence of events from a valid state keeps the invariant. */
  lemma {:induction false} RunPreservesInv(s: UiState, evs: seq<Event>)
    requires Inv(s)
    ensures Inv(Run(s, evs))
    decreases |evs|
  {
    if evs != [] {
      StepPreservesInv(s, evs[0]);
      RunPreservesInv(Step(s, evs[0]), evs[1..]);
    }
  }

  /** Every state the component reaches from construction keeps the invariant. */
  lemma ReachableInv(evs: seq<Event>)
    ensures Inv(Run(Initial, evs))
  {
    RunPreservesInv(Initial, evs);
  }

  /** The processing flag is one flag for all requests: when two requests
      overlap, the first answer clears it and shows its emotion while the
      second request is still out. */
  lemma OverlappingRequests()
    ensures var s := Run(Initial, [ProcessStarted, ProcessStarted, Classified(Happy)]);
      !s.processing && s.selected == Happy
  {
  }

  /** The component is recording only when a recorder exists. */
  ghost predicate RecorderInv(s: UiState)
  {
    s.recording ==> s.hasRecorder
  }

  /** As long as creating a recorder never throws, recording implies a
      recorder exists. */
  lemma {:induction false} RunPreservesRecorderInv(s: UiState, evs: seq<Event>)
    requires RecorderInv(s)
    requires forall i :: 0 <= i < |evs| ==> evs[i] != RecorderFailed
    ensures RecorderInv(Run(s, evs))
    decreases |evs|
  {
    if evs != [] {
      RunPreservesRecorderInv(Step(s, evs[0]), evs[1..]);
    }
  }

  /** Once the flag is set with no recorder behind it, nothing but a new,
      successfully created recorder clears it: the stop button has no
      effect. */
  lemma {:induction false} RecordingStuckWithoutRecorder(s: UiState, evs: seq<Event>)
    requires s.recording && !s.hasRecorder
    requires forall i :: 0 <= i < |evs| ==> evs[i] != RecordingBegan
    ensures Run(s, evs).recording && !Run(s, evs).hasRecorder
    decreases |evs|
  {
    if evs != [] {
      RecordingStuckWithoutRecorder(Step(s, evs[0]), evs[1..]);
    }
  }

  /** From a new component, a recorder that fails to be created leaves
      the component recording for good, stop or no stop. */
  lemma FailedRecorderCannotStop()
    ensures Run(Initial, [RecorderFailed, StopPressed]).recording
  {
  }

  /** Running two sequences of events one after the other. */
  lemma {:induction false} RunAppend(s: UiState, xs: seq<Event>, ys: seq<Event>)
    ensures Run(s, xs + ys) == Run(Run(s, xs), ys)
    decreases |xs|
  {
    if xs != [] {
      assert (xs + ys)[0] == xs[0];
      assert (xs + ys)[1..] == xs[1..] + ys;
      assert Run(s, xs + ys) == Run(Step(s, xs[0]), xs[1..] + ys);
      assert Run(s, xs) == Run(Step(s, xs[0]), xs[1..]);
      RunAppend(Step(s, xs[0]), xs[1..], ys);
    } else {
      assert xs + ys == ys;
    }
  }

  /** One data event per chunk, in order. */
  function DataEvents(cs: seq<Blob>): (evs: seq<Event>)
    ensures |evs| == |cs|
    ensures forall i :: 0 <= i < |cs| ==> evs[i] == DataAvailable(cs[i])
    decreases |cs|
  {
    if cs == [] then [] else [DataAvailable(cs[0])] + DataEvents(cs[1..])
  }

  /** Data events append their chunks at the end, in order, and touch
      nothing else. */
  lemma {:induction false} DataEventsAppend(s: UiState, cs: seq<Blob>)
    ensures Run(s, DataEvents(cs)) == s.(chunks := s.chunks + cs)
    decreases |cs|
  {
    if cs == [] {
      assert s.chunks + cs == s.chunks;
    } else {
      var evs := DataEvents(cs);
      assert evs[1..] == DataEvents(cs[1..]);
      DataEventsAppend(Step(s, evs[0]), cs[1..]);
      assert s.chunks + [cs[0]] + cs[1..] == s.chunks + cs;
    }
  }

  /** A recording that begins and then receives data holds exactly that
      data, whatever any earlier recording held. */
  lemma RecordingCollects(s: UiState, cs: seq<Blob>)
    ensures Run(s, [RecordingBegan] + DataEvents(cs)).chunks == cs
    ensures Run(s, [RecordingBegan] + DataEvents(cs)).recording
  {
    RunAppend(s, [RecordingBegan], DataEvents(cs));
    DataEventsAppend(Step(s, RecordingBegan), cs);
  }

  /** Stopping twice is the same as stopping once. */
  lemma StopIdempotent(s: UiState)
    ensures Step(Step(s, StopPressed), StopPressed) == Step(s, StopPressed)
    ensures !Step(s, StopPressed).recording || !s.hasRecorder
  {
  }

  /** Where recording implies a recorder, the recorder test in the stop
      handler is redundant: stopping only ever clears the recording flag. */
  lemma StopOnlyClearsRecording(s: UiState)
    requires RecorderInv(s)
    ensures Step(s, StopPressed) == s.(recording := false)
  {
  }

  /** The bytes of a blob built from a list of chunks: their concatenation. */
  function Flatten(cs: seq<Blob>): (b: Blob)
    decreases |cs|
  {
    if cs == [] then [] else cs[0] + Flatten(cs[1..])
  }

  /** Appending a chunk appends its bytes to the recorded audio. */
  lemma {:induction false} FlattenAppend(cs: seq<Blob>, c: Blob)
    ensures Flatten(cs + [c]) == Flatten(cs) + c
    decreases |cs|
  {
    if cs == [] {
      assert [] + [c] == [c];
    } else {
      assert (cs + [c])[1..] == cs[1..] + [c];
      FlattenAppend(cs[1..], c);
    }
  }

  /** The component. `hasRecorder` stands for `mediaRecorder != null`. */
  class HomeComponent {
    var selectedEmotion: Emotion
    var isProcessing: bool
    var isRecording: bool
    var hasRecorder: bool
    var audioChunks: seq<Blob>

    /** The fields as one value. */
    function View(): UiState
      reads this
    {
      UiState(selectedEmotion, isProcessing, isRecording, hasRecorder, audioChunks)
    }

    ghost predicate Valid()
      reads this
    {
      Inv(View())
    }

    constructor ()
      ensures View() == Initial && Valid()
    {
      selectedEmotion := NoEmotion;
      isProcessing := false;
      isRecording := false;
      hasRecorder := false;
      audioChunks := [];
    }

    /** A file is sent for classification: the spinner is shown and the
        previous emotion is cleared. */
    method ProcessAudio()
      requires Valid()
      modifies this
      ensures Valid()
      ensures isProcessing && selectedEmotion == NoEmotion
      ensures isRecording == old(isRecording) && hasRecorder == old(hasRecorder)
      ensures audioChunks == old(audioChunks)
      ensures View() == Step(old(View()), ProcessStarted)
    {
      isProcessing := true;
      selectedEmotion := NoEmotion;
    }

    /** The request answered with an emotion. */
    method OnClassified(e: Emotion)
      requires Valid()
      modifies this
      ensures Valid()
      ensures selectedEmotion == e && !isProcessing
      ensures isRecording == old(isRecording) && hasRecorder == old(hasRecorder)
      ensures audioChunks == old(audioChunks)
      ensures View() == Step(old(View()), Classified(e))
    {
      selectedEmotion := e;
      isProcessing := false;
    }

    /** The request failed: the spinner is hidden, the emotion stays. */
    method OnClassifyError()
      requires Valid()
      modifies this
      ensures Valid()
      ensures !isProcessing && selectedEmotion == old(selectedEmotion)
      ensures isRecording == old(isRecording) && hasRecorder == old(hasRecorder)
      ensures audioChunks == old(audioChunks)
      ensures View() == Step(old(View()), ClassifyFailed)
    {
      isProcessing := false;
    }

    /** The stop button: acts only on a running recorder. */
    method StopRecording()
      requires Valid()
      modifies this
      ensures Valid()
      ensures old(hasRecorder && isRecording) ==> !isRecording
      ensures !old(hasRecorder && isRecording) ==> isRecording == old(isRecording)
      ensures selectedEmotion == old(selectedEmotion) && isProcessing == old(isProcessing)
      ensures hasRecorder == old(hasRecorder) && audioChunks == old(audioChunks)
      ensures View() == Step(old(View()), StopPressed)
    {
      if hasRecorder && isRecording {
        isRecording := false;
      }
    }

    /** The microphone stream was granted: a new recorder starts with an
        empty chunk list. */
    method BeginRecording()
      requires Valid()
      modifies this
      ensures Valid()
      ensures isRecording && hasRecorder && audioChunks == []
      ensures selectedEmotion == old(selectedEmotion) && isProcessing == old(isProcessing)
      ensures View() == Step(old(View()), RecordingBegan)
    {
      isRecording := true;
      audioChunks := [];
      hasRecorder := true;
    }

    /** The microphone stream was granted, the flag was set and the chunks
        emptied, and then creating the recorder threw: the error handler
        only reports it, so the recorder field keeps its old value. */
    method BeginRecordingFailed()
      requires Valid()
      modifies this
      ensures Valid()
      ensures isRecording && audioChunks == [] && hasRecorder == old(hasRecorder)
      ensures selectedEmotion == old(selectedEmotion) && isProcessing == old(isProcessing)
      ensures View() == Step(old(View()), RecorderFailed)
    {
      isRecording := true;
      audioChunks := [];
    }

    /** The recorder delivered one chunk: it goes at the end. */
    method OnDataAvailable(chunk: Blob)
      requires Valid()
      modifies this
      ensures Valid()
      ensures audioChunks == old(audioChunks) + [chunk]
      ensures selectedEmotion == old(selectedEmotion) && isProcessing == old(isProcessing)
      ensures isRecording == old(isRecording) && hasRecorder == old(hasRecorder)
      ensures View() == Step(old(View()), DataAvailable(chunk))
    {
      audioChunks := audioChunks + [chunk];
    }

    /** The recorder stopped: the chunks are joined into one recording,
        which is sent for classification. */
    method OnRecorderStop() returns (audio: Blob)
      requires Valid()
      modifies this
      ensures Valid()
      ensures audio == Flatten(audioChunks) && audioChunks == old(audioChunks)
      ensures isProcessing && selectedEmotion == NoEmotion
      ensures View() == Step(old(View()), ProcessStarted)
    {
      audio := Flatten(audioChunks);
      ProcessAudio();
    }

    /** Whether an emotion button is highlighted. */
    function IsEmotionActive(e: Emotion): (active: bool)
      reads this
      ensures active <==> selectedEmotion == e
      ensures Valid() && isProcessing ==> (active <==> e == NoEmotion)
    {
      selectedEmotion == e
    }
  }

  /** At most one of the three emotions is highlighted at a time, and none
      is highlighted exactly when `null` is. */
  lemma AtMostOneActive(c: HomeComponent)
    ensures !(c.IsEmotionActive(Happy) && c.IsEmotionActive(Neutral))
    ensures !(c.IsEmotionActive(Happy) && c.IsEmotionActive(Angry))
    ensures !(c.IsEmotionActive(Neutral) && c.IsEmotionActive(Angry))
    ensures c.IsEmotionActive(NoEmotion) <==>
      !c.IsEmotionActive(Happy) && !c.IsEmotionActive(Neutral) && !c.IsEmotionActive(Angry)
  {
  }

  /** While the processing flag is set no emotion is highlighted. */
  lemma NothingActiveWhilePending(c: HomeComponent)
    requires c.Valid() && c.isProcessing
    ensures !c.IsEmotionActive(Happy) && !c.IsEmotionActive(Neutral) && !c.IsEmotionActive(Angry)
  {
  }

  /** A recording session: the chunks arrive one by one, the user stops,
      the recorder hands over their bytes in order, and the answer ends
      processing and is shown. */
  method RecordAndClassify(cs: seq<Blob>, answer: Emotion) returns (c: HomeComponent, audio: Blob)
    ensures audio == Flatten(cs)
    ensures c.audioChunks == cs && !c.isRecording
    ensures c.IsEmotionActive(answer) && !c.isProcessing
  {
    c := new HomeComponent();
    c.BeginRecording();
    var i := 0;
    while i < |cs|
      invariant 0 <= i <= |cs|
      invariant c.Valid() && c.isRecording && c.hasRecorder
      invariant c.audioChunks == cs[..i]
    {
      c.OnDataAvailable(cs[i]);
      assert cs[..i + 1] == cs[..i] + [cs[i]];
      i := i + 1;
    }
    assert cs[..i] == cs;
    c.StopRecording();
    audio := c.OnRecorderStop();
    c.OnClassified(answer);
  }
}
