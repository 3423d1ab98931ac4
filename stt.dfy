/** src/js/speech/stt.js: `SpeechToText`, the wrapper around the browser's speech recognition
    and a microphone analyser. Recognition events are methods the environment calls; a callback
    is identified by a number, and a call of it is a returned `Invocation`. Whether the browser
    grants the microphone and whether a new audio context starts suspended are parameters. */
module Stt {
  import opened Wrappers
  import opened AudioMath
  import C = Constants

  // ---------------------------------------------------------------- recognition results

  /** One entry of `event.results`: its first (and, with `maxAlternatives = 1`, only)
      alternative's transcript and confidence, and whether the result is final. */
  datatype RecognitionResult = RecognitionResult(transcript: string, isFinal: bool, confidence: real)

  /** The final transcripts, concatenated in order. */
  function FinalText(results: seq<RecognitionResult>): string
  {
    if results == [] then ""
    else
      var last := results[|results| - 1];
      FinalText(results[..|results| - 1]) + (if last.isFinal then last.transcript else "")
  }

  /** The interim transcripts, concatenated in order. */
  function InterimText(results: seq<RecognitionResult>): string
  {
    if results == [] then ""
    else
      var last := results[|results| - 1];
      InterimText(results[..|results| - 1]) + (if last.isFinal then "" else last.transcript)
  }

  /** Every transcript, concatenated in order. */
  function AllText(results: seq<RecognitionResult>): string
  {
    if results == [] then "" else AllText(results[..|results| - 1]) + results[|results| - 1].transcript
  }

  /** Splitting by finality loses no text and mixes the two kinds up nowhere: the two
      accumulations distribute over concatenation of result lists, together they are exactly
      as long as all transcripts, and a list of final results only is all final text. */
  lemma {:induction false} TranscriptsSplit(a: seq<RecognitionResult>, b: seq<RecognitionResult>)
    ensures FinalText(a + b) == FinalText(a) + FinalText(b)
    ensures InterimText(a + b) == InterimText(a) + InterimText(b)
    ensures |FinalText(b)| + |InterimText(b)| == |AllText(b)|
    ensures (forall i :: 0 <= i < |b| ==> b[i].isFinal) ==> FinalText(b) == AllText(b) && InterimText(b) == ""
    decreases |b|
  {
    if b != [] {
      var init := b[..|b| - 1];
      assert (a + b)[..|a + b| - 1] == a + init;
      assert (a + b)[|a + b| - 1] == b[|b| - 1];
      TranscriptsSplit(a, init);
    } else {
      assert a + b == a;
    }
  }

  /** The object passed to `onResult`. */
  datatype ResultReport = ResultReport(final: string, interim: string, confidence: real)

  /** `event.results[0] ? event.results[0][0].confidence : 0`. */
  function Confidence(results: seq<RecognitionResult>): (r: real)
    ensures results == [] ==> r == 0.0
    ensures results != [] ==> r == results[0].confidence
  {
    if results == [] then 0.0 else results[0].confidence
  }

  /** The results `onresult` walks: from `resultIndex` to the end, none when it is past the end. */
  function Unseen(results: seq<RecognitionResult>, resultIndex: nat): seq<RecognitionResult>
  {
    if resultIndex <= |results| then results[resultIndex..] else []
  }

  /** The message the recognition `onerror` handler passes on for an error code. */
  function ErrorMessage(code: string): (r: string)
    ensures r == C.UNKNOWN_ERROR <==> code !in {"not-allowed", "no-speech", "audio-capture", "network"}
    ensures r == C.MICROPHONE_ACCESS <==> code == "not-allowed"
    ensures r == C.NETWORK_ERROR <==> code == "network"
  {
    match code
    case "not-allowed" => C.MICROPHONE_ACCESS
    case "no-speech" => "음성이 감지되지 않았습니다. 다시 시도해주세요."
    case "audio-capture" => "오디오 캡처에 실패했습니다."
    case "network" => C.NETWORK_ERROR
    case _ => C.UNKNOWN_ERROR
  }

  // ---------------------------------------------------------------- audio context setup

  /** The audio fields: the context (with whether it is suspended), the microphone source and
      the analyser. */
  datatype AudioSetup = AudioSetup(context: Option<bool>, microphone: bool, analyzer: bool)

  const NoAudio: AudioSetup := AudioSetup(None, false, false)

  /** What `startListening` leaves of the audio fields, as written: a context is created only
      when there is none, and it is stored before the microphone is requested, so a refusal
      leaves a context without microphone or analyser; then a suspended context is resumed. */
  function SetupAsWritten(a: AudioSetup, granted: bool, startsSuspended: bool): AudioSetup
  {
    if a.context.Some? then a.(context := Some(false))
    else if granted then AudioSetup(Some(false), true, true)
    else AudioSetup(Some(startsSuspended), false, false)
  }

  /** The same step when the context is dropped again after a refusal, so that the next start
      asks for the microphone anew. */
  function SetupFixed(a: AudioSetup, granted: bool, startsSuspended: bool): AudioSetup
  {
    if a.context.Some? then a.(context := Some(false))
    else if granted then AudioSetup(Some(false), true, true)
    else NoAudio
  }

  /** As written, one refusal is final: the microphone is never requested again, so no analyser
      exists even after the user grants access and starts again. */
  lemma RefusalIsFinal(startsSuspended: bool)
    ensures SetupAsWritten(SetupAsWritten(NoAudio, false, startsSuspended), true, startsSuspended).analyzer == false
  {
  }

  /** A run of starts, each with the browser's answer to a microphone request. */
  function RunFixed(a: AudioSetup, answers: seq<bool>, startsSuspended: bool): AudioSetup
  {
    if answers == [] then a
    else SetupFixed(RunFixed(a, answers[..|answers| - 1], startsSuspended), answers[|answers| - 1], startsSuspended)
  }

  /** With the fix, the audio fields stay consistent (a context exists exactly when the
      microphone and analyser do), and a start that is granted always leaves an analyser. */
  lemma {:induction false} FixedSetupRecovers(answers: seq<bool>, startsSuspended: bool)
    ensures var a := RunFixed(NoAudio, answers, startsSuspended);
            a.context.Some? == a.microphone == a.analyzer
    ensures answers != [] && answers[|answers| - 1] ==> RunFixed(NoAudio, answers, startsSuspended).analyzer
    decreases |answers|
  {
    if answers != [] {
      FixedSetupRecovers(answers[..|answers| - 1], startsSuspended);
    }
  }

  // ---------------------------------------------------------------- the recognizer

  datatype Callbacks = Callbacks(onStart: Option<nat>, onResult: Option<nat>, onEnd: Option<nat>, onError: Option<nat>)

  const NoCallbacks: Callbacks := Callbacks(None, None, None, None)

  /** The keys present in an object passed to `setCallbacks`; a present key may hold null. */
  datatype CallbacksPatch = CallbacksPatch(onStart: Option<Option<nat>>, onResult: Option<Option<nat>>,
                                           onEnd: Option<Option<nat>>, onError: Option<Option<nat>>)

  function MergeCallbacks(c: Callbacks, p: CallbacksPatch): Callbacks
  {
    Callbacks(Override(c.onStart, p.onStart), Override(c.onResult, p.onResult),
              Override(c.onEnd, p.onEnd), Override(c.onError, p.onError))
  }

  /** What a callback is called with: nothing, a result report, a message of the model's own, or
      the message of an exception the browser raises (whose text is not modelled). */
  datatype Payload = NoArgument | Report(report: ResultReport) | Message(text: string) | BrowserMessage

  datatype Invocation = Invocation(callback: nat, payload: Payload)

  function Notify(callback: Option<nat>, payload: Payload): Option<Invocation>
  {
    if callback.Some? then Some(Invocation(callback.value, payload)) else None
  }

  datatype StartOutcome = NotSupported | AlreadyListening | Started | Failed

  class SpeechToText {
    var isSupported: bool
    /** `this.recognition` is not null. */
    var hasRecognition: bool
    /** `recognition.start()` has been called and its `end` event has not come yet. */
    var recognitionRunning: bool
    var isListening: bool
    var callbacks: Callbacks
    var audio: AudioSetup

    /** A recognizer is created exactly when the API is supported. */
    constructor (supported: bool)
      ensures isSupported == supported && hasRecognition == supported
      ensures !recognitionRunning && !isListening && callbacks == NoCallbacks && audio == NoAudio
    {
      isSupported := supported;
      hasRecognition := supported;
      recognitionRunning := false;
      isListening := false;
      callbacks := NoCallbacks;
      audio := NoAudio;
    }

    method OnStart() returns (call: Option<Invocation>)
      modifies this`isListening
      ensures isListening && call == Notify(callbacks.onStart, NoArgument)
    {
      isListening := true;
      call := Notify(callbacks.onStart, NoArgument);
    }

    /** `onresult`: the loop from `resultIndex` splits the transcripts by finality. */
    method OnResult(results: seq<RecognitionResult>, resultIndex: nat) returns (call: Option<Invocation>)
      ensures call == Notify(callbacks.onResult, Report(ResultReport(FinalText(Unseen(results, resultIndex)),
                                                                     InterimText(Unseen(results, resultIndex)), Confidence(results))))
    {
      var final := "";
      var interim := "";
      var i := resultIndex;
      while i < |results|
        invariant resultIndex <= |results| ==> resultIndex <= i <= |results|
        invariant resultIndex <= |results| ==> final == FinalText(results[resultIndex..i]) && interim == InterimText(results[resultIndex..i])
        invariant resultIndex > |results| ==> final == "" && interim == "" && i == resultIndex
      {
        assert results[resultIndex..i + 1][..i - resultIndex] == results[resultIndex..i];
        if results[i].isFinal {
          final := final + results[i].transcript;
        } else {
          interim := interim + results[i].transcript;
        }
        i := i + 1;
      }
      if resultIndex <= |results| {
        assert results[resultIndex..i] == Unseen(results, resultIndex);
      }
      var confidence := if |results| > 0 then results[0].confidence else 0.0;
      call := Notify(callbacks.onResult, Report(ResultReport(final, interim, confidence)));
    }

    method OnEnd() returns (call: Option<Invocation>)
      modifies this`isListening, this`recognitionRunning
      ensures !isListening && !recognitionRunning && call == Notify(callbacks.onEnd, NoArgument)
    {
      isListening := false;
      recognitionRunning := false;
      call := Notify(callbacks.onEnd, NoArgument);
    }

    /** `onerror`: listening is over and the mapped message is reported; the `end` event that
        follows an error is a separate `OnEnd`. */
    method OnError(code: string) returns (call: Option<Invocation>)
      modifies this`isListening
      ensures !isListening && call == Notify(callbacks.onError, Message(ErrorMessage(code)))
    {
      isListening := false;
      call := Notify(callbacks.onError, Message(ErrorMessage(code)));
    }

    /** `startListening`: throws when unsupported and does nothing while listening; otherwise sets
        up the audio fields, and starts recognition unless the microphone is refused. A refusal,
        a missing recognizer, or a recognizer already started is reported to `onError`. */
    method StartListening(granted: bool, startsSuspended: bool) returns (outcome: StartOutcome, call: Option<Invocation>)
      modifies this`audio, this`recognitionRunning
      ensures !isSupported ==> outcome == NotSupported && call.None?
      ensures isSupported && isListening ==> outcome == AlreadyListening && call.None?
      ensures outcome == NotSupported || outcome == AlreadyListening ==> audio == old(audio) && recognitionRunning == old(recognitionRunning)
      ensures isSupported && !isListening ==> audio == SetupAsWritten(old(audio), granted, startsSuspended)
      ensures isSupported && !isListening && old(audio).context.None? && !granted ==>
                outcome == Failed && call == Notify(callbacks.onError, Message(C.MICROPHONE_ACCESS)) && recognitionRunning == old(recognitionRunning)
      ensures isSupported && !isListening && (old(audio).context.Some? || granted) ==>
                (outcome == Started <==> hasRecognition && !old(recognitionRunning))
                && (outcome == Started ==> call.None? && recognitionRunning)
                && (outcome != Started ==> outcome == Failed && call == Notify(callbacks.onError, BrowserMessage) && recognitionRunning == old(recognitionRunning))
    {
      if !isSupported {
        return NotSupported, None;
      }
      if isListening {
        return AlreadyListening, None;
      }
      if audio.context.None? {
        if !granted {
          audio := AudioSetup(Some(startsSuspended), false, false);
          return Failed, Notify(callbacks.onError, Message(C.MICROPHONE_ACCESS));
        }
        audio := AudioSetup(Some(startsSuspended), true, true);
      }
      if audio.context.value {
        audio := audio.(context := Some(false));
      }
      if !hasRecognition || recognitionRunning {
        return Failed, Notify(callbacks.onError, BrowserMessage);
      }
      recognitionRunning := true;
      outcome, call := Started, None;
    }

    /** `stopListening`: asks the recognizer to stop only while listening; `isListening` stays
        set until the `end` event arrives. */
    method StopListening() returns (stopRequested: bool)
      ensures stopRequested <==> hasRecognition && isListening
    {
      stopRequested := hasRecognition && isListening;
    }

    /** `getAudioLevel`: 0 without an analyser, else the mean of the analyser's frequency bins. */
    method GetAudioLevel(bins: seq<int>) returns (level: real)
      requires |bins| == C.FFT_SIZE / 2 && InByteRange(bins)
      ensures !audio.analyzer ==> level == 0.0
      ensures audio.analyzer ==> level == Mean(bins)
      ensures 0.0 <= level <= 255.0
    {
      if !audio.analyzer {
        return 0.0;
      }
      var sum := 0;
      var i := 0;
      while i < |bins|
        invariant i <= |bins| && sum == Sum(bins[..i])
      {
        SumSnoc(bins[..i], bins[i]);
        assert bins[..i + 1] == bins[..i] + [bins[i]];
        sum := sum + bins[i];
        i := i + 1;
      }
      assert bins[..i] == bins;
      MeanOfBytes(bins);
      level := sum as real / |bins| as real;
    }

    /** `detectSpeechActivity`: the level is above the fixed threshold 30. */
    method DetectSpeechActivity(bins: seq<int>) returns (active: bool)
      requires |bins| == C.FFT_SIZE / 2 && InByteRange(bins)
      ensures active <==> audio.analyzer && Mean(bins) > 30.0
    {
      var level := GetAudioLevel(bins);
      active := level > 30.0;
    }

    method SetCallbacks(patch: CallbacksPatch)
      modifies this`callbacks
      ensures callbacks == MergeCallbacks(old(callbacks), patch)
    {
      callbacks := MergeCallbacks(callbacks, patch);
    }

    /** `destroy`: requests a stop, closes the context and drops every audio and recognition
        object. */
    method Destroy() returns (stopRequested: bool)
      modifies this`audio, this`hasRecognition
      ensures stopRequested <==> old(hasRecognition) && isListening
      ensures audio == NoAudio && !hasRecognition
    {
      stopRequested := StopListening();
      audio := NoAudio;
      hasRecognition := false;
    }
  }

  /** The refusal as the class runs it: after a refused start and a granted one, recognition
      runs but no analyser exists, so every audio level reads 0. */
  method RefusedMicrophoneStaysSilent(stt: SpeechToText, bins: seq<int>) returns (level: real)
    requires stt.isSupported && stt.hasRecognition && !stt.isListening && !stt.recognitionRunning && stt.audio == NoAudio
    requires |bins| == C.FFT_SIZE / 2 && InByteRange(bins)
    modifies stt
    ensures stt.recognitionRunning && !stt.audio.analyzer && level == 0.0
  {
    var first, _ := stt.StartListening(false, true);
    var second, _ := stt.StartListening(true, true);
    level := stt.GetAudioLevel(bins);
  }
}
