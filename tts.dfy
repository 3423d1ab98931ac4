/** src/js/speech/tts.js: `TextToSpeech`, the wrapper around the browser's speech synthesis.
    The synthesis engine itself is abstracted to the queue of utterances handed to it; its
    `speaking` flag is that queue being non-empty, and its utterance events are methods that the
    environment calls for the utterance at the head of the queue. A callback is identified by a
    number, so "calls the callback with an argument" becomes a returned `Invocation`. */
module Tts {
  import opened Wrappers
  import opened Text
  import C = Constants

  // ---------------------------------------------------------------- sentence chunking

  /** The separator `splitTextIntoChunks` puts between the sentences of one chunk. */
  const Sep: string := ". "

  /** The chunker's state after some sentences: the chunks already pushed, each as the list of
      sentences it joins, and the sentences of the chunk under construction (`currentChunk`). */
  datatype Grouping = Grouping(done: seq<seq<string>>, open: seq<string>)

  /** One iteration of the `forEach`, given the trimmed sentence: skip a blank one, append it to
      the current chunk when the lengths fit, otherwise push the current chunk and start anew. */
  function Step(g: Grouping, t: string, size: int): Grouping
  {
    if t == "" then g
    else if g.open != [] && |Join(g.open, Sep)| + |t| <= size then Grouping(g.done, g.open + [t])
    else if g.open == [] then Grouping(g.done, [t])
    else Grouping(g.done + [g.open], [t])
  }

  function Fold(sentences: seq<string>, size: int): Grouping
  {
    if sentences == [] then Grouping([], [])
    else Step(Fold(sentences[..|sentences| - 1], size), Trim(sentences[|sentences| - 1]), size)
  }

  /** All chunks once the loop is over: the final `if (currentChunk)` pushes the open one. */
  function Groups(g: Grouping): seq<seq<string>>
  {
    g.done + (if g.open == [] then [] else [g.open])
  }

  function Joined(gs: seq<seq<string>>): (r: seq<string>)
    ensures |r| == |gs|
  {
    seq(|gs|, i requires 0 <= i < |gs| => Join(gs[i], Sep))
  }

  /** The sentence lists of the chunks of `text`. */
  function ChunkGroups(text: string, size: int): seq<seq<string>>
  {
    Groups(Fold(SplitSentences(text), size))
  }

  /** What `splitTextIntoChunks(text, size)` returns. */
  function ChunkText(text: string, size: int): (r: seq<string>)
    ensures |r| == |ChunkGroups(text, size)|
  {
    Joined(ChunkGroups(text, size))
  }

  /** The trimmed, non-blank sentences, in order: what the chunks are made of. */
  function Kept(sentences: seq<string>): (r: seq<string>)
    ensures forall k :: 0 <= k < |r| ==> r[k] != ""
  {
    if sentences == [] then []
    else
      var t := Trim(sentences[|sentences| - 1]);
      Kept(sentences[..|sentences| - 1]) + (if t == "" then [] else [t])
  }

  function Pieces(text: string): seq<string>
  {
    Kept(SplitSentences(text))
  }

  function Flatten(gs: seq<seq<string>>): seq<string>
  {
    if gs == [] then [] else Flatten(gs[..|gs| - 1]) + gs[|gs| - 1]
  }

  /** A chunk the greedy loop can build: not empty, no empty sentence, and when it holds two or
      more sentences it fits in `size + 2` characters and none of its sentences exceeds `size`. */
  ghost predicate GoodChunk(c: seq<string>, size: int)
  {
    c != [] && (forall k :: 0 <= k < |c| ==> c[k] != "")
    && (|c| >= 2 ==> |Join(c, Sep)| <= size + 2 && forall k :: 0 <= k < |c| ==> |c[k]| <= size)
  }

  /** Chunk `a` was closed because the first sentence of the next chunk `b` did not fit. */
  ghost predicate ClosedBefore(a: seq<string>, b: seq<string>, size: int)
  {
    b != [] && |Join(a, Sep)| + |b[0]| > size
  }

  /** The shape every chunk list of the greedy loop has. */
  ghost predicate WellGrouped(gs: seq<seq<string>>, size: int)
  {
    (forall j :: 0 <= j < |gs| ==> GoodChunk(gs[j], size))
    && (forall j :: 0 <= j < |gs| - 1 ==> ClosedBefore(gs[j], gs[j + 1], size))
  }

  lemma GroupedSnoc(gs: seq<seq<string>>, c: seq<string>, size: int)
    requires WellGrouped(gs, size) && GoodChunk(c, size)
    requires gs != [] ==> ClosedBefore(gs[|gs| - 1], c, size)
    ensures WellGrouped(gs + [c], size)
  {
    var gs' := gs + [c];
    assert forall j :: 0 <= j < |gs| ==> gs'[j] == gs[j];
  }

  lemma GroupedPrefix(gs: seq<seq<string>>, size: int)
    requires WellGrouped(gs, size) && gs != []
    ensures WellGrouped(gs[..|gs| - 1], size)
  {
  }

  lemma {:induction false} PartWithinJoin(parts: seq<string>, sep: string, k: nat)
    requires k < |parts|
    ensures |parts[k]| <= |Join(parts, sep)|
    decreases |parts|
  {
    if k > 0 {
      PartWithinJoin(parts[1..], sep, k - 1);
    }
  }

  lemma FlattenSnoc(gs: seq<seq<string>>, x: seq<string>)
    ensures Flatten(gs + [x]) == Flatten(gs) + x
  {
    assert (gs + [x])[..|gs|] == gs;
  }

  /** Appending a sentence that fits keeps the chunk good. */
  lemma GrowChunk(c: seq<string>, t: string, size: int)
    requires GoodChunk(c, size) && t != "" && |Join(c, Sep)| + |t| <= size
    ensures GoodChunk(c + [t], size) && (c + [t])[0] == c[0]
  {
    JoinSnoc(c, t, Sep);
    forall k | 0 <= k < |c|
      ensures |c[k]| <= size
    {
      PartWithinJoin(c, Sep, k);
    }
  }

  /** One step of the loop keeps the shape and extends the flattened sentence list by exactly the
      sentence it was given, when that one is not blank. */
  lemma StepKeepsShape(g: Grouping, t: string, size: int)
    requires WellGrouped(Groups(g), size) && (g.open == [] ==> g.done == [])
    ensures WellGrouped(Groups(Step(g, t, size)), size)
    ensures Step(g, t, size).open == [] ==> Step(g, t, size).done == []
    ensures Flatten(Groups(Step(g, t, size))) == Flatten(Groups(g)) + (if t == "" then [] else [t])
  {
    if t == "" {
    } else if g.open == [] {
      assert Groups(Step(g, t, size)) == [] + [[t]];
      GroupedSnoc([], [t], size);
      FlattenSnoc([], [t]);
    } else if |Join(g.open, Sep)| + |t| <= size {
      assert Groups(Step(g, t, size)) == g.done + [g.open + [t]];
      GrowKeepsShape(g, t, size);
    } else {
      assert Groups(Step(g, t, size)) == Groups(g) + [[t]];
      CloseKeepsShape(g, t, size);
    }
  }

  /** The step that appends a fitting sentence to the open chunk. */
  lemma GrowKeepsShape(g: Grouping, t: string, size: int)
    requires WellGrouped(Groups(g), size) && g.open != [] && t != "" && |Join(g.open, Sep)| + |t| <= size
    ensures WellGrouped(g.done + [g.open + [t]], size)
    ensures Flatten(g.done + [g.open + [t]]) == Flatten(Groups(g)) + [t]
  {
    var gs := Groups(g);
    var grown := g.open + [t];
    assert gs == g.done + [g.open];
    GroupedPrefix(gs, size);
    assert gs[..|gs| - 1] == g.done;
    assert GoodChunk(gs[|gs| - 1], size);
    GrowChunk(g.open, t, size);
    if g.done != [] {
      assert ClosedBefore(gs[|gs| - 2], gs[|gs| - 1], size);
    }
    GroupedSnoc(g.done, grown, size);
    FlattenSnoc(g.done, g.open);
    FlattenSnoc(g.done, grown);
  }

  /** The step that closes the open chunk and opens one with a sentence that does not fit. */
  lemma CloseKeepsShape(g: Grouping, t: string, size: int)
    requires WellGrouped(Groups(g), size) && g.open != [] && t != "" && |Join(g.open, Sep)| + |t| > size
    ensures WellGrouped(Groups(g) + [[t]], size)
    ensures Flatten(Groups(g) + [[t]]) == Flatten(Groups(g)) + [t]
  {
    var gs := Groups(g);
    assert gs == g.done + [g.open];
    GroupedSnoc(gs, [t], size);
    FlattenSnoc(gs, [t]);
  }

  /** The loop's fold groups exactly the kept sentences, in order, into a well-shaped list. */
  lemma {:induction false} FoldShape(sentences: seq<string>, size: int)
    ensures WellGrouped(Groups(Fold(sentences, size)), size)
    ensures Fold(sentences, size).open == [] ==> Fold(sentences, size).done == []
    ensures Flatten(Groups(Fold(sentences, size))) == Kept(sentences)
    decreases |sentences|
  {
    if sentences != [] {
      var init := sentences[..|sentences| - 1];
      FoldShape(init, size);
      StepKeepsShape(Fold(init, size), Trim(sentences[|sentences| - 1]), size);
    }
  }

  /** Joining the chunks is joining their sentences, when no chunk is empty. */
  lemma {:induction false} JoinFlatten(gs: seq<seq<string>>)
    requires forall j :: 0 <= j < |gs| ==> gs[j] != []
    ensures Join(Joined(gs), Sep) == Join(Flatten(gs), Sep)
    decreases |gs|
  {
    if gs != [] {
      var init := gs[..|gs| - 1];
      var last := gs[|gs| - 1];
      assert gs == init + [last];
      if init == [] {
        assert Joined(gs) == [Join(last, Sep)];
        assert Flatten(gs) == last;
      } else {
        JoinFlatten(init);
        assert Joined(gs) == Joined(init) + [Join(last, Sep)];
        JoinSnoc(Joined(init), Join(last, Sep), Sep);
        assert Flatten(init) == Flatten(init[..|init| - 1]) + init[|init| - 1];
        JoinAppend(Flatten(init), last, Sep);
      }
    }
  }

  /** The chunk strings of a well-shaped list: none is empty; one of several sentences is at
      most `size + 2` long; a sentence longer than `size` is a whole chunk by itself; and a chunk
      is closed only when the next sentence does not fit beside it. */
  lemma JoinedShape(gs: seq<seq<string>>, size: int)
    requires WellGrouped(gs, size)
    ensures forall i :: 0 <= i < |gs| ==> Joined(gs)[i] != ""
    ensures forall i :: 0 <= i < |gs| && |gs[i]| >= 2 ==> |Joined(gs)[i]| <= size + 2
    ensures forall i, k :: 0 <= i < |gs| && 0 <= k < |gs[i]| && |gs[i][k]| > size ==> Joined(gs)[i] == gs[i][k]
    ensures forall i :: 0 <= i < |gs| - 1 ==> |Joined(gs)[i]| + |gs[i + 1][0]| > size
  {
    forall i | 0 <= i < |gs|
      ensures Joined(gs)[i] != ""
    {
      assert GoodChunk(gs[i], size);
      PartWithinJoin(gs[i], Sep, 0);
    }
    forall i, k | 0 <= i < |gs| && 0 <= k < |gs[i]| && |gs[i][k]| > size
      ensures Joined(gs)[i] == gs[i][k]
    {
      assert GoodChunk(gs[i], size);
      assert |gs[i]| == 1;
    }
    forall i | 0 <= i < |gs| - 1
      ensures |Joined(gs)[i]| + |gs[i + 1][0]| > size
    {
      assert ClosedBefore(gs[i], gs[i + 1], size);
    }
  }

  /** What `splitTextIntoChunks` promises: in order, the chunks join back (with ". ") into the
      trimmed non-blank sentences of the text, each chunk being the join of a run of them; and
      the chunk strings have the shape `JoinedShape` states. */
  lemma ChunkTextSound(text: string, size: int)
    ensures var gs := ChunkGroups(text, size);
            WellGrouped(gs, size) && Flatten(gs) == Pieces(text)
            && ChunkText(text, size) == Joined(gs)
            && Join(ChunkText(text, size), Sep) == Join(Pieces(text), Sep)
  {
    var gs := ChunkGroups(text, size);
    assert WellGrouped(gs, size) && Flatten(gs) == Pieces(text) by {
      FoldShape(SplitSentences(text), size);
    }
    assert Join(Joined(gs), Sep) == Join(Flatten(gs), Sep) by {
      JoinFlatten(gs);
    }
  }

  // ---------------------------------------------------------------- settings and voices

  datatype Settings = Settings(rate: real, pitch: real, volume: real, language: string)

  /** The keys present in an object passed to `updateSettings`. */
  datatype SettingsPatch = SettingsPatch(rate: Option<real>, pitch: Option<real>, volume: Option<real>, language: Option<string>)

  const DefaultSettings: Settings := Settings(C.TTS_RATE, C.TTS_PITCH, C.TTS_VOLUME, C.TTS_LANGUAGE)

  /** `{ ...settings, ...patch }`. */
  function MergeSettings(s: Settings, p: SettingsPatch): Settings
  {
    Settings(Override(s.rate, p.rate), Override(s.pitch, p.pitch), Override(s.volume, p.volume), Override(s.language, p.language))
  }

  /** Two successive merges are one merge with the later patch winning key by key. */
  function ThenPatch(p: SettingsPatch, q: SettingsPatch): SettingsPatch
  {
    SettingsPatch(if q.rate.Some? then q.rate else p.rate, if q.pitch.Some? then q.pitch else p.pitch,
                  if q.volume.Some? then q.volume else p.volume, if q.language.Some? then q.language else p.language)
  }

  /** The merge is right-biased: an empty patch changes nothing, re-applying a patch changes
      nothing more, and merges compose. */
  lemma MergeLaws(s: Settings, p: SettingsPatch, q: SettingsPatch)
    ensures MergeSettings(s, SettingsPatch(None, None, None, None)) == s
    ensures MergeSettings(MergeSettings(s, p), p) == MergeSettings(s, p)
    ensures MergeSettings(MergeSettings(s, p), q) == MergeSettings(s, ThenPatch(p, q))
  {
  }

  /** `Math.max(lo, Math.min(hi, x))`. */
  function Clamp(lo: real, hi: real, x: real): (r: real)
    requires lo <= hi
    ensures lo <= r <= hi
    ensures lo <= x <= hi ==> r == x
    ensures x < lo ==> r == lo
    ensures x > hi ==> r == hi
  {
    if x > hi then hi else if x < lo then lo else x
  }

  /** `adjustVoiceForEmotion`'s table: the rate and pitch of each known emotion. */
  const EmotionTones: map<string, (real, real)> := map[
    "happy" := (1.1, 1.2), "sad" := (0.8, 0.8), "excited" := (1.3, 1.3),
    "calm" := (0.9, 1.0), "angry" := (1.2, 0.7), "surprised" := (1.0, 1.4)]

  /** The settings a known emotion would speak with; any other name returns the settings as
      they are. */
  function AdjustForEmotion(s: Settings, emotion: string): (r: Settings)
    ensures r.volume == s.volume && r.language == s.language
    ensures emotion in EmotionTones ==> (r.rate, r.pitch) == EmotionTones[emotion]
    ensures emotion !in EmotionTones ==> r == s
  {
    if emotion in EmotionTones then s.(rate := EmotionTones[emotion].0, pitch := EmotionTones[emotion].1) else s
  }

  /** The emotion override is the spread merge of the emotion's two keys. */
  lemma AdjustIsMerge(s: Settings, emotion: string)
    requires emotion in EmotionTones
    ensures AdjustForEmotion(s, emotion) == MergeSettings(s, SettingsPatch(Some(EmotionTones[emotion].0), Some(EmotionTones[emotion].1), None, None))
  {
  }

  datatype Voice = Voice(name: string, lang: string)

  /** `voice.lang.startsWith('ko') || voice.lang.includes('KR')`. */
  predicate IsKorean(v: Voice)
  {
    StartsWith(v.lang, "ko") || Contains(v.lang, "KR")
  }

  /** The index `voices.find(IsKorean)` stops at. */
  function FirstKorean(voices: seq<Voice>): (r: Option<nat>)
    ensures r.Some? ==> r.value < |voices| && IsKorean(voices[r.value])
                        && forall j :: 0 <= j < r.value ==> !IsKorean(voices[j])
    ensures r.None? ==> forall j :: 0 <= j < |voices| ==> !IsKorean(voices[j])
  {
    if voices == [] then None
    else if IsKorean(voices[0]) then Some(0)
    else match FirstKorean(voices[1..])
      case Some(i) => Some(i + 1)
      case None => None
  }

  /** The voice `loadVoices` leaves selected: the first Korean voice, else the first voice, else
      the one selected before. */
  function ChosenVoice(voices: seq<Voice>, current: Option<Voice>): (r: Option<Voice>)
    ensures (exists j :: 0 <= j < |voices| && IsKorean(voices[j])) ==>
              r.Some? && IsKorean(r.value)
              && (exists j :: 0 <= j < |voices| && voices[j] == r.value && forall i :: 0 <= i < j ==> !IsKorean(voices[i]))
    ensures (forall j :: 0 <= j < |voices| ==> !IsKorean(voices[j])) && voices != [] ==> r == Some(voices[0])
    ensures voices == [] ==> r == current
  {
    match FirstKorean(voices)
    case Some(i) => Some(voices[i])
    case None => if voices != [] then Some(voices[0]) else current
  }

  // ---------------------------------------------------------------- speaking

  datatype Utterance = Utterance(text: string, voice: Option<Voice>, rate: real, pitch: real, volume: real, lang: string)

  /** The `options` argument of `speak`; a missing key is None. */
  datatype SpeakOptions = SpeakOptions(voice: Option<Voice>, rate: Option<real>, pitch: Option<real>, volume: Option<real>, language: Option<string>)

  /** `option || fallback` for a number: 0 is falsy, so it also yields the fallback. */
  function OrNumber(option: Option<real>, fallback: real): real
  {
    if option.Some? && option.value != 0.0 then option.value else fallback
  }

  /** `option || fallback` for a string: the empty string is falsy. */
  function OrText(option: Option<string>, fallback: string): string
  {
    if option.Some? && option.value != "" then option.value else fallback
  }

  /** The utterance `speak` builds: each option when given and truthy, else the setting. */
  function UtteranceFor(text: string, o: SpeakOptions, s: Settings, current: Option<Voice>): (u: Utterance)
    ensures u.text == text
    ensures u.voice == if o.voice.Some? then o.voice else current
    ensures o == SpeakOptions(None, None, None, None, None) ==>
              (u.rate, u.pitch, u.volume, u.lang) == (s.rate, s.pitch, s.volume, s.language)
    ensures o.volume == Some(0.0) ==> u.volume == s.volume
    ensures o.rate.Some? && o.rate.value != 0.0 ==> u.rate == o.rate.value
  {
    Utterance(text, if o.voice.Some? then o.voice else current, OrNumber(o.rate, s.rate),
              OrNumber(o.pitch, s.pitch), OrNumber(o.volume, s.volume), OrText(o.language, s.language))
  }

  datatype SpeakOutcome = Threw(message: string) | Skipped | Spoke(utterance: Utterance)

  /** The message the utterance's `onerror` handler passes on for an error code. */
  function ErrorMessage(code: string): (r: string)
    ensures r == C.UNKNOWN_ERROR <==> code !in {"not-allowed", "audio-busy", "audio-hardware", "network", "synthesis-unavailable"}
    ensures r == C.NETWORK_ERROR <==> code == "network"
  {
    match code
    case "not-allowed" => "음성 출력이 허용되지 않습니다."
    case "audio-busy" => "오디오 장치가 사용 중입니다."
    case "audio-hardware" => "오디오 하드웨어 문제가 발생했습니다."
    case "network" => C.NETWORK_ERROR
    case "synthesis-unavailable" => "음성 합성을 사용할 수 없습니다."
    case _ => C.UNKNOWN_ERROR
  }

  datatype Callbacks = Callbacks(onStart: Option<nat>, onEnd: Option<nat>, onError: Option<nat>, onPause: Option<nat>, onResume: Option<nat>)

  const NoCallbacks: Callbacks := Callbacks(None, None, None, None, None)

  /** The keys present in an object passed to `setCallbacks`; a present key may hold null. */
  datatype CallbacksPatch = CallbacksPatch(onStart: Option<Option<nat>>, onEnd: Option<Option<nat>>, onError: Option<Option<nat>>,
                                           onPause: Option<Option<nat>>, onResume: Option<Option<nat>>)

  function MergeCallbacks(c: Callbacks, p: CallbacksPatch): Callbacks
  {
    Callbacks(Override(c.onStart, p.onStart), Override(c.onEnd, p.onEnd), Override(c.onError, p.onError),
              Override(c.onPause, p.onPause), Override(c.onResume, p.onResume))
  }

  /** A call of a registered callback with its argument. */
  datatype Invocation = Invocation(callback: nat, argument: string)

  /** `if (callback) callback(argument)`. */
  function Notify(callback: Option<nat>, argument: string): Option<Invocation>
  {
    if callback.Some? then Some(Invocation(callback.value, argument)) else None
  }

  class TextToSpeech {
    var isSupported: bool
    var isSpeaking: bool
    var voices: seq<Voice>
    var currentVoice: Option<Voice>
    var settings: Settings
    var callbacks: Callbacks
    /** The utterances handed to the synthesis and not yet finished, the one speaking first. */
    var queue: seq<Utterance>

    /** `isSpeaking` is only set while the synthesis holds an utterance, and only a supported
        synthesis ever holds one. */
    ghost predicate Valid()
      reads this`isSupported, this`isSpeaking, this`queue
    {
      (isSpeaking ==> queue != []) && (!isSupported ==> queue == [])
    }

    /** Support is the presence of `speechSynthesis`; the voices the browser lists are loaded
        at once when supported. */
    constructor (supported: bool, available: seq<Voice>)
      ensures Valid()
      ensures isSupported == supported && !isSpeaking && queue == []
      ensures settings == DefaultSettings && callbacks == NoCallbacks
      ensures supported ==> voices == available && currentVoice == ChosenVoice(available, None)
      ensures !supported ==> voices == [] && currentVoice.None?
    {
      isSupported := supported;
      isSpeaking := false;
      voices := [];
      currentVoice := None;
      settings := DefaultSettings;
      callbacks := NoCallbacks;
      queue := [];
      new;
      if supported {
        LoadVoices(available);
      }
    }

    /** `loadVoices`, also run on every `voiceschanged` event. */
    method LoadVoices(available: seq<Voice>)
      modifies this`voices, this`currentVoice
      ensures voices == available && currentVoice == ChosenVoice(available, old(currentVoice))
    {
      voices := available;
      var korean := FirstKorean(voices);
      if korean.Some? {
        currentVoice := Some(voices[korean.value]);
      } else if |voices| > 0 {
        currentVoice := Some(voices[0]);
      }
    }

    /** `splitTextIntoChunks`: the sentence loop, proved to compute `ChunkText`. */
    method SplitTextIntoChunks(text: string, chunkSize: int) returns (chunks: seq<string>)
      ensures chunks == ChunkText(text, chunkSize)
    {
      var sentences := SplitSentences(text);
      chunks := [];
      var current := "";
      ghost var g := Grouping([], []);
      var i := 0;
      while i < |sentences|
        invariant i <= |sentences|
        invariant g == Fold(sentences[..i], chunkSize)
        invariant chunks == Joined(g.done) && current == Join(g.open, Sep)
        invariant current == "" <==> g.open == []
      {
        var trimmed := Trim(sentences[i]);
        assert sentences[..i + 1][..i] == sentences[..i];
        if trimmed != "" {
          if |current| + |trimmed| <= chunkSize {
            if current != "" {
              JoinSnoc(g.open, trimmed, Sep);
            }
            current := current + (if current != "" then Sep else "") + trimmed;
          } else {
            if current != "" {
              assert Joined(g.done + [g.open]) == Joined(g.done) + [current];
              chunks := chunks + [current];
            }
            current := trimmed;
          }
        }
        g := Step(g, trimmed, chunkSize);
        i := i + 1;
      }
      assert sentences[..i] == sentences;
      if current != "" {
        assert Joined(g.done + [g.open]) == Joined(g.done) + [current];
        chunks := chunks + [current];
      }
    }

    /** `setVoice`: an index outside the voice list is ignored. */
    method SetVoice(index: int)
      modifies this`currentVoice
      ensures 0 <= index < |voices| ==> currentVoice == Some(voices[index])
      ensures !(0 <= index < |voices|) ==> currentVoice == old(currentVoice)
    {
      if 0 <= index < |voices| {
        currentVoice := Some(voices[index]);
      }
    }

    method UpdateSettings(patch: SettingsPatch)
      modifies this`settings
      ensures settings == MergeSettings(old(settings), patch)
    {
      settings := MergeSettings(settings, patch);
    }

    method SetRate(rate: real)
      modifies this`settings
      ensures settings == old(settings).(rate := Clamp(0.1, 10.0, rate))
    {
      settings := settings.(rate := Clamp(0.1, 10.0, rate));
    }

    method SetPitch(pitch: real)
      modifies this`settings
      ensures settings == old(settings).(pitch := Clamp(0.0, 2.0, pitch))
    {
      settings := settings.(pitch := Clamp(0.0, 2.0, pitch));
    }

    method SetVolume(volume: real)
      modifies this`settings
      ensures settings == old(settings).(volume := Clamp(0.0, 1.0, volume))
    {
      settings := settings.(volume := Clamp(0.0, 1.0, volume));
    }

    method SetCallbacks(patch: CallbacksPatch)
      modifies this`callbacks
      ensures callbacks == MergeCallbacks(old(callbacks), patch)
    {
      callbacks := MergeCallbacks(callbacks, patch);
    }

    /** `stop`: cancels the synthesis only while it is speaking. Without support `synthesis` is
        undefined, so reading its `speaking` flag throws and nothing changes. */
    method Stop() returns (threw: bool)
      requires Valid()
      modifies this`isSpeaking, this`queue
      ensures Valid()
      ensures threw <==> !isSupported
      ensures threw ==> queue == old(queue) && isSpeaking == old(isSpeaking)
      ensures !threw ==> queue == [] && !isSpeaking
    {
      if !isSupported {
        return true;
      }
      threw := false;
      if queue != [] {
        queue := [];
        isSpeaking := false;
      }
    }

    /** `speak(text, options)`: throws when unsupported, ignores a missing or blank text, and
        otherwise cancels what is being spoken and queues one utterance. */
    method Speak(text: Option<string>, options: SpeakOptions) returns (outcome: SpeakOutcome)
      requires Valid()
      modifies this`isSpeaking, this`queue
      ensures Valid()
      ensures !isSupported ==> outcome == Threw(C.TTS_NOT_SUPPORTED)
      ensures isSupported && (text.None? || Trim(text.value) == "") ==> outcome == Skipped
      ensures outcome.Threw? || outcome.Skipped? ==> queue == old(queue) && isSpeaking == old(isSpeaking)
      ensures isSupported && text.Some? && Trim(text.value) != "" ==>
                outcome == Spoke(UtteranceFor(text.value, options, settings, currentVoice))
                && queue == [outcome.utterance] && !isSpeaking
    {
      if !isSupported {
        return Threw(C.TTS_NOT_SUPPORTED);
      }
      if text.None? || Trim(text.value) == "" {
        return Skipped;
      }
      var _ := Stop();
      var u := UtteranceFor(text.value, options, settings, currentVoice);
      queue := queue + [u];
      outcome := Spoke(u);
    }

    /** The head utterance's `onstart`. */
    method OnUtteranceStart() returns (call: Option<Invocation>)
      requires Valid() && queue != []
      modifies this`isSpeaking
      ensures Valid() && isSpeaking
      ensures call == Notify(callbacks.onStart, queue[0].text)
    {
      isSpeaking := true;
      call := Notify(callbacks.onStart, queue[0].text);
    }

    /** The head utterance's `onend`: it leaves the queue. */
    method OnUtteranceEnd() returns (call: Option<Invocation>)
      requires Valid() && queue != []
      modifies this`isSpeaking, this`queue
      ensures Valid() && !isSpeaking && queue == old(queue)[1..]
      ensures call == Notify(callbacks.onEnd, old(queue)[0].text)
    {
      call := Notify(callbacks.onEnd, queue[0].text);
      isSpeaking := false;
      queue := queue[1..];
    }

    /** The head utterance's `onerror`: it leaves the queue and the mapped message is reported. */
    method OnUtteranceError(code: string) returns (call: Option<Invocation>)
      requires Valid() && queue != []
      modifies this`isSpeaking, this`queue
      ensures Valid() && !isSpeaking && queue == old(queue)[1..]
      ensures call == Notify(callbacks.onError, ErrorMessage(code))
    {
      isSpeaking := false;
      queue := queue[1..];
      call := Notify(callbacks.onError, ErrorMessage(code));
    }

    /** `destroy`: stops speaking and forgets all five callbacks; without support the `stop`
        throws first and the callbacks stay. */
    method Destroy() returns (threw: bool)
      requires Valid()
      modifies this`isSpeaking, this`queue, this`callbacks
      ensures Valid()
      ensures threw <==> !isSupported
      ensures threw ==> queue == old(queue) && isSpeaking == old(isSpeaking) && callbacks == old(callbacks)
      ensures !threw ==> queue == [] && !isSpeaking && callbacks == NoCallbacks
    {
      threw := Stop();
      if threw {
        return;
      }
      callbacks := NoCallbacks;
    }
  }
}
