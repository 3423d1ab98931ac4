/** src/js/utils/dom.js: the audio helpers `AudioUtils`, the canned replies of
    `ResponseHandler`, and `SimpleChatbot`, which records every input and answers from keywords.
    `Math.random()` and the clock are parameters. */
module DomUtils {
  import opened Text
  import opened AudioMath

  // ---------------------------------------------------------------- AudioUtils

  /** `analyzeAudioLevel`: the summing loop, then `sum / length`, which is NaN for no data. */
  method AnalyzeAudioLevel(data: seq<int>) returns (level: Number)
    ensures data == [] ==> level == NaN
    ensures data != [] ==> level == Finite(Mean(data))
    ensures data != [] && InByteRange(data) ==> 0.0 <= level.value <= 255.0
  {
    var sum := 0;
    var i := 0;
    while i < |data|
      invariant i <= |data| && sum == Sum(data[..i])
    {
      SumSnoc(data[..i], data[i]);
      assert data[..i + 1] == data[..i] + [data[i]];
      sum := sum + data[i];
      i := i + 1;
    }
    assert data[..i] == data;
    if data != [] && InByteRange(data) {
      MeanOfBytes(data);
    }
    level := Divide(sum as real, |data| as real);
  }

  const DefaultMin: real := 0.0
  const DefaultMax: real := 255.0

  /** `normalizeAudioData(data, min, max)`: every value mapped by `(v - min) / (max - min)`. */
  function Normalize(data: seq<int>, min: real, max: real): (r: seq<Number>)
    ensures |r| == |data|
  {
    seq(|data|, i requires 0 <= i < |data| => Divide(data[i] as real - min, max - min))
  }

  /** The inverse map `v * (max - min) + min` of a normalized, finite sequence. */
  function Denormalize(values: seq<Number>, min: real, max: real): (r: seq<real>)
    requires forall i :: 0 <= i < |values| ==> values[i].Finite?
    ensures |r| == |values|
  {
    seq(|values|, i requires 0 <= i < |values| => values[i].value * (max - min) + min)
  }

  function AsReals(data: seq<int>): (r: seq<real>)
    ensures |r| == |data| && forall i :: 0 <= i < |data| ==> r[i] == data[i] as real
  {
    seq(|data|, i requires 0 <= i < |data| => data[i] as real)
  }

  /** With distinct bounds, normalizing loses nothing: every value is finite and the inverse map
      gives the data back. */
  lemma NormalizeRoundTrip(data: seq<int>, min: real, max: real)
    requires min != max
    ensures forall i :: 0 <= i < |data| ==> Normalize(data, min, max)[i].Finite?
    ensures Denormalize(Normalize(data, min, max), min, max) == AsReals(data)
  {
    var r := Normalize(data, min, max);
    forall i | 0 <= i < |data|
      ensures r[i].Finite? && r[i].value * (max - min) + min == data[i] as real
    {
      assert r[i] == Divide(data[i] as real - min, max - min);
    }
    assert forall i :: 0 <= i < |data| ==> Denormalize(r, min, max)[i] == AsReals(data)[i];
  }

  /** Values inside `[min, max]` land in `[0, 1]`, `min` itself on 0 and `max` on 1; with the
      defaults, bytes do. */
  lemma NormalizeUnitRange(data: seq<int>, min: real, max: real)
    requires min < max
    ensures forall i :: 0 <= i < |data| && min <= data[i] as real <= max ==>
              0.0 <= Normalize(data, min, max)[i].value <= 1.0
    ensures forall i :: 0 <= i < |data| && data[i] as real == min ==> Normalize(data, min, max)[i] == Finite(0.0)
    ensures forall i :: 0 <= i < |data| && data[i] as real == max ==> Normalize(data, min, max)[i] == Finite(1.0)
  {
    var r := Normalize(data, min, max);
    forall i | 0 <= i < |data|
      ensures min <= data[i] as real <= max ==> 0.0 <= r[i].value <= 1.0
      ensures data[i] as real == min ==> r[i] == Finite(0.0)
      ensures data[i] as real == max ==> r[i] == Finite(1.0)
    {
      assert r[i] == Divide(data[i] as real - min, max - min);
      UnitQuotient(data[i] as real, min, max);
    }
  }

  /** One value normalized against `min < max`. */
  lemma UnitQuotient(v: real, min: real, max: real)
    requires min < max
    ensures min <= v <= max ==> 0.0 <= Divide(v - min, max - min).value <= 1.0
    ensures v == min ==> Divide(v - min, max - min) == Finite(0.0)
    ensures v == max ==> Divide(v - min, max - min) == Finite(1.0)
  {
    var q := (v - min) / (max - min);
    assert q * (max - min) == v - min;
  }

  /** With equal bounds no value is finite: values above the bound become Infinity, below it
      -Infinity, and the bound itself NaN. */
  lemma NormalizeEqualBounds(data: seq<int>, bound: real)
    ensures forall i :: 0 <= i < |data| ==> !Normalize(data, bound, bound)[i].Finite?
    ensures forall i :: 0 <= i < |data| && data[i] as real == bound ==> Normalize(data, bound, bound)[i] == NaN
  {
  }

  const SilenceThreshold: real := 30.0

  /** `detectSilence(data, threshold)`: the level is below the threshold. An empty array has a
      NaN level, and NaN is below nothing, so it is never silence. */
  method DetectSilence(data: seq<int>, threshold: real) returns (silent: bool)
    ensures silent <==> data != [] && Mean(data) < threshold
  {
    var average := AnalyzeAudioLevel(data);
    silent := Below(average, threshold);
  }

  // ---------------------------------------------------------------- ResponseHandler

  const GreetingReplies: seq<string> := [
    "안녕하세요! 무엇을 도와드릴까요?",
    "반갑습니다! 어떤 이야기를 나눠볼까요?",
    "안녕하세요! 오늘 기분이 어떠신가요?"]

  const DefaultReplies: seq<string> := [
    "흥미로운 말씀이네요!",
    "더 자세히 설명해주시겠어요?",
    "그렇군요. 어떤 도움이 필요하신가요?",
    "좋은 질문이네요!"]

  /** The response table the constructor builds; it is never changed afterwards. */
  const Responses: map<string, seq<string>> := map["greetings" := GreetingReplies, "default" := DefaultReplies]

  /** The list `getRandomResponse` draws from: the category's own, or the default one for a
      category the table lacks. */
  function RepliesFor(category: string): (r: seq<string>)
    ensures |r| > 0
    ensures category in Responses ==> r == Responses[category]
    ensures category !in Responses ==> r == DefaultReplies
  {
    if category in Responses then Responses[category] else DefaultReplies
  }

  /** `getRandomResponse(category)` with `rand` the value of `Math.random()`. */
  function GetRandomResponse(category: string, rand: real): (r: string)
    requires 0.0 <= rand < 1.0
    ensures r in RepliesFor(category)
    ensures category !in Responses ==> r in DefaultReplies
  {
    RepliesFor(category)[RandomIndex(rand, |RepliesFor(category)|)]
  }

  const GreetingKeywords: seq<string> := ["안녕", "하이", "헬로", "처음", "반가"]

  /** `analyzeInput`: 'greetings' exactly when some greeting keyword occurs in the input. */
  function AnalyzeInput(input: string): (r: string)
    ensures r == "greetings" <==> exists k :: 0 <= k < |GreetingKeywords| && Contains(input, GreetingKeywords[k])
    ensures r == "greetings" || r == "default"
  {
    if SomeContained(input, GreetingKeywords) then "greetings" else "default"
  }

  /** Every category `analyzeInput` produces has its own reply list. */
  lemma AnalyzedCategoryKnown(input: string, rand: real)
    requires 0.0 <= rand < 1.0
    ensures AnalyzeInput(input) in Responses
    ensures GetRandomResponse(AnalyzeInput(input), rand) in Responses[AnalyzeInput(input)]
  {
  }

  // ---------------------------------------------------------------- SimpleChatbot

  /** One `context` entry: the input and the time it arrived. */
  datatype ContextEntry = ContextEntry(user: string, timestamp: string)

  const NameReply: string := "저는 AI 챗봇입니다. 봇이라고 불러주세요!"

  class SimpleChatbot {
    var context: seq<ContextEntry>

    constructor ()
      ensures context == []
    {
      context := [];
    }

    /** `generateResponse`: records the input, then answers by the first of the keywords
        이름 (name), 시간 (time) and 날짜 (date) that occurs, else with a reply of the input's
        category. `now` is the timestamp stored and `timeText`/`dateText` are the locale
        renderings of the clock. */
    method GenerateResponse(userInput: string, rand: real, now: string, timeText: string, dateText: string)
      returns (reply: string)
      requires 0.0 <= rand < 1.0
      modifies this`context
      ensures context == old(context) + [ContextEntry(userInput, now)]
      ensures Contains(userInput, "이름") ==> reply == NameReply
      ensures !Contains(userInput, "이름") && Contains(userInput, "시간") ==> reply == "현재 시간은 " + timeText + "입니다."
      ensures !Contains(userInput, "이름") && !Contains(userInput, "시간") && Contains(userInput, "날짜") ==>
                reply == "오늘은 " + dateText + "입니다."
      ensures !Contains(userInput, "이름") && !Contains(userInput, "시간") && !Contains(userInput, "날짜") ==>
                reply == GetRandomResponse(AnalyzeInput(userInput), rand)
    {
      var category := AnalyzeInput(userInput);
      context := context + [ContextEntry(userInput, now)];
      if Contains(userInput, "이름") {
        return NameReply;
      }
      if Contains(userInput, "시간") {
        return "현재 시간은 " + timeText + "입니다.";
      }
      if Contains(userInput, "날짜") {
        return "오늘은 " + dateText + "입니다.";
      }
      reply := GetRandomResponse(category, rand);
    }
  }
}
