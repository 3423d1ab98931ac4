/** src/js/main.js: the parts of `ChatbotApp` that decide something: the business context and
    the emotion of a message, the keyword reply, where a character state goes, the text box, and
    the speech toggle. `Math.random()`, the clock and `preprocessText` are parameters. */
module ChatbotApp {
  import opened Wrappers
  import opened Text
  import opened AudioMath
  import C = Constants
  import Tts

  // ---------------------------------------------------------------- analyzeBusinessContext

  /** The record `analyzeBusinessContext` returns. */
  datatype BusinessContext = BusinessContext(priority: string, category: string, tone: string)

  const DefaultContext: BusinessContext := BusinessContext("normal", "general", "professional")

  const UrgentWords: seq<string> := ["급해", "긴급", "빨리", "즉시", "오늘"]

  /** The keyword table, in the order of its declaration, which is the order `Object.entries`
      visits it. */
  const BusinessKeywords: seq<(string, seq<string>)> := [
    ("urgent", UrgentWords),
    ("meeting", ["회의", "미팅", "회의실", "참석자", "안건"]),
    ("financial", ["매출", "수익", "비용", "예산", "투자", "재무"]),
    ("strategy", ["전략", "계획", "목표", "방향", "비전"]),
    ("customer", ["고객", "클라이언트", "사용자", "만족도"]),
    ("team", ["팀", "직원", "인사", "조직", "리더십"]),
    ("marketing", ["마케팅", "광고", "홍보", "브랜드", "캠페인"]),
    ("data", ["데이터", "분석", "통계", "지표", "성과"])]

  /** The index of the first category with a keyword in `message`, or `|table|` when none has. */
  function FirstCategory(message: string, table: seq<(string, seq<string>)>): (k: nat)
    ensures k <= |table|
    ensures k < |table| ==> SomeContained(message, table[k].1)
    ensures forall j :: 0 <= j < k ==> !SomeContained(message, table[j].1)
  {
    if table == [] then 0
    else if SomeContained(message, table[0].1) then 0
    else
      var k := FirstCategory(message, table[1..]);
      assert forall j :: 1 <= j < k + 1 ==> table[j] == table[1..][j - 1];
      k + 1
  }

  /** The category `analyzeBusinessContext` settles on. */
  function CategoryOf(message: string): string
  {
    var k := FirstCategory(message, BusinessKeywords);
    if k < |BusinessKeywords| then BusinessKeywords[k].0 else "general"
  }

  /** `analyzeBusinessContext(userMessage)`: an urgent keyword raises the priority to high and the
      tone to focused; the category is that of the first table entry with a keyword in the
      message, 'general' when there is none. */
  method AnalyzeBusinessContext(message: string) returns (context: BusinessContext)
    ensures context.priority == (if SomeContained(message, UrgentWords) then "high" else "normal")
    ensures context.tone == (if SomeContained(message, UrgentWords) then "focused" else "professional")
    ensures context.category == CategoryOf(message)
    ensures SomeContained(message, UrgentWords) ==> context == BusinessContext("high", "urgent", "focused")
    ensures !SomeContained(message, UrgentWords) ==> context.priority == "normal" && context.tone == "professional"
    ensures (forall j :: 0 <= j < |BusinessKeywords| ==> !SomeContained(message, BusinessKeywords[j].1)) ==>
              context == DefaultContext
  {
    context := DefaultContext;
    var urgent := SomeContained(message, UrgentWords);
    if urgent {
      context := context.(priority := "high", tone := "focused");
    }
    var i := 0;
    while i < |BusinessKeywords|
      invariant i <= |BusinessKeywords|
      invariant forall j :: 0 <= j < i ==> !SomeContained(message, BusinessKeywords[j].1)
      invariant context == (if urgent then BusinessContext("high", "general", "focused") else DefaultContext)
    {
      if SomeContained(message, BusinessKeywords[i].1) {
        context := context.(category := BusinessKeywords[i].0);
        FirstCategoryIs(message, BusinessKeywords, i);
        return;
      }
      i := i + 1;
    }
    FirstCategoryIs(message, BusinessKeywords, i);
  }

  /** The first category is the only index that matches with no match before it. */
  lemma FirstCategoryIs(message: string, table: seq<(string, seq<string>)>, i: nat)
    requires i <= |table|
    requires i < |table| ==> SomeContained(message, table[i].1)
    requires forall j :: 0 <= j < i ==> !SomeContained(message, table[j].1)
    ensures FirstCategory(message, table) == i
  {
  }

  // ---------------------------------------------------------------- analyzeEmotion

  const HappyWords: seq<string> := ["기쁘", "좋", "행복", "웃", "재미"]
  const SadWords: seq<string> := ["슬프", "우울", "속상", "힘들"]
  const ExcitedWords: seq<string> := ["와!", "대단", "놀라", "신나"]

  /** `analyzeEmotion(text)`: happy words win over sad ones and sad ones over excited ones; a text
      with none of them is merely talking. The answer is always a character state. */
  function AnalyzeEmotion(text: string): (r: string)
    ensures r in C.CharacterStates
    ensures r == C.HAPPY <==> exists i :: 0 <= i < |HappyWords| && Contains(text, HappyWords[i])
    ensures r == C.SAD <==> !SomeContained(text, HappyWords) && exists i :: 0 <= i < |SadWords| && Contains(text, SadWords[i])
    ensures r == C.EXCITED <==>
              !SomeContained(text, HappyWords) && !SomeContained(text, SadWords) && SomeContained(text, ExcitedWords)
    ensures r == C.TALKING <==>
              !SomeContained(text, HappyWords) && !SomeContained(text, SadWords) && !SomeContained(text, ExcitedWords)
  {
    if SomeContained(text, HappyWords) then C.HAPPY
    else if SomeContained(text, SadWords) then C.SAD
    else if SomeContained(text, ExcitedWords) then C.EXCITED
    else C.TALKING
  }

  /** A text with a happy word is happy whatever sad or excited words it also holds. */
  lemma HappyWins(text: string, i: nat)
    requires i < |HappyWords| && Contains(text, HappyWords[i])
    ensures AnalyzeEmotion(text) == C.HAPPY
  {
  }

  // ---------------------------------------------------------------- generateBotResponse

  /** The keyword replies, in the order of their declaration. */
  const BusinessReplies: seq<(string, string)> := [
    ("안녕", "안녕하세요! 저는 전문 비즈니스 AI 어시스턴트입니다. 어떤 업무를 도와드릴까요?"),
    ("회의", "회의 관련해서 도움이 필요하시군요. 회의 일정 조율, 안건 정리, 또는 회의록 작성 중 어떤 것을 도와드릴까요?"),
    ("프레젠테이션", "프레젠테이션 준비를 도와드리겠습니다. 구조 설계, 콘텐츠 정리, 또는 발표 기법 중 무엇이 필요하신가요?"),
    ("계획", "비즈니스 계획 수립을 도와드리겠습니다. 전략 기획, 일정 관리, 목표 설정 중 어떤 부분을 중점적으로 다뤄볼까요?"),
    ("분석", "데이터 분석이나 비즈니스 분석이 필요하시군요. 어떤 종류의 분석을 원하시는지 자세히 알려주세요."),
    ("매출", "매출 관련 문의이시군요. 매출 분석, 증대 방안, 또는 예측 중 어떤 것을 도와드릴까요?"),
    ("고객", "고객 관리는 비즈니스의 핵심입니다. 고객 서비스, 관계 관리, 또는 만족도 향상 중 어떤 영역을 다뤄볼까요?"),
    ("마케팅", "마케팅 전략 수립을 도와드리겠습니다. 디지털 마케팅, 브랜딩, 또는 캠페인 기획 중 관심 있는 분야가 있으신가요?"),
    ("재무", "재무 관리는 매우 중요한 영역입니다. 예산 계획, 투자 분석, 또는 비용 최적화 중 어떤 것을 우선적으로 다뤄볼까요?"),
    ("팀", "팀 관리와 리더십에 대해 이야기해보겠습니다. 팀 빌딩, 성과 관리, 또는 커뮤니케이션 개선 중 어떤 것이 필요하신가요?")]

  const DefaultBusinessReplies: seq<string> := [
    "비즈니스 관점에서 더 구체적으로 설명해주시면, 더 정확한 조언을 드릴 수 있습니다.",
    "해당 이슈에 대해 체계적으로 접근해보겠습니다. 추가 정보가 필요하신가요?",
    "전문적인 관점에서 분석해드리겠습니다. 어떤 부분을 중점적으로 다뤄볼까요?",
    "비즈니스 목표 달성을 위해 단계별로 접근해보는 것이 좋겠습니다.",
    "데이터 기반의 의사결정을 위해 더 자세한 정보를 공유해주시겠어요?"]

  /** The index of the first keyword of `table` that occurs in `message`, or `|table|`. */
  function FirstKeyword(message: string, table: seq<(string, string)>): (k: nat)
    ensures k <= |table|
    ensures k < |table| ==> Contains(message, table[k].0)
    ensures forall j :: 0 <= j < k ==> !Contains(message, table[j].0)
  {
    if table == [] then 0
    else if Contains(message, table[0].0) then 0
    else
      var k := FirstKeyword(message, table[1..]);
      assert forall j :: 1 <= j < k + 1 ==> table[j] == table[1..][j - 1];
      k + 1
  }

  /** `generateBotResponse(userMessage)` after its one-second pause: the reply of the first
      keyword in the message, else the default reply `rand` (the value of `Math.random()`)
      picks. */
  method GenerateBotResponse(message: string, rand: real) returns (reply: string)
    requires 0.0 <= rand < 1.0
    ensures FirstKeyword(message, BusinessReplies) < |BusinessReplies| ==>
              reply == BusinessReplies[FirstKeyword(message, BusinessReplies)].1
    ensures FirstKeyword(message, BusinessReplies) == |BusinessReplies| ==>
              reply == DefaultBusinessReplies[RandomIndex(rand, |DefaultBusinessReplies|)]
    ensures (forall j :: 0 <= j < |BusinessReplies| ==> !Contains(message, BusinessReplies[j].0)) ==>
              reply in DefaultBusinessReplies
  {
    var i := 0;
    while i < |BusinessReplies|
      invariant i <= |BusinessReplies|
      invariant forall j :: 0 <= j < i ==> !Contains(message, BusinessReplies[j].0)
    {
      if Contains(message, BusinessReplies[i].0) {
        FirstKeywordIs(message, BusinessReplies, i);
        return BusinessReplies[i].1;
      }
      i := i + 1;
    }
    FirstKeywordIs(message, BusinessReplies, i);
    reply := DefaultBusinessReplies[RandomIndex(rand, |DefaultBusinessReplies|)];
  }

  /** The first keyword is the only index that occurs with none occurring before it. */
  lemma FirstKeywordIs(message: string, table: seq<(string, string)>, i: nat)
    requires i <= |table|
    requires i < |table| ==> Contains(message, table[i].0)
    requires forall j :: 0 <= j < i ==> !Contains(message, table[j].0)
    ensures FirstKeyword(message, table) == i
  {
  }

  // ---------------------------------------------------------------- ChatbotApp

  /** One entry of `chatMessages`: its text, its message type and its ISO timestamp. */
  datatype Message = Message(text: string, kind: string, timestamp: string)

  /** `chatMessages.filter(msg => msg.type === BOT).pop()`. */
  function LastBotMessage(messages: seq<Message>): Option<Message>
  {
    if messages == [] then None
    else if messages[|messages| - 1].kind == C.BOT_MESSAGE then Some(messages[|messages| - 1])
    else LastBotMessage(messages[..|messages| - 1])
  }

  /** The message found is the bot message with no bot message after it, and there is none
      exactly when no message is the bot's. */
  lemma {:induction false} LastBotMessageSpec(messages: seq<Message>)
    ensures LastBotMessage(messages).None? <==> forall i :: 0 <= i < |messages| ==> messages[i].kind != C.BOT_MESSAGE
    ensures LastBotMessage(messages).Some? ==>
              exists i :: 0 <= i < |messages| && messages[i] == LastBotMessage(messages).value
                && messages[i].kind == C.BOT_MESSAGE
                && forall j :: i < j < |messages| ==> messages[j].kind != C.BOT_MESSAGE
  {
    if messages != [] {
      var n := |messages| - 1;
      if messages[n].kind != C.BOT_MESSAGE {
        var front := messages[..n];
        LastBotMessageSpec(front);
        assert LastBotMessage(messages) == LastBotMessage(front);
        assert forall i :: 0 <= i < |front| ==> front[i] == messages[i];
        if LastBotMessage(front).Some? {
          var i :| 0 <= i < |front| && front[i] == LastBotMessage(front).value && front[i].kind == C.BOT_MESSAGE
                   && forall j :: i < j < |front| ==> front[j].kind != C.BOT_MESSAGE;
          assert messages[i] == LastBotMessage(messages).value;
        }
      }
    }
  }

  /** Where `setCharacterState` sends a state. */
  datatype Route = To3D(state: string) | To2D(state: string) | NoCharacter

  /** What `toggleSpeech` did. `NoSpeech` is the TypeError of reading `isSpeaking` before the
      speech output exists. */
  datatype Toggle = NoSpeech | Stopped | Respoke(outcome: Tts.SpeakOutcome) | Ignored

  const NoOptions: Tts.SpeakOptions := Tts.SpeakOptions(None, None, None, None, None)

  /** What the page offers `init`: the three required elements, the 2D character element, the
      3D container, the Three.js library, and an avatar class for `ThreeScene.createCharacter`. */
  datatype Page = Page(chatMessagesElement: bool, textInputElement: bool, sendButtonElement: bool,
                       characterElement: bool, container3D: bool, threeLoaded: bool, avatarClass: bool)

  /** The first required element, in `initDOMElements`' order, that the page lacks. */
  function MissingRequired(page: Page): (r: Option<string>)
    ensures r.None? <==> page.chatMessagesElement && page.textInputElement && page.sendButtonElement
    ensures r == Some("chatMessages") <==> !page.chatMessagesElement
    ensures r == Some("textInput") <==> page.chatMessagesElement && !page.textInputElement
    ensures r == Some("sendButton") <==> page.chatMessagesElement && page.textInputElement && !page.sendButtonElement
  {
    if !page.chatMessagesElement then Some("chatMessages")
    else if !page.textInputElement then Some("textInput")
    else if !page.sendButtonElement then Some("sendButton")
    else None
  }

  const ERROR_PREFIX: string := "오류: "
  const INIT_FAILED: string := "애플리케이션 초기화에 실패했습니다: "
  const MISSING_ELEMENT: string := "필수 DOM 요소를 찾을 수 없습니다: "

  class ChatbotApp {
    var is3DMode: bool
    /** Whether `character3D` and `character` are set. */
    var has3D: bool
    var has2D: bool
    /** The text box's value. */
    var textInput: string
    /** The texts handed to `handleUserInput`, oldest first. */
    var forwarded: seq<string>
    var chatMessages: seq<Message>
    var tts: Tts.TextToSpeech?

    /** The constructor and the part of `init` that runs before its first `await`: the DOM
        lookup (a missing required element throws), the 2D character (a missing character
        element throws in its constructor, with the engine's TypeError text `characterFault`),
        and the whole of `init3DCharacter`, which awaits nothing. The speech objects come after
        the `await`. `init` catches either throw and reports it through `showError`, whose
        message needs the message list element: without it the catch throws again and only
        the promise of `init` rejects. `now` is the clock's ISO time. */
    constructor (page: Page, now: string, characterFault: string)
      ensures is3DMode <==> MissingRequired(page).Some? || page.container3D
      ensures has2D <==> MissingRequired(page).None? && page.characterElement
      ensures has3D <==> has2D && page.container3D && page.threeLoaded && page.avatarClass
      ensures tts == null
      ensures textInput == "" && forwarded == []
      ensures MissingRequired(page).Some? && page.chatMessagesElement ==>
                chatMessages == [Message(ERROR_PREFIX + INIT_FAILED + MISSING_ELEMENT + MissingRequired(page).value,
                                         C.BOT_MESSAGE, now)]
      ensures MissingRequired(page).None? && !page.characterElement ==>
                chatMessages == [Message(ERROR_PREFIX + INIT_FAILED + characterFault, C.BOT_MESSAGE, now)]
      ensures !page.chatMessagesElement || has2D ==> chatMessages == []
    {
      is3DMode := true;
      has3D := false;
      has2D := false;
      textInput := "";
      forwarded := [];
      chatMessages := [];
      tts := null;
      new;
      var missing := MissingRequired(page);
      if missing.Some? {
        if page.chatMessagesElement {
          ShowError(INIT_FAILED + MISSING_ELEMENT + missing.value, now);
          assert ERROR_PREFIX + (INIT_FAILED + MISSING_ELEMENT + missing.value)
              == ERROR_PREFIX + INIT_FAILED + MISSING_ELEMENT + missing.value;
        }
        return;
      }
      if !page.container3D {
        is3DMode := false;
      }
      if !page.characterElement {
        ShowError(INIT_FAILED + characterFault, now);
        assert ERROR_PREFIX + (INIT_FAILED + characterFault) == ERROR_PREFIX + INIT_FAILED + characterFault;
        return;
      }
      has2D := true;
      // init3DCharacter: no container, no Three.js or no avatar class throws, and its catch
      // only draws the fallback display
      if page.container3D && page.threeLoaded && page.avatarClass {
        has3D := true;
      }
    }

    /** `showError(message)`: a bot message with the error prefix, stamped `now`. */
    method ShowError(message: string, now: string)
      modifies this`chatMessages
      ensures chatMessages == old(chatMessages) + [Message(ERROR_PREFIX + message, C.BOT_MESSAGE, now)]
    {
      AddMessage(ERROR_PREFIX + message, C.BOT_MESSAGE, None, now);
    }

    /** `setCharacterState(state)`: the 3D avatar takes the state in 3D mode when it exists,
        otherwise the 2D character when that exists; with neither the state goes nowhere. */
    method SetCharacterState(state: string) returns (route: Route)
      ensures is3DMode && has3D ==> route == To3D(state)
      ensures !(is3DMode && has3D) && has2D ==> route == To2D(state)
      ensures !(is3DMode && has3D) && !has2D ==> route == NoCharacter
      ensures route.To2D? ==> !is3DMode || !has3D
    {
      if is3DMode && has3D {
        route := To3D(state);
      } else if has2D {
        route := To2D(state);
      } else {
        route := NoCharacter;
      }
    }

    /** `handleTextInput()`: a blank box is left alone; otherwise the box is cleared and the
        trimmed text goes on to `handleUserInput`. */
    method HandleTextInput()
      modifies this`textInput, this`forwarded
      ensures Trim(old(textInput)) == "" ==> textInput == old(textInput) && forwarded == old(forwarded)
      ensures Trim(old(textInput)) != "" ==> textInput == "" && forwarded == old(forwarded) + [Trim(old(textInput))]
    {
      var text := Trim(textInput);
      if text == "" {
        return;
      }
      textInput := "";
      forwarded := forwarded + [text];
    }

    /** `addMessage`'s record of a message: `timestamp` when given and non-empty, else `now`. */
    method AddMessage(text: string, kind: string, timestamp: Option<string>, now: string)
      modifies this`chatMessages
      ensures chatMessages == old(chatMessages) + [Message(text, kind, Tts.OrText(timestamp, now))]
    {
      chatMessages := chatMessages + [Message(text, kind, Tts.OrText(timestamp, now))];
    }

    /** `toggleSpeech()`: stops the speech when speaking; otherwise speaks the last bot message
        again through `speakText`, which needs support and a non-empty text and passes the
        text through `preprocessText` (here `preprocess`) first. */
    method ToggleSpeech(preprocess: string -> string) returns (result: Toggle)
      requires tts != null ==> tts.Valid()
      modifies tts
      ensures tts != null ==> tts.Valid()
      ensures tts != null ==>
                (tts.isSupported == old(tts.isSupported) && tts.voices == old(tts.voices)
                 && tts.currentVoice == old(tts.currentVoice) && tts.settings == old(tts.settings)
                 && tts.callbacks == old(tts.callbacks))
      ensures tts == null ==> result == NoSpeech
      ensures tts != null && old(tts.isSpeaking) ==> result == Stopped && tts.queue == [] && !tts.isSpeaking
      ensures tts != null && !old(tts.isSpeaking) ==>
                var last := LastBotMessage(chatMessages);
                if last.Some? && tts.isSupported && last.value.text != "" then
                  var clean := preprocess(last.value.text);
                  result.Respoke? && result.outcome != Tts.Threw(C.TTS_NOT_SUPPORTED)
                  && (Trim(clean) == "" ==> result.outcome == Tts.Skipped && tts.queue == old(tts.queue))
                  && (Trim(clean) != "" ==>
                        result.outcome == Tts.Spoke(Tts.UtteranceFor(clean, NoOptions, tts.settings, tts.currentVoice))
                        && tts.queue == [result.outcome.utterance] && !tts.isSpeaking)
                else
                  result == Ignored && tts.queue == old(tts.queue) && tts.isSpeaking == old(tts.isSpeaking)
    {
      if tts == null {
        return NoSpeech;
      }
      if tts.isSpeaking {
        var _ := tts.Stop();
        return Stopped;
      }
      var last := LastBotMessage(chatMessages);
      if last.Some? && tts.isSupported && last.value.text != "" {
        var outcome := tts.Speak(Some(preprocess(last.value.text)), NoOptions);
        return Respoke(outcome);
      }
      result := Ignored;
    }
  }

  /** After a bot message is added, toggling a quiet, supported speech output speaks that
      message (when `preprocess` leaves something to say). */
  method RespeaksNewestBotMessage(app: ChatbotApp, text: string, now: string)
    requires app.tts != null && app.tts.Valid() && !app.tts.isSpeaking && app.tts.isSupported
    requires text != "" && Trim(text) != ""
    modifies app`chatMessages, app.tts
    ensures app.tts.queue == [Tts.UtteranceFor(text, NoOptions, app.tts.settings, app.tts.currentVoice)]
  {
    app.AddMessage(text, C.BOT_MESSAGE, None, now);
    assert LastBotMessage(app.chatMessages) == Some(Message(text, C.BOT_MESSAGE, now));
    var result := app.ToggleSpeech(s => s);
  }
}
