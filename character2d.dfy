/** src/js/character.js: the 2D avatar. Its state is a CSS class on the character element, its
    mouth one of the mouth-shape classes, and its animations `setInterval` timers whose handles it
    keeps in fields. Timer ids are parameters (the browser hands them out); the callbacks of the
    talking interval and of the `setTimeout`s are methods the caller fires. */
module Character2D {
  import opened Wrappers
  import C = Constants

  // ---------------------------------------------------------------- interval bookkeeping

  /** The intervals still running, and the handles the three fields hold. */
  datatype Timers = Timers(live: set<nat>, talking: Option<nat>, thinking: Option<nat>, visualization: Option<nat>)

  const NoTimers: Timers := Timers({}, None, None, None)

  function Held(h: Option<nat>): set<nat>
  {
    if h.Some? then {h.value} else {}
  }

  /** Every running interval is one a field still holds, so it can still be cleared. */
  predicate Tracked(t: Timers)
  {
    t.live <= Held(t.talking) + Held(t.thinking) + Held(t.visualization)
  }

  /** `this.talkingInterval = setInterval(...)`, overwriting whatever handle was there. */
  function StartTalking(t: Timers, id: nat): Timers
  {
    t.(live := t.live + {id}, talking := Some(id))
  }

  function StartThinking(t: Timers, id: nat): Timers
  {
    t.(live := t.live + {id}, thinking := Some(id))
  }

  function StartVisualization(t: Timers, id: nat): Timers
  {
    t.(live := t.live + {id}, visualization := Some(id))
  }

  /** The interval part of `stopVoiceVisualization`: clears the handle but keeps it. */
  function ClearVisualization(t: Timers): Timers
  {
    t.(live := t.live - Held(t.visualization))
  }

  /** The interval part of `stopAllAnimations`: clears and nulls all three handles. */
  function StopAll(t: Timers): (r: Timers)
    ensures r.talking.None? && r.thinking.None? && r.visualization.None?
    ensures r.live == t.live - Held(t.talking) - Held(t.thinking) - Held(t.visualization)
  {
    Timers(t.live - Held(t.talking) - Held(t.thinking) - Held(t.visualization), None, None, None)
  }

  /** Starting talking twice without `stopAllAnimations` in between loses the first handle, and
      `stopAllAnimations` then leaves that interval running for good. */
  lemma TalkingTwiceLeaks()
    ensures StopAll(StartTalking(StartTalking(NoTimers, 1), 2)).live == {1}
  {
  }

  /** Each start clearing the handle it is about to overwrite. */
  function StartTalkingFixed(t: Timers, id: nat): Timers
  {
    StartTalking(t.(live := t.live - Held(t.talking)), id)
  }

  function StartThinkingFixed(t: Timers, id: nat): Timers
  {
    StartThinking(t.(live := t.live - Held(t.thinking)), id)
  }

  function StartVisualizationFixed(t: Timers, id: nat): Timers
  {
    StartVisualization(t.(live := t.live - Held(t.visualization)), id)
  }

  /** Every timer operation the avatar performs. */
  datatype TimerOp = TalkOp(id: nat) | ThinkOp(id: nat) | VisualizeOp(id: nat) | StopVisualizationOp | StopAllOp

  function StepFixed(t: Timers, op: TimerOp): Timers
  {
    match op
    case TalkOp(id) => StartTalkingFixed(t, id)
    case ThinkOp(id) => StartThinkingFixed(t, id)
    case VisualizeOp(id) => StartVisualizationFixed(t, id)
    case StopVisualizationOp => ClearVisualization(t)
    case StopAllOp => StopAll(t)
  }

  function RunFixed(t: Timers, ops: seq<TimerOp>): Timers
    decreases |ops|
  {
    if ops == [] then t else RunFixed(StepFixed(t, ops[0]), ops[1..])
  }

  /** With the fixed starts every running interval stays reachable from a field, whatever the
      sequence of operations, so `stopAllAnimations` always stops everything. */
  lemma {:induction false} FixedTimersStayTracked(t: Timers, ops: seq<TimerOp>)
    requires Tracked(t)
    ensures Tracked(RunFixed(t, ops))
    ensures StopAll(RunFixed(t, ops)).live == {}
    decreases |ops|
  {
    if ops != [] {
      var next := StepFixed(t, ops[0]);
      assert Tracked(next);
      FixedTimersStayTracked(next, ops[1..]);
    }
  }

  // ---------------------------------------------------------------- mouth shapes

  /** The mouth classes after `setMouthShape(shape)`: every mouth shape removed, then `shape` added. */
  function WithMouthShape(classes: set<string>, shape: string): (r: set<string>)
    ensures shape in r
    ensures forall c :: c in r && c != shape ==> c in classes && c !in C.MouthShapes
    ensures forall c :: c in classes && c !in C.MouthShapes ==> c in r
  {
    (classes - (set s | s in C.MouthShapes)) + {shape}
  }

  /** After `setMouthShape(s)` with a mouth shape `s`, `s` is the only mouth shape present. */
  lemma ExactlyOneMouthShape(classes: set<string>, shape: string)
    requires shape in C.MouthShapes
    ensures forall s :: s in C.MouthShapes && s in WithMouthShape(classes, shape) ==> s == shape
  {
  }

  /** The shape the talking interval shows at its k-th tick (counted from 0): OPEN, CLOSED, ... */
  function TalkingShape(k: nat): string
  {
    [C.OPEN, C.CLOSED][k % 2]
  }

  /** `expressEmotion`: the state an emotion name maps to. */
  function EmotionState(emotion: string): (r: string)
    ensures r in C.CharacterStates
    ensures emotion in {"happy", "sad", "excited", "thinking"} ==> r == emotion
    ensures emotion !in {"happy", "sad", "excited", "thinking"} ==> r == C.IDLE
  {
    match emotion
    case "happy" => C.HAPPY
    case "sad" => C.SAD
    case "excited" => C.EXCITED
    case "thinking" => C.THINKING
    case _ => C.IDLE
  }

  /** The mouth classes, timers, visualisation flag and talking index `handleStateChange` sets. */
  datatype Look = Look(mouth: set<string>, timers: Timers, visualizationActive: bool, talkIndex: nat)

  /** `setMouthShape`, which does nothing without a mouth element. */
  function MouthIf(hasMouth: bool, mouth: set<string>, shape: string): set<string>
  {
    if hasMouth then WithMouthShape(mouth, shape) else mouth
  }

  /** `handleStateChange(state)`: talking restarts the mouth cycle after stopping the voice
      visualisation; listening closes the mouth and shows the visualisation (driven by an interval
      only without an analyser); thinking closes the mouth and starts the bounce; happy smiles;
      idle stops everything and closes the mouth; sad, excited and anything else do nothing. */
  function StateChange(state: string, l: Look, hasMouth: bool, hasAnalyzer: bool, id: nat): Look
  {
    if state == C.TALKING then
      Look(l.mouth, StartTalking(ClearVisualization(l.timers), id), false, 0)
    else if state == C.LISTENING then
      Look(MouthIf(hasMouth, l.mouth, C.CLOSED), if hasAnalyzer then l.timers else StartVisualization(l.timers, id),
           true, l.talkIndex)
    else if state == C.THINKING then
      Look(MouthIf(hasMouth, l.mouth, C.CLOSED), StartThinking(l.timers, id), l.visualizationActive, l.talkIndex)
    else if state == C.HAPPY then
      l.(mouth := MouthIf(hasMouth, l.mouth, C.SMILE))
    else if state == C.IDLE then
      Look(MouthIf(hasMouth, l.mouth, C.CLOSED), StopAll(l.timers), false, l.talkIndex)
    else
      l
  }

  /** Only talking, listening, thinking, happy and idle have an effect. */
  lemma QuietStates(l: Look, hasMouth: bool, hasAnalyzer: bool, id: nat, state: string)
    requires state in C.CharacterStates && state !in {C.TALKING, C.LISTENING, C.THINKING, C.HAPPY, C.IDLE}
    ensures StateChange(state, l, hasMouth, hasAnalyzer, id) == l
    ensures state == C.SAD || state == C.EXCITED
  {
  }

  // ---------------------------------------------------------------- the avatar

  class Character {
    var currentState: string
    /** The character element's class list. */
    var classes: set<string>
    /** The mouth element's class list; `hasMouth` is whether `#characterMouth` exists. */
    var hasMouth: bool
    var mouthClasses: set<string>
    var timers: Timers
    /** The `currentIndex` of the talking interval's callback. */
    var talkIndex: nat
    /** The voice visualisation's `active` class, and whether the element is still in the page. */
    var visualizationActive: bool
    var visualizationAttached: bool
    var hasAnalyzer: bool
    var isAnimating: bool
    /** `setTimeout` callbacks not yet run: the return to idle after a timed state, and the end of
        the click animation. */
    var pendingIdleReturns: nat
    var pendingClickEnds: nat

    /** The constructor's `setState(IDLE)` finds the state already IDLE and returns at once, so
        the element keeps exactly the classes it was created with. */
    constructor (initialClasses: set<string>, mouthPresent: bool, initialMouth: set<string>)
      ensures currentState == C.IDLE && classes == initialClasses
      ensures hasMouth == mouthPresent && mouthClasses == initialMouth
      ensures timers == NoTimers && !visualizationActive && visualizationAttached && !hasAnalyzer
      ensures !isAnimating && pendingIdleReturns == 0 && pendingClickEnds == 0
    {
      currentState := C.IDLE;
      classes := initialClasses;
      hasMouth := mouthPresent;
      mouthClasses := initialMouth;
      timers := NoTimers;
      talkIndex := 0;
      visualizationActive := false;
      visualizationAttached := true;
      hasAnalyzer := false;
      isAnimating := false;
      pendingIdleReturns := 0;
      pendingClickEnds := 0;
    }

    /** Same state: nothing happens. Otherwise swaps the state class, records the state, runs the
        state's effect (which may start an interval with handle `id`), and schedules the return
        to idle when `duration` is non-zero. */
    method SetState(newState: string, duration: nat, id: nat)
      modifies this`currentState, this`classes, this`mouthClasses, this`timers, this`talkIndex
      modifies this`visualizationActive, this`pendingIdleReturns
      ensures old(currentState) == newState ==>
                currentState == old(currentState) && classes == old(classes) && mouthClasses == old(mouthClasses)
                && timers == old(timers) && visualizationActive == old(visualizationActive)
                && pendingIdleReturns == old(pendingIdleReturns)
      ensures old(currentState) != newState ==>
                currentState == newState && classes == old(classes) - {old(currentState)} + {newState}
                && pendingIdleReturns == old(pendingIdleReturns) + (if duration != 0 then 1 else 0)
      ensures old(currentState) != newState ==>
                Looks() == StateChange(newState, old(Looks()), hasMouth, hasAnalyzer, id)
    {
      if currentState == newState {
        return;
      }
      classes := classes - {currentState} + {newState};
      currentState := newState;
      HandleStateChange(newState, id);
      if duration != 0 {
        pendingIdleReturns := pendingIdleReturns + 1;
      }
    }

    /** The part of the avatar `handleStateChange` works on. */
    function Looks(): Look
      reads this
    {
      Look(mouthClasses, timers, visualizationActive, talkIndex)
    }

    method HandleStateChange(state: string, id: nat)
      modifies this`mouthClasses, this`timers, this`talkIndex, this`visualizationActive
      ensures Looks() == StateChange(state, old(Looks()), hasMouth, hasAnalyzer, id)
    {
      if state == C.TALKING {
        StopVoiceVisualization();
        timers := StartTalking(timers, id);
        talkIndex := 0;
      } else if state == C.LISTENING {
        SetMouthShape(C.CLOSED);
        visualizationActive := true;
        if !hasAnalyzer {
          timers := StartVisualization(timers, id);
        }
      } else if state == C.THINKING {
        SetMouthShape(C.CLOSED);
        timers := StartThinking(timers, id);
      } else if state == C.HAPPY {
        SetMouthShape(C.SMILE);
      } else if state == C.IDLE {
        StopAllAnimations();
        SetMouthShape(C.CLOSED);
      }
    }

    /** Removes every mouth shape, one by one, then adds `shape`; nothing without a mouth element. */
    method SetMouthShape(shape: string)
      modifies this`mouthClasses
      ensures hasMouth ==> mouthClasses == WithMouthShape(old(mouthClasses), shape)
      ensures !hasMouth ==> mouthClasses == old(mouthClasses)
    {
      if !hasMouth {
        return;
      }
      for i := 0 to |C.MouthShapes|
        invariant mouthClasses == old(mouthClasses) - set s | s in C.MouthShapes[..i]
      {
        mouthClasses := mouthClasses - {C.MouthShapes[i]};
      }
      mouthClasses := mouthClasses + {shape};
    }

    /** One tick of the talking interval. */
    method TalkingTick()
      requires talkIndex < 2
      modifies this`mouthClasses, this`talkIndex
      ensures hasMouth ==> mouthClasses == WithMouthShape(old(mouthClasses), TalkingShape(old(talkIndex)))
      ensures talkIndex == (old(talkIndex) + 1) % 2
    {
      var mouthStates := [C.OPEN, C.CLOSED];
      SetMouthShape(mouthStates[talkIndex]);
      talkIndex := (talkIndex + 1) % |mouthStates|;
    }

    /** Drops the `active` class and clears (without forgetting) the visualisation interval. */
    method StopVoiceVisualization()
      modifies this`visualizationActive, this`timers
      ensures !visualizationActive && timers == ClearVisualization(old(timers))
    {
      visualizationActive := false;
      timers := ClearVisualization(timers);
    }

    method StopAllAnimations()
      modifies this`visualizationActive, this`timers
      ensures !visualizationActive && timers == StopAll(old(timers))
    {
      var t := timers;
      timers := Timers(t.live - Held(t.talking) - Held(t.thinking) - Held(t.visualization), None, None, None);
      StopVoiceVisualization();
    }

    /** Ignored while a click animation runs; otherwise shows EXCITED for 800 ms. */
    method PlayClickAnimation(id: nat)
      modifies this`currentState, this`classes, this`mouthClasses, this`timers, this`talkIndex
      modifies this`visualizationActive, this`pendingIdleReturns, this`isAnimating, this`pendingClickEnds
      ensures old(isAnimating) ==> currentState == old(currentState) && classes == old(classes)
                                   && pendingClickEnds == old(pendingClickEnds) && isAnimating
                                   && timers == old(timers) && pendingIdleReturns == old(pendingIdleReturns)
      ensures !old(isAnimating) ==> isAnimating && currentState == C.EXCITED
                                    && pendingClickEnds == old(pendingClickEnds) + 1
      ensures !old(isAnimating) && old(currentState) != C.EXCITED ==>
                classes == old(classes) - {old(currentState)} + {C.EXCITED} && timers == old(timers)
                && pendingIdleReturns == old(pendingIdleReturns) + 1
    {
      if isAnimating {
        return;
      }
      isAnimating := true;
      SetState(C.EXCITED, 800, id);
      pendingClickEnds := pendingClickEnds + 1;
    }

    /** The 800 ms timeout of `playClickAnimation`. */
    method ClickEnds()
      requires pendingClickEnds > 0
      modifies this`isAnimating, this`pendingClickEnds
      ensures !isAnimating && pendingClickEnds == old(pendingClickEnds) - 1
    {
      isAnimating := false;
      pendingClickEnds := pendingClickEnds - 1;
    }

    /** The timeout a timed `setState` scheduled: back to IDLE. */
    method IdleReturn(id: nat)
      requires pendingIdleReturns > 0
      modifies this`currentState, this`classes, this`mouthClasses, this`timers, this`talkIndex
      modifies this`visualizationActive, this`pendingIdleReturns
      ensures currentState == C.IDLE
      ensures pendingIdleReturns == old(pendingIdleReturns) - 1
      ensures old(currentState) != C.IDLE ==>
                (classes == old(classes) - {old(currentState)} + {C.IDLE}
                 && timers == StopAll(old(timers)) && !visualizationActive)
    {
      pendingIdleReturns := pendingIdleReturns - 1;
      SetState(C.IDLE, 0, id);
    }

    /** `expressEmotion(emotion, duration)`; the source's default duration is 2000 ms. */
    method ExpressEmotion(emotion: string, duration: nat, id: nat)
      modifies this`currentState, this`classes, this`mouthClasses, this`timers, this`talkIndex
      modifies this`visualizationActive, this`pendingIdleReturns
      ensures currentState == EmotionState(emotion)
      ensures old(currentState) != EmotionState(emotion) ==>
                classes == old(classes) - {old(currentState)} + {EmotionState(emotion)}
                && pendingIdleReturns == old(pendingIdleReturns) + (if duration != 0 then 1 else 0)
    {
      var state := EmotionState(emotion);
      SetState(state, duration, id);
    }

    method SetSpeechAnalyzer(present: bool)
      modifies this`hasAnalyzer
      ensures hasAnalyzer == present
    {
      hasAnalyzer := present;
    }

    /** Stops every animation and takes the visualisation element out of the page. */
    method Destroy()
      modifies this`visualizationActive, this`timers, this`visualizationAttached
      ensures timers == StopAll(old(timers)) && !visualizationActive && !visualizationAttached
    {
      StopAllAnimations();
      visualizationAttached := false;
    }
  }

  /** talking, listening, talking, idle: the first talking interval survives `stopAllAnimations`. */
  method TalkingIntervalLeaks(ch: Character)
    requires ch.currentState == C.IDLE && ch.timers == NoTimers && !ch.hasAnalyzer
    modifies ch
    ensures ch.currentState == C.IDLE && 1 in ch.timers.live
  {
    ch.SetState(C.TALKING, 0, 1);
    ch.SetState(C.LISTENING, 0, 2);
    ch.SetState(C.TALKING, 0, 3);
    ch.SetState(C.IDLE, 0, 4);
  }
}
