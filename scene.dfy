/** src/js/3d/scene.js: the `ThreeScene` host, which picks an avatar class and drives the frame
    loop, and the procedural `Character3D` declared in the same file (a sphere head whose colour
    and mouth scale follow the conversation state). */
module Scene {
  import opened Wrappers
  import opened AudioMath
  import opened Mixer

  // ---------------------------------------------------------------- ThreeScene

  /** The avatar classes `createCharacter` knows, in its order of preference. */
  datatype AvatarClass = BusinessClass | RealClass | BasicClass

  /** Which of the three global classes `typeof` finds defined when `createCharacter` runs. */
  datatype Available = Available(business: bool, realistic: bool, basic: bool)

  /** The class `createCharacter` instantiates, or None when it throws for want of one. */
  function ChooseAvatar(av: Available): (r: Option<AvatarClass>)
    ensures r == Some(BusinessClass) <==> av.business
    ensures r == Some(RealClass) <==> !av.business && av.realistic
    ensures r == Some(BasicClass) <==> !av.business && !av.realistic && av.basic
    ensures r.None? <==> !av.business && !av.realistic && !av.basic
  {
    if av.business then Some(BusinessClass)
    else if av.realistic then Some(RealClass)
    else if av.basic then Some(BasicClass)
    else None
  }

  /** The camera aspect ratio `clientWidth / clientHeight`: Infinity for a container with width
      but no height, NaN for one with neither. */
  function AspectOf(width: nat, height: nat): (r: Number)
    ensures r.Finite? <==> height > 0
    ensures r.Finite? ==> r.value * height as real == width as real && r.value >= 0.0
    ensures r == PosInfinity <==> height == 0 && width > 0
    ensures r == NaN <==> height == 0 && width == 0
  {
    Divide(width as real, height as real)
  }

  /** What the frame loop and `destroy` do to the outside world, in order. */
  datatype SceneEvent =
    | FrameRequested(id: nat)
    | CharacterUpdated
    | Rendered
    | FrameCancelled(id: nat)
    | CharacterDestroyed
    | RendererRemoved

  /** `if (this.animationId)`: a frame id of 0 is falsy. */
  predicate Truthy(id: Option<nat>)
  {
    id.Some? && id.value != 0
  }

  class ThreeScene {
    var character: Option<AvatarClass>
    var animationId: Option<nat>
    /** The renderer exists (from `init` on) and its canvas is a child of the container. */
    var hasRenderer: bool
    var canvasAttached: bool
    /** NaN until `init` sizes the camera. */
    var aspect: Number
    var width: nat
    var height: nat
    /** Calls into the character, the renderer and the frame scheduler, oldest first. */
    var events: seq<SceneEvent>

    /** The field initialisers of the JavaScript constructor; `init` runs as `ThreeScene.Init`. */
    constructor ()
      ensures character.None? && animationId.None? && !hasRenderer && !canvasAttached && events == []
    {
      character := None;
      animationId := None;
      hasRenderer := false;
      canvasAttached := false;
      aspect := NaN;
      width := 0;
      height := 0;
      events := [];
    }

    /** `init`: renderer sized to the container and attached, avatar created, first frame run.
        An exception from `createCharacter` leaves `init` before the frame loop starts. */
    method Init(av: Available, w: nat, h: nat, frameId: nat) returns (threw: bool)
      modifies this
      ensures hasRenderer && canvasAttached && aspect == AspectOf(w, h) && width == w && height == h
      ensures threw <==> ChooseAvatar(av).None?
      ensures character == if threw then old(character) else ChooseAvatar(av)
      ensures threw ==> animationId == old(animationId) && events == old(events)
      ensures !threw ==> animationId == Some(frameId)
                         && events == old(events) + [FrameRequested(frameId), CharacterUpdated, Rendered]
    {
      aspect := AspectOf(w, h);
      width := w;
      height := h;
      hasRenderer := true;
      canvasAttached := true;
      threw := CreateCharacter(av);
      if threw {
        return;
      }
      Animate(frameId);
    }

    /** Instantiates the most preferred defined class. With none defined, the `catch` calls
        `createSimpleCharacter`, which the class does not define, so a TypeError escapes. */
    method CreateCharacter(av: Available) returns (threw: bool)
      modifies this`character
      ensures threw <==> ChooseAvatar(av).None?
      ensures character == if threw then old(character) else ChooseAvatar(av)
    {
      if av.business {
        character := Some(BusinessClass);
      } else if av.realistic {
        character := Some(RealClass);
      } else if av.basic {
        character := Some(BasicClass);
      } else {
        return true;
      }
      threw := false;
    }

    /** One frame: schedule the next, update the character when there is one, then render. */
    method Animate(frameId: nat)
      requires hasRenderer
      modifies this`animationId, this`events
      ensures animationId == Some(frameId)
      ensures events == old(events) + [FrameRequested(frameId)]
                        + (if character.Some? then [CharacterUpdated] else []) + [Rendered]
    {
      animationId := Some(frameId);
      events := events + [FrameRequested(frameId)];
      if character.Some? {
        events := events + [CharacterUpdated];
      }
      events := events + [Rendered];
    }

    method OnWindowResize(w: nat, h: nat)
      modifies this`aspect, this`width, this`height
      ensures aspect == AspectOf(w, h) && width == w && height == h
    {
      aspect := AspectOf(w, h);
      width := w;
      height := h;
    }

    /** Cancels the pending frame, destroys the character, then detaches the canvas, each only
        when present. Nothing is reset, so a second call removes a canvas that is no longer a
        child of the container, and `removeChild` throws. */
    method Destroy() returns (threw: bool)
      modifies this`canvasAttached, this`events
      ensures threw <==> hasRenderer && !old(canvasAttached)
      ensures events == old(events)
                        + (if Truthy(animationId) then [FrameCancelled(animationId.value)] else [])
                        + (if character.Some? then [CharacterDestroyed] else [])
                        + (if hasRenderer && !threw then [RendererRemoved] else [])
      ensures !canvasAttached == (hasRenderer || !old(canvasAttached))
    {
      if Truthy(animationId) {
        events := events + [FrameCancelled(animationId.value)];
      }
      if character.Some? {
        events := events + [CharacterDestroyed];
      }
      threw := false;
      if hasRenderer {
        if !canvasAttached {
          return true;
        }
        canvasAttached := false;
        events := events + [RendererRemoved];
      }
    }
  }

  /** Tearing a running scene down twice: the second `destroy` cancels and destroys again and
      then throws from `removeChild`. */
  method DestroyTwiceThrows(s: ThreeScene) returns (second: bool)
    requires s.hasRenderer && s.canvasAttached && Truthy(s.animationId) && s.character.Some?
    modifies s
    ensures second
    ensures s.events == old(s.events) + [FrameCancelled(old(s.animationId.value)), CharacterDestroyed, RendererRemoved,
                                         FrameCancelled(old(s.animationId.value)), CharacterDestroyed]
  {
    var first := s.Destroy();
    assert !first;
    second := s.Destroy();
  }

  // ---------------------------------------------------------------- Character3D

  /** `fadeOut(0.5)` and `fadeIn(0.5)` in `setState`. */
  const FADE_SECONDS: real := 0.5

  /** The three clips `setupAnimations` registers, all looping and none started. */
  function InitialActions(): (r: map<string, ActionRec>)
    ensures r.Keys == {"idle", "talking", "listening"}
    ensures forall k :: k in r ==> r[k] == NewAction(k)
  {
    map["idle" := NewAction("idle"), "talking" := NewAction("talking"), "listening" := NewAction("listening")]
  }

  /** `applyStateEffects`: the head colour for each state. */
  function HeadColor(state: string): (r: int)
    ensures r == 0xff6b6b <==> state == "talking"
    ensures r == 0x4ecdc4 <==> state == "listening"
    ensures r == 0xfeca57 <==> state == "thinking"
    ensures r == 0xffdbac <==> state !in {"talking", "listening", "thinking"}
  {
    match state
    case "talking" => 0xff6b6b
    case "listening" => 0x4ecdc4
    case "thinking" => 0xfeca57
    case _ => 0xffdbac
  }

  /** `THREE.MathUtils.lerp(x, y, t)`. */
  function Lerp(x: real, y: real, t: real): real
  {
    (1.0 - t) * x + t * y
  }

  /** `updateLipSync` moves each mouth scale 30% of the way to its target per call. */
  const LIP_STEP: real := 0.3

  /** The mouth scale an average level maps to: `1 + level / 255 * 2`. */
  function LipTarget(audio: seq<int>): real
    requires |audio| > 0
  {
    1.0 + Mean(audio) / 255.0 * 2.0
  }

  /** For byte magnitudes the target lies in [1, 3]. */
  lemma LipTargetRange(audio: seq<int>)
    requires |audio| > 0 && InByteRange(audio)
    ensures 1.0 <= LipTarget(audio) <= 3.0
  {
    MeanOfBytes(audio);
  }

  /** One step closes 30% of the gap to the target: the remaining gap is 0.7 of the old one, and
      the scale neither jumps to nor passes the target. */
  lemma LipStepContracts(x: real, target: real)
    ensures target - Lerp(x, target, LIP_STEP) == 0.7 * (target - x)
    ensures x <= target ==> x <= Lerp(x, target, LIP_STEP) <= target
    ensures target <= x ==> target <= Lerp(x, target, LIP_STEP) <= x
    ensures x != target ==> Lerp(x, target, LIP_STEP) != target
  {
  }

  function Pow(b: real, n: nat): real
  {
    if n == 0 then 1.0 else b * Pow(b, n - 1)
  }

  /** The scale after `n` calls with the same audio. */
  function LipSteps(x: real, target: real, n: nat): real
  {
    if n == 0 then x else Lerp(LipSteps(x, target, n - 1), target, LIP_STEP)
  }

  /** Repeated calls converge geometrically: after n of them the gap is 0.7^n of the first. */
  lemma {:induction false} LipStepsGap(x: real, target: real, n: nat)
    ensures target - LipSteps(x, target, n) == Pow(0.7, n) * (target - x)
  {
    if n > 0 {
      LipStepsGap(x, target, n - 1);
      LipStepContracts(LipSteps(x, target, n - 1), target);
    }
  }

  /** The procedural avatar. The mouth, head and mixer always exist once the constructor has run,
      so their presence is not a field. */
  class Character3D {
    var currentState: string
    var actions: map<string, ActionRec>
    var headColor: int
    var mouthScaleX: real
    var mouthScaleY: real
    /** `eye.scale.y` of the left and right eye. */
    var eyeScaleY: seq<real>
    var meshInScene: bool

    constructor ()
      ensures currentState == "idle" && actions == InitialActions()
      ensures headColor == 0xffdbac && mouthScaleX == 1.0 && mouthScaleY == 1.0
      ensures eyeScaleY == [1.0, 1.0] && meshInScene
    {
      currentState := "idle";
      actions := InitialActions();
      headColor := 0xffdbac;
      mouthScaleX := 1.0;
      mouthScaleY := 1.0;
      eyeScaleY := [1.0, 1.0];
      meshInScene := true;
    }

    /** Same state: nothing happens. Otherwise fades out the current action and restarts the new
        one, each only when registered, records the state, and recolours the head. */
    method SetState(newState: string)
      modifies this`currentState, this`actions, this`headColor
      ensures old(currentState) == newState ==>
                currentState == old(currentState) && actions == old(actions) && headColor == old(headColor)
      ensures old(currentState) != newState ==>
                currentState == newState && headColor == HeadColor(newState)
                && actions.Keys == old(actions).Keys
                && (newState in actions ==> actions[newState] == FadeInAndPlay(old(actions)[newState], FADE_SECONDS))
                && (old(currentState) in actions ==>
                      actions[old(currentState)] == FadeOut(old(actions)[old(currentState)], FADE_SECONDS))
                && forall k :: k in actions && k != newState && k != old(currentState) ==> actions[k] == old(actions)[k]
    {
      if currentState == newState {
        return;
      }
      if currentState in actions {
        actions := actions[currentState := FadeOut(actions[currentState], FADE_SECONDS)];
      }
      if newState in actions {
        actions := actions[newState := FadeInAndPlay(actions[newState], FADE_SECONDS)];
      }
      currentState := newState;
      ApplyStateEffects(newState);
    }

    method ApplyStateEffects(state: string)
      modifies this`headColor
      ensures headColor == HeadColor(state)
    {
      if state == "talking" {
        headColor := 0xff6b6b;
      } else if state == "listening" {
        headColor := 0x4ecdc4;
      } else if state == "thinking" {
        headColor := 0xfeca57;
      } else {
        headColor := 0xffdbac;
      }
    }

    /** `audio` is None for a missing argument. An empty array passes the guard and reaches
        `reduce` without an initial value, which throws. */
    method UpdateLipSync(audio: Option<seq<int>>) returns (threw: bool)
      modifies this`mouthScaleX, this`mouthScaleY
      ensures threw <==> audio == Some([])
      ensures audio.Some? && audio.value != [] ==>
                mouthScaleX == Lerp(old(mouthScaleX), LipTarget(audio.value), LIP_STEP)
                && mouthScaleY == Lerp(old(mouthScaleY), LipTarget(audio.value), LIP_STEP)
      ensures audio.None? || audio.value == [] ==>
                mouthScaleX == old(mouthScaleX) && mouthScaleY == old(mouthScaleY)
    {
      if audio.None? {
        return false;
      }
      if audio.value == [] {
        return true;
      }
      var targetScale := 1.0 + Mean(audio.value) / 255.0 * 2.0;
      mouthScaleX := Lerp(mouthScaleX, targetScale, LIP_STEP);
      mouthScaleY := Lerp(mouthScaleY, targetScale, LIP_STEP);
      threw := false;
    }

    /** `blink`: both eyes squash to 0.1; each is restored by its own timeout, `BlinkTimeout`. */
    method Blink()
      modifies this`eyeScaleY
      ensures |eyeScaleY| == |old(eyeScaleY)| && forall i :: 0 <= i < |eyeScaleY| ==> eyeScaleY[i] == 0.1
    {
      eyeScaleY := seq(|eyeScaleY|, i => 0.1);
    }

    /** The 150 ms timeout of `blink` for eye `i`. */
    method BlinkTimeout(i: nat)
      requires i < |eyeScaleY|
      modifies this`eyeScaleY
      ensures eyeScaleY == old(eyeScaleY)[i := 1.0]
    {
      eyeScaleY := eyeScaleY[i := 1.0];
    }

    /** The blink part of `update`: `rand` is the `Math.random()` draw; a blink starts iff it is
        below 0.01. */
    method Update(rand: real)
      requires 0.0 <= rand < 1.0
      modifies this`eyeScaleY
      ensures rand < 0.01 ==> forall i :: 0 <= i < |eyeScaleY| ==> eyeScaleY[i] == 0.1
      ensures rand >= 0.01 ==> eyeScaleY == old(eyeScaleY)
      ensures |eyeScaleY| == |old(eyeScaleY)|
    {
      if rand < 0.01 {
        Blink();
      }
    }

    /** Stops every action and takes the mesh out of the scene. */
    method Destroy()
      modifies this`actions, this`meshInScene
      ensures actions.Keys == old(actions).Keys
      ensures forall k :: k in actions ==> actions[k] == Stopped(old(actions)[k])
      ensures !meshInScene
    {
      var running := actions;
      actions := map k | k in running :: Stopped(running[k]);
      meshInScene := false;
    }
  }

  /** `thinking` has no registered action: leaving idle for it fades idle out and starts nothing,
      yet the state and the head colour still change. */
  method ThinkingStartsNoAction(avatar: Character3D)
    requires avatar.currentState == "idle" && avatar.actions == InitialActions()
    modifies avatar
    ensures avatar.currentState == "thinking" && avatar.headColor == 0xfeca57
    ensures avatar.actions.Keys == InitialActions().Keys
    ensures avatar.actions["idle"].fadingOut && !avatar.actions["idle"].playing
    ensures forall k :: k in avatar.actions ==> !avatar.actions[k].playing && !avatar.actions[k].fadingIn
  {
    avatar.SetState("thinking");
  }
}
