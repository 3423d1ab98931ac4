/** The part of a Three.js `AnimationAction` the avatars' state machines touch: whether it plays,
    which way its weight is fading, and over how many seconds. Keyframe tracks and the mixer's
    per-frame interpolation are not modelled. */
module Mixer {

  datatype ActionRec = ActionRec(clip: string, playing: bool, fadingIn: bool, fadingOut: bool, fadeSeconds: real)

  /** `mixer.clipAction(clip)`: a fresh action, neither playing nor fading. */
  function NewAction(clip: string): ActionRec
  {
    ActionRec(clip, false, false, false, 0.0)
  }

  /** `action.fadeOut(seconds)`: the weight starts ramping to zero, replacing any fade-in. */
  function FadeOut(a: ActionRec, seconds: real): ActionRec
  {
    a.(fadingOut := true, fadingIn := false, fadeSeconds := seconds)
  }

  /** `action.reset().fadeIn(seconds).play()`: `reset` cancels any fade, then the weight ramps up. */
  function FadeInAndPlay(a: ActionRec, seconds: real): ActionRec
  {
    a.(fadingIn := true, fadingOut := false, playing := true, fadeSeconds := seconds)
  }

  /** `action.stop()`, as `mixer.stopAllAction()` applies it to every action. */
  function Stopped(a: ActionRec): ActionRec
  {
    a.(playing := false, fadingIn := false, fadingOut := false)
  }
}
