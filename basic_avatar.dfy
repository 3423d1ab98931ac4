/** src/js/3d/character3d.js: the stand-alone procedural `Character3D`. Unlike the avatar of
    scene.js it has no same-state guard, assigns the lip-sync scale directly, and only registers a
    breathing action. `Math.sin(Date.now() * 0.01)` and `Math.random()` are parameters. */
module BasicAvatar {
  import opened Wrappers
  import opened AudioMath
  import opened Mixer

  /** `updateAppearance`: the head colour for each state. */
  function HeadColor(state: string): (r: int)
    ensures r == 0xffcdb2 <==> state == "talking"
    ensures r == 0xe8f4fd <==> state == "listening"
    ensures r == 0xfff4e6 <==> state == "thinking"
    ensures r == 0xffdbac <==> state !in {"talking", "listening", "thinking"}
  {
    match state
    case "talking" => 0xffcdb2
    case "listening" => 0xe8f4fd
    case "thinking" => 0xfff4e6
    case _ => 0xffdbac
  }

  /** `animateMouth(talking)` with `sine` the value of `Math.sin(Date.now() * 0.01)`. */
  function MouthScale(talking: bool, sine: real): (r: real)
    requires -1.0 <= sine <= 1.0
    ensures !talking ==> r == 0.5
    ensures talking ==> 0.5 <= r <= 1.1
  {
    if talking then 0.8 + sine * 0.3 else 0.5
  }

  /** `0.5 + average / 255 * 0.5`. */
  function LipScale(audio: seq<int>): real
    requires |audio| > 0
  {
    0.5 + Mean(audio) / 255.0 * 0.5
  }

  /** For byte magnitudes the lip-sync scale lies between the closed mouth (0.5) and 1, and
      silence closes the mouth exactly. */
  lemma LipScaleRange(audio: seq<int>)
    requires |audio| > 0 && InByteRange(audio)
    ensures 0.5 <= LipScale(audio) <= 1.0
    ensures Sum(audio) == 0 ==> LipScale(audio) == MouthScale(false, 0.0)
  {
    MeanOfBytes(audio);
  }

  /** A louder frame never gives a smaller mouth. */
  lemma LipScaleMonotone(quiet: seq<int>, loud: seq<int>)
    requires |quiet| == |loud| > 0 && Sum(quiet) <= Sum(loud)
    ensures LipScale(quiet) <= LipScale(loud)
  {
    MeanMonotone(quiet, loud);
  }

  // ---------------------------------------------------------------- blinking

  /** One eye: its `scale.y`, and the values its pending 150 ms timeouts will restore, in the
      order they fire. */
  datatype Eye = Eye(scaleY: real, pending: seq<real>)

  const OpenEye: Eye := Eye(1.0, [])

  /** `blink` as written: the timeout restores the scale the eye had when the blink began. */
  function BlinkAsWritten(e: Eye): Eye
  {
    Eye(0.1, e.pending + [e.scaleY])
  }

  /** `blink` restoring the open scale 1, as the avatar of scene.js does. */
  function BlinkFixed(e: Eye): Eye
  {
    Eye(0.1, e.pending + [1.0])
  }

  /** The oldest pending timeout fires; with none pending nothing happens. */
  function Timeout(e: Eye): Eye
  {
    if e.pending == [] then e else Eye(e.pending[0], e.pending[1..])
  }

  datatype EyeEvent = BlinkEvent | TimeoutEvent

  function RunAsWritten(e: Eye, evs: seq<EyeEvent>): Eye
    decreases |evs|
  {
    if evs == [] then e
    else RunAsWritten(if evs[0] == BlinkEvent then BlinkAsWritten(e) else Timeout(e), evs[1..])
  }

  function RunFixed(e: Eye, evs: seq<EyeEvent>): Eye
    decreases |evs|
  {
    if evs == [] then e
    else RunFixed(if evs[0] == BlinkEvent then BlinkFixed(e) else Timeout(e), evs[1..])
  }

  /** A second blink inside the first one's 150 ms records the squashed scale as the one to
      restore, so once both timeouts have fired the eye stays at 0.1 for good. */
  lemma DoubleBlinkSticks()
    ensures RunAsWritten(OpenEye, [BlinkEvent, BlinkEvent, TimeoutEvent, TimeoutEvent]) == Eye(0.1, [])
  {
    var evs := [BlinkEvent, BlinkEvent, TimeoutEvent, TimeoutEvent];
    assert RunAsWritten(OpenEye, evs) == RunAsWritten(Eye(0.1, [1.0]), evs[1..]);
    assert RunAsWritten(Eye(0.1, [1.0]), evs[1..]) == RunAsWritten(Eye(0.1, [1.0, 0.1]), evs[2..]);
    assert RunAsWritten(Eye(0.1, [1.0, 0.1]), evs[2..]) == RunAsWritten(Eye(1.0, [0.1]), evs[3..]);
    assert RunAsWritten(Eye(1.0, [0.1]), evs[3..]) == RunAsWritten(Eye(0.1, []), []);
  }

  /** Every pending timeout reopens the eye, and an eye with none pending is open. */
  ghost predicate Settles(e: Eye)
  {
    (forall k :: 0 <= k < |e.pending| ==> e.pending[k] == 1.0) && (e.pending == [] ==> e.scaleY == 1.0)
  }

  /** With the fix, whatever the interleaving of blinks and timeouts, an eye with no timeout left
      pending is open. */
  lemma {:induction false} FixedEyeReopens(e: Eye, evs: seq<EyeEvent>)
    requires Settles(e)
    ensures Settles(RunFixed(e, evs))
    ensures RunFixed(e, evs).pending == [] ==> RunFixed(e, evs).scaleY == 1.0
    decreases |evs|
  {
    if evs != [] {
      var next := if evs[0] == BlinkEvent then BlinkFixed(e) else Timeout(e);
      assert Settles(next) by {
        if evs[0] != BlinkEvent && e.pending != [] {
          assert e.pending[0] == 1.0;
          assert forall k :: 0 <= k < |next.pending| ==> next.pending[k] == e.pending[k + 1];
        }
      }
      FixedEyeReopens(next, evs[1..]);
    }
  }

  // ---------------------------------------------------------------- the avatar

  /** The head, mouth, mixer, mesh and scene always exist once the constructor has run, so their
      presence is not a field. */
  class Character3D {
    var currentState: string
    var headColor: int
    var mouthScaleY: real
    /** Left and right eye. */
    var eyes: seq<Eye>
    var actions: map<string, ActionRec>
    var meshInScene: bool

    /** Builds the figure (mouth scale y 0.5) and plays the looping breathing clip as `idle`. */
    constructor ()
      ensures currentState == "idle" && headColor == 0xffdbac && mouthScaleY == 0.5
      ensures eyes == [OpenEye, OpenEye] && meshInScene
      ensures actions == map["idle" := NewAction("breathing").(playing := true)]
    {
      currentState := "idle";
      headColor := 0xffdbac;
      mouthScaleY := 0.5;
      eyes := [OpenEye, OpenEye];
      actions := map["idle" := NewAction("breathing").(playing := true)];
      meshInScene := true;
    }

    /** Records the state and updates the appearance, even when the state is unchanged. */
    method SetState(newState: string, sine: real)
      requires -1.0 <= sine <= 1.0
      modifies this`currentState, this`headColor, this`mouthScaleY
      ensures currentState == newState && headColor == HeadColor(newState)
      ensures mouthScaleY == MouthScale(newState == "talking", sine)
    {
      currentState := newState;
      UpdateAppearance(newState, sine);
    }

    /** Only `talking` animates the mouth; every other state closes it to 0.5. */
    method UpdateAppearance(state: string, sine: real)
      requires -1.0 <= sine <= 1.0
      modifies this`headColor, this`mouthScaleY
      ensures headColor == HeadColor(state)
      ensures mouthScaleY == MouthScale(state == "talking", sine)
    {
      if state == "talking" {
        headColor := 0xffcdb2;
        AnimateMouth(true, sine);
      } else if state == "listening" {
        headColor := 0xe8f4fd;
        AnimateMouth(false, sine);
      } else if state == "thinking" {
        headColor := 0xfff4e6;
        AnimateMouth(false, sine);
      } else {
        headColor := 0xffdbac;
        AnimateMouth(false, sine);
      }
    }

    method AnimateMouth(talking: bool, sine: real)
      requires -1.0 <= sine <= 1.0
      modifies this`mouthScaleY
      ensures mouthScaleY == MouthScale(talking, sine)
    {
      if talking {
        mouthScaleY := 0.8 + sine * 0.3;
      } else {
        mouthScaleY := 0.5;
      }
    }

    /** Assigns the scale outright, whatever the previous one. `audio` is None for a missing
        argument; an empty array reaches `reduce` without an initial value, which throws. */
    method UpdateLipSync(audio: Option<seq<int>>) returns (threw: bool)
      modifies this`mouthScaleY
      ensures threw <==> audio == Some([])
      ensures audio.Some? && audio.value != [] ==> mouthScaleY == LipScale(audio.value)
      ensures audio.None? || audio.value == [] ==> mouthScaleY == old(mouthScaleY)
    {
      if audio.None? {
        return false;
      }
      if audio.value == [] {
        return true;
      }
      var average := Mean(audio.value);
      mouthScaleY := 0.5 + average / 255.0 * 0.5;
      threw := false;
    }

    /** `blink` as the file writes it, on every eye. */
    method Blink()
      modifies this`eyes
      ensures |eyes| == |old(eyes)| && forall i :: 0 <= i < |eyes| ==> eyes[i] == BlinkAsWritten(old(eyes)[i])
    {
      var before := eyes;
      eyes := seq(|before|, i requires 0 <= i < |before| => BlinkAsWritten(before[i]));
    }

    /** The oldest pending timeout of eye `i` fires. */
    method BlinkTimeout(i: nat)
      requires i < |eyes|
      modifies this`eyes
      ensures eyes == old(eyes)[i := Timeout(old(eyes)[i])]
    {
      eyes := eyes[i := Timeout(eyes[i])];
    }

    /** One frame: blink when the random draw is below 0.003, and re-run the talking mouth while
        the state is `talking`. The mixer step is not modelled. */
    method Update(rand: real, sine: real)
      requires 0.0 <= rand < 1.0 && -1.0 <= sine <= 1.0
      modifies this`eyes, this`mouthScaleY
      ensures rand < 0.003 ==> |eyes| == |old(eyes)| && forall i :: 0 <= i < |eyes| ==> eyes[i] == BlinkAsWritten(old(eyes)[i])
      ensures rand >= 0.003 ==> eyes == old(eyes)
      ensures currentState == "talking" ==> mouthScaleY == MouthScale(true, sine)
      ensures currentState != "talking" ==> mouthScaleY == old(mouthScaleY)
    {
      if rand < 0.003 {
        Blink();
      }
      if currentState == "talking" {
        AnimateMouth(true, sine);
      }
    }

    /** Stops every action and takes the figure out of the scene. */
    method Destroy()
      modifies this`actions, this`meshInScene
      ensures actions.Keys == old(actions).Keys
      ensures forall k :: k in actions ==> actions[k] == Stopped(old(actions)[k])
      ensures !meshInScene
    {
      var running := actions;
      actions := map k | k in running :: Stopped(running[k]);
      meshInScene := false;
    }
  }

  /** Without a same-state guard, repeating `setState('listening')` still closes a mouth that
      lip sync has opened since. */
  method RepeatedStateResetsMouth(avatar: Character3D, audio: seq<int>)
    requires avatar.currentState == "listening" && |audio| > 0 && InByteRange(audio) && Sum(audio) > 0
    modifies avatar
    ensures avatar.currentState == "listening" && avatar.mouthScaleY == 0.5
  {
    var threw := avatar.UpdateLipSync(Some(audio));
    avatar.SetState("listening", 0.0);
  }
}
