/** The business avatar of src/js/3d/businessCharacter.js: a loaded (or fallback) model whose
    mixer actions, face blend shapes, bones and business context are driven by `setState`. */
module BusinessAvatar {
  import opened Wrappers
  import opened Text
  import opened AudioMath
  import opened BusinessRules
  import opened Mixer
  import C = Constants

  /** Both cross-fades of `setState` last 0.8 seconds. */
  const FADE_SECONDS: real := 0.8

  predicate HandlesFit(actions: map<string, nat>, n: nat)
  {
    forall k :: k in actions ==> actions[k] < n
  }

  /** The shoulder gesture exists only when both shoulder bones were indexed. */
  function GestureActions(bones: map<string, nat>): (r: seq<ActionRec>)
    ensures |r| <= 1
    ensures r != [] <==> "leftShoulder" in bones && "rightShoulder" in bones
    ensures r != [] ==> r[0].clip == PRESENTING && !r[0].playing && !r[0].fadingIn && !r[0].fadingOut
  {
    if "leftShoulder" in bones && "rightShoulder" in bones then [NewAction(PRESENTING)] else []
  }

  function GestureKeys(bones: map<string, nat>, at: nat): map<string, nat>
  {
    if "leftShoulder" in bones && "rightShoulder" in bones then map[PRESENTING := at] else map[]
  }

  /** The spine lean exists only when the spine bone was indexed. */
  function LeanActions(bones: map<string, nat>): (r: seq<ActionRec>)
    ensures |r| <= 1
    ensures r != [] <==> "spine" in bones
    ensures r != [] ==> r[0].clip == ATTENTIVE && !r[0].playing && !r[0].fadingIn && !r[0].fadingOut
  {
    if "spine" in bones then [NewAction(ATTENTIVE)] else []
  }

  function LeanKeys(bones: map<string, nat>, at: nat): map<string, nat>
  {
    if "spine" in bones then map[ATTENTIVE := at] else map[]
  }

  /** The actions after `setState` moves from the role `from` to the role `to`. */
  function Transition(handles: seq<ActionRec>, actions: map<string, nat>, from: string, to: string): (r: seq<ActionRec>)
    requires HandlesFit(actions, |handles|)
    ensures |r| == |handles|
    ensures to in actions ==> r[actions[to]].playing && r[actions[to]].fadingIn && !r[actions[to]].fadingOut
    ensures from in actions && (to !in actions || actions[to] != actions[from]) ==>
              r[actions[from]].fadingOut && r[actions[from]].playing == handles[actions[from]].playing
    ensures forall i :: (0 <= i < |handles| && (from !in actions || i != actions[from])
                         && (to !in actions || i != actions[to])) ==> r[i] == handles[i]
  {
    var faded := if from in actions then handles[actions[from] := FadeOut(handles[actions[from]], FADE_SECONDS)] else handles;
    if to in actions then faded[actions[to] := FadeInAndPlay(faded[actions[to]], FADE_SECONDS)] else faded
  }

  /** `action.play()` on the action under `key`, when there is one. */
  function PlayIfPresent(handles: seq<ActionRec>, actions: map<string, nat>, key: string): (r: seq<ActionRec>)
    requires HandlesFit(actions, |handles|)
    ensures |r| == |handles|
  {
    if key in actions then handles[actions[key] := handles[actions[key]].(playing := true)] else handles
  }

  /** One new action per clip, in clip order. */
  function NewActions(clips: seq<string>): (r: seq<ActionRec>)
    ensures |r| == |clips|
    ensures forall k :: 0 <= k < |r| ==> r[k].clip == clips[k]
    ensures forall k :: 0 <= k < |r| ==> !r[k].playing && !r[k].fadingIn && !r[k].fadingOut
  {
    seq(|clips|, k requires 0 <= k < |clips| => NewAction(clips[k]))
  }

  /** `Object3D.remove`: the first occurrence of `x` is taken out, if any. */
  function RemoveFirst<T(==)>(s: seq<T>, x: T): (r: seq<T>)
    ensures x in s ==> multiset(r) == multiset(s) - multiset{x} && |r| == |s| - 1
    ensures x !in s ==> r == s
  {
    if s == [] then []
    else
      assert s == [s[0]] + s[1..];
      if s[0] == x then s[1..] else [s[0]] + RemoveFirst(s[1..], x)
  }

  /** The object handed to `scene.add`: the loaded GLB scene or the n-th fallback group built. */
  datatype Model = LoadedScene | FallbackGroup(serial: nat)

  /** What the GLB loader hands over: the scene in traversal order and the clip names. */
  datatype Gltf = Gltf(nodes: seq<SceneNode>, clips: seq<string>)

  /** The outcome of each loading stage, which are I/O: whether `THREE.GLTFLoader` is (or becomes)
      defined, whether the HEAD probe of the model path answers ok, and what the GLB load yields. */
  datatype LoadEnv = LoadEnv(loaderAvailable: bool, probeOk: bool, glb: Option<Gltf>)

  predicate WellFormedGltf(g: Gltf)
  {
    forall i :: 0 <= i < |g.nodes| ==> WellFormedNode(g.nodes[i])
  }

  /** Every stage of `loadBusinessCharacter` succeeds. */
  predicate LoadSucceeds(env: LoadEnv)
  {
    env.loaderAvailable && env.probeOk && env.glb.Some?
  }

  /** What `init` leaves behind, as the code is written. */
  datatype LoadReport = LoadReport(attached: seq<Model>, isLoading: bool, rejected: bool)

  /** `init` as written: `createFallbackBusinessCharacter` attaches its group and then calls the
      undefined `createCustomAnimations`, so the TypeError escapes every catch block. */
  function InitAsWritten(env: LoadEnv, serial: nat): LoadReport
  {
    if !env.loaderAvailable then
      // init's own catch builds one fallback; its TypeError rejects init's promise
      LoadReport([FallbackGroup(serial)], false, true)
    else if LoadSucceeds(env) then
      LoadReport([LoadedScene], false, false)
    else
      // loadBusinessCharacter's catch builds one, throws past `isLoading = false`;
      // init's catch then builds a second one, which throws again
      LoadReport([FallbackGroup(serial), FallbackGroup(serial + 1)], true, true)
  }

  /** `init` as evidently intended: a fallback that returns normally. */
  function InitIntended(env: LoadEnv, serial: nat): LoadReport
  {
    if LoadSucceeds(env) then LoadReport([LoadedScene], false, false)
    else LoadReport([FallbackGroup(serial)], false, false)
  }

  /** As written, a failed probe or GLB load attaches two fallback groups and leaves
      `isLoading` true forever. */
  lemma FallbackAttachedTwice(serial: nat)
    ensures var r := InitAsWritten(LoadEnv(true, false, None), serial);
            |r.attached| == 2 && r.attached[0] != r.attached[1] && r.isLoading && r.rejected
  {
  }

  /** As intended, every failure attaches exactly one fallback, every success only the loaded
      scene, and loading always ends with `isLoading` false. */
  lemma IntendedFallbackOnce(env: LoadEnv, serial: nat)
    ensures |InitIntended(env, serial).attached| == 1
    ensures InitIntended(env, serial).attached[0].FallbackGroup? <==> !LoadSucceeds(env)
    ensures !InitIntended(env, serial).isLoading && !InitIntended(env, serial).rejected
  {
  }

  class BusinessCharacter {
    var currentState: string
    var isLoading: bool
    var model: Option<Model>
    /** The children the shared Three.js scene received from this avatar, in order. */
    var sceneChildren: seq<Model>
    var fallbacksBuilt: nat
    /** The loaded scene graph, in the order `traverse` visits it. */
    var nodes: seq<SceneNode>
    var hasMixer: bool
    /** The mixer's actions; `actions` maps names to indices here, several names may share one. */
    var handles: seq<ActionRec>
    var actions: map<string, nat>
    /** Bone name targets to the traversal index of the bone found for them. */
    var bones: map<string, nat>
    var faceMesh: Option<nat>
    var morphTargets: map<string, nat>
    /** The face mesh's `morphTargetInfluences`. */
    var influences: array<real>
    var context: BusinessContext
    /** Frequency magnitudes the app stores here while the microphone or speech runs, and
        clears afterwards; no member of this class reads them. */
    var currentAudioData: Option<seq<real>>

    /** Bones and the face mesh index the scene graph, whose meshes are well formed, and the
        morph dictionary addresses the influence array. */
    ghost predicate RigValid()
      reads this`nodes, this`bones, this`faceMesh, this`morphTargets, this`influences
    {
      (forall k :: k in bones ==> bones[k] < |nodes|)
      && (faceMesh.Some? ==> faceMesh.value < |nodes|)
      && DictFits(morphTargets, influences.Length)
      && (forall i :: 0 <= i < |nodes| ==> WellFormedNode(nodes[i]))
    }

    ghost predicate Valid()
      reads this`nodes, this`bones, this`faceMesh, this`morphTargets, this`influences
      reads this`handles, this`actions
    {
      RigValid() && HandlesFit(actions, |handles|)
    }

    /** Nothing has been loaded yet: the state the constructor leaves for `init`. */
    ghost predicate Unloaded()
      reads this
    {
      model.None? && nodes == [] && !hasMixer && handles == [] && actions == map[]
      && bones == map[] && faceMesh.None? && morphTargets == map[]
    }

    /** The constructor; `init` runs after it returns, as `BusinessCharacter.Init`. */
    constructor ()
      ensures Valid() && Unloaded()
      ensures currentState == C.IDLE && !isLoading && sceneChildren == [] && fallbacksBuilt == 0
      ensures context == BusinessContext("professional", "upright", "active")
      ensures currentAudioData.None?
    {
      currentState := C.IDLE;
      isLoading := false;
      model := None;
      sceneChildren := [];
      fallbacksBuilt := 0;
      nodes := [];
      hasMixer := false;
      handles := [];
      actions := map[];
      bones := map[];
      faceMesh := None;
      morphTargets := map[];
      influences := new real[0];
      context := BusinessContext("professional", "upright", "active");
      currentAudioData := None;
    }

    /** Writes `value` into the slot of the first spelling of `target` the face mesh knows. */
    method SetMorphTarget(target: string, value: real)
      requires RigValid()
      modifies influences
      ensures faceMesh.None? ==> influences[..] == old(influences[..])
      ensures faceMesh.Some? ==> influences[..] == Write(old(influences[..]), morphTargets, target, value)
    {
      if faceMesh.None? {
        return;
      }
      var names := PossibleNames(target);
      for k := 0 to |names|
        invariant influences[..] == old(influences[..])
        invariant forall j :: 0 <= j < k ==> names[j] !in morphTargets
      {
        if names[k] in morphTargets {
          influences[morphTargets[names[k]]] := value;
          return;
        }
      }
    }

    /** Resets every influence to zero, then sets the state group's three targets. */
    method SetBusinessExpression(state: string)
      requires RigValid()
      modifies influences
      ensures faceMesh.None? ==> influences[..] == old(influences[..])
      ensures faceMesh.Some? ==> influences[..] == ExpressionInfluences(influences.Length, morphTargets, state)
    {
      if faceMesh.None? {
        return;
      }
      forall i | 0 <= i < influences.Length {
        influences[i] := 0.0;
      }
      assert influences[..] == Zeros(influences.Length);
      ghost var zeros := influences[..];
      var ts := ExpressionTargets(state);
      SetMorphTarget(ts[0].name, ts[0].value);
      ApplySnoc(zeros, morphTargets, [], ts[0]);
      SetMorphTarget(ts[1].name, ts[1].value);
      ApplySnoc(zeros, morphTargets, [ts[0]], ts[1]);
      SetMorphTarget(ts[2].name, ts[2].value);
      ApplySnoc(zeros, morphTargets, [ts[0], ts[1]], ts[2]);
      assert [] + [ts[0]] == [ts[0]] && [ts[0]] + [ts[1]] == [ts[0], ts[1]];
      assert ts == [ts[0], ts[1]] + [ts[2]];
    }

    method UpdateBusinessContext(state: string)
      modifies this`context
      ensures context == ContextFor(state)
    {
      context := ContextFor(state);
    }

    /** Maps the semantic state to a clip role, cross-fades the actions, stores the role, and
        updates the face and the context from the semantic state. */
    method SetState(newState: string)
      requires Valid()
      modifies this`currentState, this`handles, this`context, influences
      ensures Valid()
      ensures old(currentState) == newState ==>
                currentState == old(currentState) && handles == old(handles) && context == old(context)
                && influences[..] == old(influences[..])
      ensures old(currentState) != newState ==>
                currentState == RoleOf(newState)
                && handles == Transition(old(handles), actions, old(currentState), RoleOf(newState))
                && context == ContextFor(newState)
      ensures old(currentState) != newState && faceMesh.Some? ==>
                influences[..] == ExpressionInfluences(influences.Length, morphTargets, newState)
      ensures faceMesh.None? ==> influences[..] == old(influences[..])
    {
      if currentState == newState {
        return;
      }
      var businessState := RoleOf(newState);
      if currentState in actions {
        handles := handles[actions[currentState] := FadeOut(handles[actions[currentState]], FADE_SECONDS)];
      }
      if businessState in actions {
        handles := handles[actions[businessState] := FadeInAndPlay(handles[actions[businessState]], FADE_SECONDS)];
      }
      currentState := businessState;
      SetBusinessExpression(newState);
      UpdateBusinessContext(newState);
    }

    /** Rotates the spine bone for the posture, when a spine was found. */
    method SetBusinessPosture(posture: string)
      requires RigValid()
      modifies this`nodes
      ensures RigValid()
      ensures "spine" !in bones ==> nodes == old(nodes)
      ensures "spine" in bones ==> nodes == old(nodes)[bones["spine"] := Posed(old(nodes)[bones["spine"]], posture)]
    {
      if "spine" !in bones {
        return;
      }
      var spine := bones["spine"];
      nodes := nodes[spine := Posed(nodes[spine], posture)];
    }

    /** `update()`, run once per rendered frame: the mixer's time step, the gaze when the page
        has a pointer position (`pointer`, already scaled to [-1, 1]), and the professional bob
        (`wave` is the clock's sine). Only the head bone moves: the face, the actions and the
        stored audio data are left as they are. */
    method Update(pointer: Option<(real, real)>, wave: real)
      requires RigValid()
      modifies this`nodes
      ensures RigValid() && |nodes| == |old(nodes)|
      ensures "head" !in bones ==> nodes == old(nodes)
      ensures "head" in bones ==>
                nodes == old(nodes)[bones["head"] := HeadFrame(old(nodes)[bones["head"]], pointer, wave,
                                                               currentState == PROFESSIONAL)]
      ensures influences[..] == old(influences[..]) && faceMesh == old(faceMesh) && morphTargets == old(morphTargets)
      ensures handles == old(handles) && actions == old(actions) && currentAudioData == old(currentAudioData)
    {
      if "head" !in bones {
        return;
      }
      var head := bones["head"];
      var node := nodes[head];
      if pointer.Some? {
        node := Gazed(node, pointer.value.0, pointer.value.1);
      }
      if currentState == PROFESSIONAL {
        node := Bobbed(node, wave);
      }
      nodes := nodes[head := node];
    }

    /** Drives the mouth blend shapes from a frequency-magnitude array. `audio` is None for a
        missing argument; an empty array reaches `reduce` without an initial value, which throws. */
    method UpdateLipSync(audio: Option<seq<int>>) returns (threw: bool)
      requires RigValid()
      modifies influences
      ensures threw <==> audio.Some? && audio.value == [] && faceMesh.Some?
      ensures influences[..] == LipSyncInfluences(old(influences[..]), morphTargets, audio, faceMesh.Some?,
                                                  currentState == PRESENTING)
    {
      if audio.None? || faceMesh.None? {
        return false;
      }
      if audio.value == [] {
        return true;
      }
      var intensity := LipIntensity(audio.value);
      ghost var start := influences[..];
      var ts := LipSyncTargets(intensity, currentState == PRESENTING);
      SetMorphTarget(ts[0].name, ts[0].value);
      ApplySnoc(start, morphTargets, [], ts[0]);
      SetMorphTarget(ts[1].name, ts[1].value);
      ApplySnoc(start, morphTargets, [ts[0]], ts[1]);
      assert [] + [ts[0]] == [ts[0]] && [ts[0]] + [ts[1]] == [ts[0], ts[1]];
      if currentState == PRESENTING {
        SetMorphTarget(ts[2].name, ts[2].value);
        ApplySnoc(start, morphTargets, [ts[0], ts[1]], ts[2]);
        assert ts == [ts[0], ts[1]] + [ts[2]];
      } else {
        assert ts == [ts[0], ts[1]];
      }
      threw := false;
    }

    /** Indexes the bones whose lower-cased names contain a target, the later match winning. */
    method FindImportantBones()
      requires RigValid()
      modifies this`bones
      ensures RigValid()
      ensures bones == BoneScan(old(bones), nodes)
      ensures forall t :: t in bones <==> t in old(bones) || (t in BoneNames && LastBone(nodes, t).Some?)
      ensures forall t :: t in bones ==>
                bones[t] == if t in BoneNames && LastBone(nodes, t).Some? then LastBone(nodes, t).value
                            else old(bones)[t]
      // the capitalised shoulder targets are never found
      ensures ("leftShoulder" in bones <==> "leftShoulder" in old(bones))
              && ("rightShoulder" in bones <==> "rightShoulder" in old(bones))
    {
      var boneNames := BoneNames;
      for i := 0 to |nodes|
        invariant bones == BoneScan(old(bones), nodes[..i])
      {
        assert nodes[..i + 1][..i] == nodes[..i];
        if nodes[i].isBone {
          var boneName := ToLower(nodes[i].name);
          ghost var before := bones;
          for j := 0 to |boneNames|
            invariant bones == MatchTargets(before, boneName, i, boneNames[..j])
          {
            assert boneNames[..j + 1][..j] == boneNames[..j];
            if Contains(boneName, boneNames[j]) {
              bones := bones[boneNames[j] := i];
            }
          }
          assert boneNames[..|boneNames|] == boneNames;
        }
      }
      assert nodes[..|nodes|] == nodes;
      ShouldersNeverIndexed(nodes);
      forall t
        ensures t in bones <==> t in old(bones) || (t in BoneNames && LastBone(nodes, t).Some?)
        ensures t in bones ==>
                  bones[t] == if t in BoneNames && LastBone(nodes, t).Some? then LastBone(nodes, t).value
                              else old(bones)[t]
      {
        BoneScanIsLastBone(old(bones), nodes, t);
      }
    }

    /** Keeps the last mesh with influences whose name mentions a face part; the `return` in the
        traversal callback ends only that callback. */
    method FindFaceMesh()
      requires RigValid()
      modifies this`faceMesh, this`morphTargets, this`influences
      ensures RigValid()
      ensures LastFace(nodes).None? ==>
                faceMesh == old(faceMesh) && morphTargets == old(morphTargets) && influences == old(influences)
      ensures LastFace(nodes).Some? ==>
                faceMesh == LastFace(nodes) && morphTargets == DictionaryOf(nodes[faceMesh.value])
                && fresh(influences) && influences[..] == nodes[faceMesh.value].morph.value.influences
    {
      for i := 0 to |nodes|
        invariant faceMesh.Some? ==> faceMesh.value < |nodes|
        invariant DictFits(morphTargets, influences.Length)
        invariant LastFace(nodes[..i]).None? ==>
                    faceMesh == old(faceMesh) && morphTargets == old(morphTargets) && influences == old(influences)
        invariant LastFace(nodes[..i]).Some? ==>
                    faceMesh == LastFace(nodes[..i]) && morphTargets == DictionaryOf(nodes[faceMesh.value])
                    && fresh(influences) && influences[..] == nodes[faceMesh.value].morph.value.influences
      {
        assert nodes[..i + 1][..i] == nodes[..i];
        var child := nodes[i];
        if FaceCandidate(child) {
          assert WellFormedNode(child);
          faceMesh := Some(i);
          morphTargets := DictionaryOf(child);
          var source := child.morph.value.influences;
          influences := new real[|source|](k requires 0 <= k < |source| => source[k]);
        }
      }
      assert nodes[..|nodes|] == nodes;
    }

    /** Registers one action per clip under its role (by name) and its lower-cased name, then
        plays the professional action if one was registered. */
    method SetupBusinessAnimations(clips: seq<string>)
      requires HandlesFit(actions, |handles|)
      modifies this`hasMixer, this`handles, this`actions
      ensures HandlesFit(actions, |handles|)
      ensures hasMixer && |handles| == |old(handles)| + |clips|
      ensures actions == ClipTable(old(actions), |old(handles)|, clips)
      ensures handles == PlayIfPresent(old(handles) + NewActions(clips), actions, PROFESSIONAL)
    {
      hasMixer := true;
      ghost var base := |handles|;
      for i := 0 to |clips|
        invariant hasMixer
        invariant HandlesFit(actions, |handles|) && |handles| == base + i
        invariant handles == old(handles) + NewActions(clips[..i])
        invariant actions == ClipTable(old(actions), base, clips[..i])
      {
        assert clips[..i + 1][..i] == clips[..i];
        var action := |handles|;
        handles := handles + [NewAction(clips[i])];
        assert handles == old(handles) + NewActions(clips[..i + 1]);
        var animName := ToLower(clips[i]);
        var role := ClipRole(animName);
        if role.Some? {
          actions := actions[role.value := action];
        }
        actions := actions[animName := action];
        ClipTableHandles(old(actions), base, clips[..i + 1], base);
      }
      assert clips[..|clips|] == clips;
      if PROFESSIONAL in actions {
        handles := handles[actions[PROFESSIONAL] := handles[actions[PROFESSIONAL]].(playing := true)];
      }
    }

    /** Builds the procedural actions: a breathing loop (played), shoulder gestures when both
        shoulder bones are known, and a spine lean when the spine is known. */
    method CreateBusinessAnimations()
      requires HandlesFit(actions, |handles|)
      modifies this`hasMixer, this`handles, this`actions
      ensures HandlesFit(actions, |handles|)
      ensures model.None? ==> handles == old(handles) && actions == old(actions) && hasMixer == old(hasMixer)
      ensures model.Some? ==>
                hasMixer
                && handles == old(handles) + [NewAction(PROFESSIONAL).(playing := true)]
                              + GestureActions(bones) + LeanActions(bones)
                && actions == old(actions)[PROFESSIONAL := |old(handles)|]
                              + GestureKeys(bones, |old(handles)| + 1)
                              + LeanKeys(bones, |old(handles)| + 1 + |GestureActions(bones)|)
    {
      if model.None? {
        return;
      }
      hasMixer := true;
      CreateProfessionalBreathing();
      CreateBusinessGestures();
      CreatePresentationAnimations();
    }

    /** Registers the looping breathing action under `professional` and plays it. */
    method CreateProfessionalBreathing()
      requires HandlesFit(actions, |handles|)
      modifies this`handles, this`actions
      ensures HandlesFit(actions, |handles|)
      ensures handles == old(handles) + [NewAction(PROFESSIONAL).(playing := true)]
      ensures actions == old(actions)[PROFESSIONAL := |old(handles)|]
    {
      var action := |handles|;
      handles := handles + [NewAction(PROFESSIONAL).(playing := true)];
      actions := actions[PROFESSIONAL := action];
    }

    /** Registers the shoulder gesture under `presenting` when both shoulder bones are known. */
    method CreateBusinessGestures()
      requires HandlesFit(actions, |handles|)
      modifies this`handles, this`actions
      ensures HandlesFit(actions, |handles|)
      ensures handles == old(handles) + GestureActions(bones)
      ensures actions == old(actions) + GestureKeys(bones, |old(handles)|)
    {
      if "leftShoulder" in bones && "rightShoulder" in bones {
        var action := |handles|;
        handles := handles + [NewAction(PRESENTING)];
        actions := actions[PRESENTING := action];
      }
    }

    /** Registers the spine lean under `attentive` when the spine bone is known. */
    method CreatePresentationAnimations()
      requires HandlesFit(actions, |handles|)
      modifies this`handles, this`actions
      ensures HandlesFit(actions, |handles|)
      ensures handles == old(handles) + LeanActions(bones)
      ensures actions == old(actions) + LeanKeys(bones, |old(handles)|)
    {
      if "spine" in bones {
        var action := |handles|;
        handles := handles + [NewAction(ATTENTIVE)];
        actions := actions[ATTENTIVE := action];
      }
    }

    /** `setupBusinessCharacter`: adopt the loaded scene, index it, set up its actions, pose it
        and attach it. */
    method SetupBusinessCharacter(gltf: Gltf)
      requires Valid() && Unloaded() && WellFormedGltf(gltf)
      modifies this`model, this`nodes, this`bones, this`faceMesh, this`morphTargets, this`influences
      modifies this`hasMixer, this`handles, this`actions, this`sceneChildren
      ensures Valid()
      ensures model == Some(LoadedScene) && sceneChildren == old(sceneChildren) + [LoadedScene]
      ensures hasMixer && |nodes| == |gltf.nodes|
      ensures forall t :: t in bones <==> t in BoneNames && LastBone(gltf.nodes, t).Some?
      ensures forall t :: t in bones ==> bones[t] == LastBone(gltf.nodes, t).value
      ensures faceMesh == LastFace(gltf.nodes)
      ensures faceMesh.Some? ==>
                morphTargets == DictionaryOf(gltf.nodes[faceMesh.value])
                && influences[..] == gltf.nodes[faceMesh.value].morph.value.influences
      // the professional posture turns the spine bone, when one was found, and nothing else
      ensures "spine" !in bones ==> nodes == gltf.nodes
      ensures "spine" in bones ==>
                nodes == gltf.nodes[bones["spine"] := Posed(gltf.nodes[bones["spine"]], PROFESSIONAL)]
      // a file with clips gets one action per clip and plays its professional one
      ensures |gltf.clips| > 0 ==>
                |handles| == |gltf.clips| && actions == ClipTable(map[], 0, gltf.clips)
                && handles == PlayIfPresent(NewActions(gltf.clips), actions, PROFESSIONAL)
      // a file without clips gets the procedural breathing, gesture and lean actions
      ensures |gltf.clips| == 0 ==>
                handles == [NewAction(PROFESSIONAL).(playing := true)] + GestureActions(bones) + LeanActions(bones)
                && actions == map[PROFESSIONAL := 0] + GestureKeys(bones, 1)
                              + LeanKeys(bones, 1 + |GestureActions(bones)|)
    {
      model := Some(LoadedScene);
      nodes := gltf.nodes;
      IndexScene();
      SetupActions(gltf.clips);
      SetBusinessPosture(PROFESSIONAL);
      sceneChildren := sceneChildren + [LoadedScene];
    }

    /** The two scans `setupBusinessCharacter` runs over a freshly adopted scene graph. */
    method IndexScene()
      requires RigValid() && bones == map[] && faceMesh.None?
      modifies this`bones, this`faceMesh, this`morphTargets, this`influences
      ensures RigValid()
      ensures forall t :: t in bones <==> t in BoneNames && LastBone(nodes, t).Some?
      ensures forall t :: t in bones ==> bones[t] == LastBone(nodes, t).value
      ensures faceMesh == LastFace(nodes)
      ensures faceMesh.Some? ==>
                morphTargets == DictionaryOf(nodes[faceMesh.value])
                && influences[..] == nodes[faceMesh.value].morph.value.influences
    {
      FindImportantBones();
      FindFaceMesh();
    }

    /** The animation step of `setupBusinessCharacter`: the file's clips when it has any, the
        procedural actions otherwise. */
    method SetupActions(clips: seq<string>)
      requires model.Some? && handles == [] && actions == map[]
      modifies this`hasMixer, this`handles, this`actions
      ensures HandlesFit(actions, |handles|) && hasMixer
      ensures |clips| > 0 ==>
                |handles| == |clips| && actions == ClipTable(map[], 0, clips)
                && handles == PlayIfPresent(NewActions(clips), actions, PROFESSIONAL)
      ensures |clips| == 0 ==>
                handles == [NewAction(PROFESSIONAL).(playing := true)] + GestureActions(bones) + LeanActions(bones)
                && actions == map[PROFESSIONAL := 0] + GestureKeys(bones, 1)
                              + LeanKeys(bones, 1 + |GestureActions(bones)|)
    {
      if |clips| > 0 {
        assert [] + NewActions(clips) == NewActions(clips);
        SetupBusinessAnimations(clips);
      } else {
        assert map[][PROFESSIONAL := 0] == map[PROFESSIONAL := 0];
        CreateBusinessAnimations();
      }
    }

    /** Attaches a new placeholder group and then calls `createCustomAnimations`, which the class
        does not define: the call always throws a TypeError. */
    method CreateFallbackBusinessCharacter() returns (threw: bool)
      modifies this`model, this`sceneChildren, this`fallbacksBuilt
      ensures model == Some(FallbackGroup(old(fallbacksBuilt)))
      ensures sceneChildren == old(sceneChildren) + [FallbackGroup(old(fallbacksBuilt))]
      ensures fallbacksBuilt == old(fallbacksBuilt) + 1
      ensures threw
    {
      model := Some(FallbackGroup(fallbacksBuilt));
      sceneChildren := sceneChildren + [FallbackGroup(fallbacksBuilt)];
      fallbacksBuilt := fallbacksBuilt + 1;
      threw := true;
    }

    /** The staged load: probe, loader check, GLB load, setup; a failure of the first three goes
        to the fallback. Setup on a loaded file is taken to succeed: a well-formed file, as the
        precondition demands, gives it nothing to throw on. `threw` is the exception that
        escapes the method. */
    method LoadBusinessCharacter(env: LoadEnv) returns (threw: bool)
      requires Valid() && Unloaded() && (env.glb.Some? ==> WellFormedGltf(env.glb.value))
      modifies this`model, this`nodes, this`bones, this`faceMesh, this`morphTargets, this`influences
      modifies this`hasMixer, this`handles, this`actions, this`sceneChildren, this`fallbacksBuilt
      modifies this`isLoading
      ensures Valid()
      ensures LoadSucceeds(env) ==>
                !threw && !isLoading && sceneChildren == old(sceneChildren) + [LoadedScene]
                && fallbacksBuilt == old(fallbacksBuilt)
      ensures !LoadSucceeds(env) ==>
                threw && isLoading && sceneChildren == old(sceneChildren) + [FallbackGroup(old(fallbacksBuilt))]
                && fallbacksBuilt == old(fallbacksBuilt) + 1 && !Unloaded()
      ensures LoadSucceeds(env) ==> model == Some(LoadedScene)
      ensures !LoadSucceeds(env) ==>
                model == Some(FallbackGroup(old(fallbacksBuilt)))
                && nodes == [] && bones == map[] && faceMesh.None? && handles == [] && actions == map[]
    {
      isLoading := true;
      var failed := false;
      if !env.probeOk {
        failed := true;
      } else if !env.loaderAvailable {
        failed := true;
      } else if env.glb.None? {
        failed := true;
      } else {
        SetupBusinessCharacter(env.glb.value);
      }
      if failed {
        var fallbackThrew := CreateFallbackBusinessCharacter();
        if fallbackThrew {
          return true;
        }
      }
      isLoading := false;
      threw := false;
    }

    /** `init`: the loader stage, then the load; a failure of either goes to the fallback.
        `rejected` says whether the promise of `init` (which nobody awaits) rejects. */
    method Init(env: LoadEnv) returns (rejected: bool)
      requires Valid() && Unloaded() && !isLoading && (env.glb.Some? ==> WellFormedGltf(env.glb.value))
      modifies this`model, this`nodes, this`bones, this`faceMesh, this`morphTargets, this`influences
      modifies this`hasMixer, this`handles, this`actions, this`sceneChildren, this`fallbacksBuilt
      modifies this`isLoading
      ensures Valid()
      ensures var report := InitAsWritten(env, old(fallbacksBuilt));
              sceneChildren == old(sceneChildren) + report.attached
              && model == Some(report.attached[|report.attached| - 1])
              && isLoading == report.isLoading && rejected == report.rejected
    {
      var threw := false;
      if !env.loaderAvailable {
        threw := true;
      } else {
        threw := LoadBusinessCharacter(env);
      }
      if threw {
        rejected := CreateFallbackBusinessCharacter();
      } else {
        rejected := false;
      }
    }

    /** Stops every action and detaches the current model from the scene. */
    method Destroy()
      modifies this`handles, this`sceneChildren
      ensures hasMixer ==> |handles| == |old(handles)|
                           && forall i :: 0 <= i < |handles| ==> handles[i] == Stopped(old(handles)[i])
      ensures !hasMixer ==> handles == old(handles)
      ensures model.Some? ==> sceneChildren == RemoveFirst(old(sceneChildren), model.value)
      ensures model.None? ==> sceneChildren == old(sceneChildren)
    {
      if hasMixer {
        var running := handles;
        handles := seq(|running|, i requires 0 <= i < |running| => Stopped(running[i]));
      }
      if model.Some? {
        sceneChildren := RemoveFirst(sceneChildren, model.value);
      }
    }
  }

  /** Because `currentState` holds the role while the guard compares the semantic input,
      a second `setState('talking')` is not a no-op: it fades the presenting action back in and
      rewrites the face, wiping what lip sync wrote in between. */
  method TalkingTwiceReplays(avatar: BusinessCharacter, data: seq<int>) returns (lipSynced: seq<real>)
    requires avatar.Valid() && avatar.currentState == C.IDLE && PRESENTING in avatar.actions
    requires avatar.faceMesh.Some? && data != []
    modifies avatar`currentState, avatar`handles, avatar`context, avatar.influences
    ensures avatar.Valid() && avatar.currentState == PRESENTING && PRESENTING in avatar.actions
    ensures var h := avatar.handles[avatar.actions[PRESENTING]];
            h.playing && h.fadingIn && !h.fadingOut
    // between the calls the face carried the lip-sync writes over the talking expression ...
    ensures lipSynced == LipSyncInfluences(ExpressionInfluences(avatar.influences.Length, avatar.morphTargets, C.TALKING),
                                           avatar.morphTargets, Some(data), true, true)
    // ... and the second call put the bare expression back
    ensures avatar.influences[..] == ExpressionInfluences(avatar.influences.Length, avatar.morphTargets, C.TALKING)
  {
    lipSynced := TalkAndLipSync(avatar, data);
    avatar.SetState(C.TALKING);
  }

  /** The first half of `TalkingTwiceReplays`: talking from idle, then one lip-sync frame. */
  method TalkAndLipSync(avatar: BusinessCharacter, data: seq<int>) returns (lipSynced: seq<real>)
    requires avatar.Valid() && avatar.currentState == C.IDLE && PRESENTING in avatar.actions
    requires avatar.faceMesh.Some? && data != []
    modifies avatar`currentState, avatar`handles, avatar`context, avatar.influences
    ensures avatar.Valid() && avatar.currentState == PRESENTING
    ensures lipSynced == avatar.influences[..]
    ensures lipSynced == LipSyncInfluences(ExpressionInfluences(avatar.influences.Length, avatar.morphTargets, C.TALKING),
                                           avatar.morphTargets, Some(data), true, true)
  {
    avatar.SetState(C.TALKING);
    var threw := avatar.UpdateLipSync(Some(data));
    lipSynced := avatar.influences[..];
  }

  /** The audio data the app hands the avatar never reaches its face: after storing it, the
      next frame leaves every morph influence as it was. */
  method AudioDataNeverReachesFace(avatar: BusinessCharacter, audio: seq<real>,
                                   pointer: Option<(real, real)>, wave: real)
    requires avatar.RigValid()
    modifies avatar`currentAudioData, avatar`nodes
    ensures avatar.currentAudioData == Some(audio)
    ensures avatar.influences[..] == old(avatar.influences[..])
    ensures avatar.faceMesh == old(avatar.faceMesh) && avatar.morphTargets == old(avatar.morphTargets)
  {
    avatar.currentAudioData := Some(audio);
    avatar.Update(pointer, wave);
  }
}
