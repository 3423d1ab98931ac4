/** The tables and name-matching rules of the business avatar (src/js/3d/businessCharacter.js):
    the semantic-state to clip-role map, the morph-target spellings, the expression and
    context tables, and the name scans that index bones, the face mesh and clips. */
module BusinessRules {
  import opened Wrappers
  import opened Text
  import opened AudioMath
  import C = Constants

  // Clip roles: the keys `setState` looks actions up under.
  const PROFESSIONAL: string := "professional"
  const PRESENTING: string := "presenting"
  const ATTENTIVE: string := "attentive"
  const ANALYZING: string := "analyzing"

  const Roles: set<string> := {PROFESSIONAL, PRESENTING, ATTENTIVE, ANALYZING}

  /** `businessStateMap[newState] || 'professional'`. */
  function RoleOf(state: string): (r: string)
    ensures r in Roles
    ensures r == PRESENTING <==> state == C.TALKING
    ensures r == ATTENTIVE <==> state == C.LISTENING
    ensures r == ANALYZING <==> state == C.THINKING
  {
    if state == C.IDLE then PROFESSIONAL
    else if state == C.TALKING then PRESENTING
    else if state == C.LISTENING then ATTENTIVE
    else if state == C.THINKING then ANALYZING
    else PROFESSIONAL
  }

  /** No role is spelled like a character state, so once a role is stored in `currentState`,
      the same-state guard of `setState` can never fire for a semantic state. */
  lemma RoleNeverCharacterState(s: string)
    ensures RoleOf(s) !in C.CharacterStates
  {
  }

  // ---------------------------------------------------------------- morph-target names

  /** `name.replace(/([A-Z])/g, sep + '$1')`: a separator before every ASCII capital, built as
      the concatenation of one chunk per character. */
  function Separated(name: string, sep: char): string
  {
    Concat(Chunks(name, sep))
  }

  function Chunks(name: string, sep: char): seq<string>
  {
    seq(|name|, i requires 0 <= i < |name| => Chunk(name[i], sep))
  }

  /** What the replacement turns one character into. */
  function Chunk(c: char, sep: char): string
  {
    if IsAsciiUpper(c) then [sep, c] else [c]
  }

  /** The spelling of a name is its first character's chunk followed by the spelling of the rest. */
  lemma SeparatedCons(name: string, sep: char)
    requires name != []
    ensures Separated(name, sep) == Chunk(name[0], sep) + Separated(name[1..], sep)
  {
    assert Chunks(name, sep)[1..] == Chunks(name[1..], sep);
  }

  /** Every occurrence of `c` removed. */
  function Strip(s: string, c: char): string
  {
    if s == [] then [] else (if s[0] == c then [] else [s[0]]) + Strip(s[1..], c)
  }

  /** Removing the inserted separators gives the name back: the spelling only inserts. */
  lemma {:induction false} SeparatedRoundTrip(name: string, sep: char)
    requires sep !in name && !IsAsciiUpper(sep)
    ensures Strip(Separated(name, sep), sep) == name
  {
    if name != [] {
      SeparatedRoundTrip(name[1..], sep);
      SeparatedCons(name, sep);
      StripAppend(Chunk(name[0], sep), Separated(name[1..], sep), sep);
    }
  }

  lemma {:induction false} StripAppend(a: string, b: string, c: char)
    ensures Strip(a + b, c) == Strip(a, c) + Strip(b, c)
  {
    if a == [] {
      assert a + b == b;
    } else {
      assert (a + b)[0] == a[0];
      assert (a + b)[1..] == a[1..] + b;
      StripAppend(a[1..], b, c);
    }
  }

  /** The four spellings `setMorphTarget` tries, in order. */
  function PossibleNames(target: string): (r: seq<string>)
    ensures |r| == 4 && r[0] == target
  {
    [target, ToLower(target), ToLower(Separated(target, '_')), ToLower(Separated(target, '-'))]
  }

  /** The index stored under the first name of `names` that the dictionary has. */
  function FirstIndex(dict: map<string, nat>, names: seq<string>): (r: Option<nat>)
    ensures r.None? <==> forall k :: 0 <= k < |names| ==> names[k] !in dict
    ensures r.Some? ==> exists k :: 0 <= k < |names| && names[k] in dict && dict[names[k]] == r.value
                                    && forall j :: 0 <= j < k ==> names[j] !in dict
  {
    if names == [] then None
    else if names[0] in dict then Some(dict[names[0]])
    else
      var r := FirstIndex(dict, names[1..]);
      assert forall k :: 1 <= k < |names| ==> names[1..][k - 1] == names[k];
      r
  }

  /** The influence slot `setMorphTarget(target, _)` writes, if any. */
  function ResolveMorphName(dict: map<string, nat>, target: string): Option<nat>
  {
    FirstIndex(dict, PossibleNames(target))
  }

  /** A dictionary whose exact key is present always resolves to that key's index,
      whatever the other spellings map to. */
  lemma ExactNameWins(dict: map<string, nat>, target: string)
    requires target in dict
    ensures ResolveMorphName(dict, target) == Some(dict[target])
  {
  }

  /** Each dictionary index addresses an influence slot. */
  predicate DictFits(dict: map<string, nat>, n: nat)
  {
    forall k :: k in dict ==> dict[k] < n
  }

  lemma ResolvedInRange(dict: map<string, nat>, target: string, n: nat)
    requires DictFits(dict, n)
    ensures ResolveMorphName(dict, target).Some? ==> ResolveMorphName(dict, target).value < n
  {
  }

  // ---------------------------------------------------------------- expressions and lip sync

  datatype Target = Target(name: string, value: real)

  /** The `switch` of `setBusinessExpression`: three weighted targets per state group. */
  function ExpressionTargets(state: string): (ts: seq<Target>)
    ensures |ts| == 3
    ensures forall k :: 0 <= k < 3 ==> 0.0 < ts[k].value <= 0.5
  {
    if state == C.TALKING || state == PRESENTING then
      [Target("mouthSmile", 0.3), Target("eyesConfident", 0.4), Target("browSlightUp", 0.2)]
    else if state == C.LISTENING || state == ATTENTIVE then
      [Target("eyesAttentive", 0.5), Target("browInterested", 0.3), Target("mouthNeutral", 0.2)]
    else if state == C.THINKING || state == ANALYZING then
      [Target("eyesFocused", 0.4), Target("browConcentrated", 0.3), Target("mouthThinking", 0.2)]
    else
      [Target("mouthProfessional", 0.2), Target("eyesAlert", 0.3), Target("browNeutral", 0.1)]
  }

  /** The influences after one `setMorphTarget(name, value)`: the resolved slot, if any, is set. */
  function Write(inf: seq<real>, dict: map<string, nat>, name: string, value: real): (r: seq<real>)
    requires DictFits(dict, |inf|)
    ensures |r| == |inf|
  {
    var slot := ResolveMorphName(dict, name);
    if slot.Some? then inf[slot.value := value] else inf
  }

  /** The influences after `setMorphTarget` has run for each target in turn. */
  function Apply(inf: seq<real>, dict: map<string, nat>, ts: seq<Target>): (r: seq<real>)
    requires DictFits(dict, |inf|)
    ensures |r| == |inf|
  {
    if ts == [] then inf
    else Write(Apply(inf, dict, ts[..|ts| - 1]), dict, ts[|ts| - 1].name, ts[|ts| - 1].value)
  }

  /** Applying one more target is one more `setMorphTarget` call. */
  lemma ApplySnoc(inf: seq<real>, dict: map<string, nat>, ts: seq<Target>, t: Target)
    requires DictFits(dict, |inf|)
    ensures Apply(inf, dict, ts + [t]) == Write(Apply(inf, dict, ts), dict, t.name, t.value)
  {
    assert (ts + [t])[..|ts|] == ts;
  }

  /** A slot that no target resolves to keeps its value. */
  lemma {:induction false} ApplyUntouched(inf: seq<real>, dict: map<string, nat>, ts: seq<Target>, i: nat)
    requires DictFits(dict, |inf|) && i < |inf|
    requires forall k :: 0 <= k < |ts| ==> ResolveMorphName(dict, ts[k].name) != Some(i)
    ensures Apply(inf, dict, ts)[i] == inf[i]
  {
    if ts != [] {
      ApplyUntouched(inf, dict, ts[..|ts| - 1], i);
    }
  }

  /** A slot holds the value of the last target that resolves to it. */
  lemma {:induction false} ApplyLastWins(inf: seq<real>, dict: map<string, nat>, ts: seq<Target>, k: nat, i: nat)
    requires DictFits(dict, |inf|) && i < |inf| && k < |ts|
    requires ResolveMorphName(dict, ts[k].name) == Some(i)
    requires forall j :: k < j < |ts| ==> ResolveMorphName(dict, ts[j].name) != Some(i)
    ensures Apply(inf, dict, ts)[i] == ts[k].value
  {
    if k < |ts| - 1 {
      ApplyLastWins(inf, dict, ts[..|ts| - 1], k, i);
    }
  }

  function Zeros(n: nat): (r: seq<real>)
    ensures |r| == n && forall i :: 0 <= i < n ==> r[i] == 0.0
  {
    seq(n, _ => 0.0)
  }

  /** The influences `setBusinessExpression(state)` leaves: all zero, then the group's targets. */
  function ExpressionInfluences(n: nat, dict: map<string, nat>, state: string): seq<real>
    requires DictFits(dict, n)
  {
    Apply(Zeros(n), dict, ExpressionTargets(state))
  }

  /** After an expression, a non-zero influence is one of the chosen targets' slots. */
  lemma ExpressionOnlyChosen(n: nat, dict: map<string, nat>, state: string, i: nat)
    requires DictFits(dict, n) && i < n
    requires ExpressionInfluences(n, dict, state)[i] != 0.0
    ensures exists k :: 0 <= k < 3 && ResolveMorphName(dict, ExpressionTargets(state)[k].name) == Some(i)
  {
    var ts := ExpressionTargets(state);
    if forall k :: 0 <= k < |ts| ==> ResolveMorphName(dict, ts[k].name) != Some(i) {
      ApplyUntouched(Zeros(n), dict, ts, i);
    }
  }

  /** After an expression, every chosen target that found a slot shows its weight there,
      unless a later target of the group resolved to the same slot. */
  lemma ExpressionChosenSet(n: nat, dict: map<string, nat>, state: string, k: nat, i: nat)
    requires DictFits(dict, n) && i < n && k < 3
    requires ResolveMorphName(dict, ExpressionTargets(state)[k].name) == Some(i)
    requires forall j :: k < j < 3 ==> ResolveMorphName(dict, ExpressionTargets(state)[j].name) != Some(i)
    ensures ExpressionInfluences(n, dict, state)[i] == ExpressionTargets(state)[k].value
  {
    ApplyLastWins(Zeros(n), dict, ExpressionTargets(state), k, i);
  }

  /** `averageLevel / 255 * 0.6`. */
  function LipIntensity(audio: seq<int>): real
    requires |audio| > 0
  {
    Mean(audio) / 255.0 * 0.6
  }

  /** The targets `updateLipSync` writes, the smile only while presenting. */
  function LipSyncTargets(intensity: real, presenting: bool): (ts: seq<Target>)
    ensures |ts| == if presenting then 3 else 2
  {
    [Target("mouthOpen", intensity), Target("jawOpen", intensity * 0.3)]
      + (if presenting then [Target("mouthSmile", 0.2 + intensity * 0.1)] else [])
  }

  /** The influences `updateLipSync(audio)` leaves: untouched without audio or face mesh (and when
      the empty array makes it throw), else the lip-sync targets applied. */
  function LipSyncInfluences(inf: seq<real>, dict: map<string, nat>, audio: Option<seq<int>>,
                             hasFace: bool, presenting: bool): (r: seq<real>)
    requires DictFits(dict, |inf|)
    ensures |r| == |inf|
  {
    if audio.None? || !hasFace || audio.value == [] then inf
    else Apply(inf, dict, LipSyncTargets(LipIntensity(audio.value), presenting))
  }

  /** For byte magnitudes the mouth opens at most 0.6, the jaw at most 0.18,
      and the presenting smile stays within [0.2, 0.26]. */
  lemma LipSyncBounds(audio: seq<int>, presenting: bool)
    requires |audio| > 0 && InByteRange(audio)
    ensures 0.0 <= LipIntensity(audio) <= 0.6
    ensures var ts := LipSyncTargets(LipIntensity(audio), presenting);
            0.0 <= ts[1].value <= 0.18 && ts[1].value == 0.3 * ts[0].value
            && (presenting ==> 0.2 <= ts[2].value <= 0.26)
  {
    MeanOfBytes(audio);
  }

  /** A louder input never gives a smaller mouth opening. */
  lemma LipSyncMonotone(a: seq<int>, b: seq<int>)
    requires |a| > 0 && |b| > 0 && Mean(a) <= Mean(b)
    ensures LipIntensity(a) <= LipIntensity(b)
  {
  }

  // ---------------------------------------------------------------- business context

  datatype BusinessContext = BusinessContext(mood: string, posture: string, engagement: string)

  const ReadyContext := BusinessContext("professional", "upright", "ready")

  /** The `switch` of `updateBusinessContext`, which is keyed on role names. */
  function ContextFor(state: string): (r: BusinessContext)
    ensures r != ReadyContext <==> state in {PRESENTING, ATTENTIVE, ANALYZING}
  {
    if state == PRESENTING then BusinessContext("confident", "upright", "active")
    else if state == ATTENTIVE then BusinessContext("focused", "leaning", "listening")
    else if state == ANALYZING then BusinessContext("thoughtful", "relaxed", "thinking")
    else ReadyContext
  }

  /** `setState` passes the semantic name, so every call from it yields the default context. */
  lemma SemanticStatesGiveReadyContext(s: string)
    requires s in C.CharacterStates
    ensures ContextFor(s) == ReadyContext
  {
  }

  // ---------------------------------------------------------------- scene graph scans

  datatype MorphData = MorphData(dictionary: Option<map<string, nat>>, influences: seq<real>)

  /** One object of the loaded scene as `traverse` visits it (pre-order). */
  datatype SceneNode = SceneNode(name: string, isBone: bool, isMesh: bool, morph: Option<MorphData>,
                                 rotationX: real, rotationY: real, rotationZ: real, positionY: real)

  /** A loaded mesh's morph dictionary addresses its own influence array. */
  predicate WellFormedNode(node: SceneNode)
  {
    node.morph.Some? && node.morph.value.dictionary.Some? ==>
      DictFits(node.morph.value.dictionary.value, |node.morph.value.influences|)
  }

  const BoneNames: seq<string> := ["head", "neck", "spine", "leftShoulder", "rightShoulder"]

  predicate BoneMatches(node: SceneNode, target: string)
  {
    node.isBone && Contains(ToLower(node.name), target)
  }

  /** The traversal index `findImportantBones` leaves under `target`: the last matching bone. */
  function LastBone(nodes: seq<SceneNode>, target: string): (r: Option<nat>)
    ensures r.Some? ==> r.value < |nodes| && BoneMatches(nodes[r.value], target)
                        && forall j :: r.value < j < |nodes| ==> !BoneMatches(nodes[j], target)
    ensures r.None? ==> forall j :: 0 <= j < |nodes| ==> !BoneMatches(nodes[j], target)
  {
    if nodes == [] then None
    else if BoneMatches(nodes[|nodes| - 1], target) then Some(|nodes| - 1)
    else LastBone(nodes[..|nodes| - 1], target)
  }

  /** One bone's pass over the target list: each target its lower-cased name contains is
      bound to the bone's traversal index. */
  function MatchTargets(bones: map<string, nat>, lowered: string, idx: nat, targets: seq<string>): map<string, nat>
  {
    if targets == [] then bones
    else
      var m := MatchTargets(bones, lowered, idx, targets[..|targets| - 1]);
      if Contains(lowered, targets[|targets| - 1]) then m[targets[|targets| - 1] := idx] else m
  }

  /** The bone table after `findImportantBones` has traversed `nodes`. */
  function BoneScan(bones: map<string, nat>, nodes: seq<SceneNode>): map<string, nat>
  {
    if nodes == [] then bones
    else
      var m := BoneScan(bones, nodes[..|nodes| - 1]);
      var node := nodes[|nodes| - 1];
      if node.isBone then MatchTargets(m, ToLower(node.name), |nodes| - 1, BoneNames) else m
  }

  lemma {:induction false} MatchTargetsPointwise(bones: map<string, nat>, lowered: string, idx: nat,
                                                 targets: seq<string>, t: string)
    ensures t in MatchTargets(bones, lowered, idx, targets) <==> t in bones || (t in targets && Contains(lowered, t))
    ensures t in MatchTargets(bones, lowered, idx, targets) ==>
              MatchTargets(bones, lowered, idx, targets)[t] == if t in targets && Contains(lowered, t) then idx else bones[t]
  {
    if targets != [] {
      MatchTargetsPointwise(bones, lowered, idx, targets[..|targets| - 1], t);
      assert targets == targets[..|targets| - 1] + [targets[|targets| - 1]];
    }
  }

  /** The traversal leaves, under each bone target, the last bone whose name contains it;
      targets no bone matches keep their earlier entry. */
  lemma {:induction false} BoneScanIsLastBone(bones: map<string, nat>, nodes: seq<SceneNode>, t: string)
    ensures t in BoneScan(bones, nodes) <==> t in bones || (t in BoneNames && LastBone(nodes, t).Some?)
    ensures t in BoneScan(bones, nodes) ==>
              BoneScan(bones, nodes)[t] == if t in BoneNames && LastBone(nodes, t).Some? then LastBone(nodes, t).value
                                           else bones[t]
  {
    if nodes != [] {
      var pre := nodes[..|nodes| - 1];
      var node := nodes[|nodes| - 1];
      BoneScanIsLastBone(bones, pre, t);
      if node.isBone {
        MatchTargetsPointwise(BoneScan(bones, pre), ToLower(node.name), |nodes| - 1, BoneNames, t);
      }
    }
  }

  /** A target spelled with a capital never occurs in a lower-cased name. */
  lemma CapitalTargetNeverMatches(node: SceneNode, target: string, k: nat)
    requires k < |target| && IsAsciiUpper(target[k])
    ensures !BoneMatches(node, target)
  {
    LoweredHasNoCapital(node.name, target[k]);
    MissingCharNotContained(ToLower(node.name), target, target[k]);
  }

  /** The shoulder entries of the bone list can never be found. */
  lemma ShouldersNeverIndexed(nodes: seq<SceneNode>)
    ensures LastBone(nodes, "leftShoulder").None?
    ensures LastBone(nodes, "rightShoulder").None?
  {
    forall j | 0 <= j < |nodes|
      ensures !BoneMatches(nodes[j], "leftShoulder") && !BoneMatches(nodes[j], "rightShoulder")
    {
      CapitalTargetNeverMatches(nodes[j], "leftShoulder", 4);
      CapitalTargetNeverMatches(nodes[j], "rightShoulder", 5);
    }
  }

  /** A mesh with influences whose lower-cased name mentions head, face, eyes or mouth. */
  predicate FaceCandidate(node: SceneNode)
  {
    var lowered := ToLower(node.name);
    node.isMesh && node.morph.Some?
    && (Contains(lowered, "head") || Contains(lowered, "face") || Contains(lowered, "eyes") || Contains(lowered, "mouth"))
  }

  /** The face mesh `findFaceMesh` keeps: the `return` inside the callback does not stop the
      traversal, so it is the LAST candidate, not the first. */
  function LastFace(nodes: seq<SceneNode>): (r: Option<nat>)
    ensures r.Some? ==> r.value < |nodes| && FaceCandidate(nodes[r.value])
                        && forall j :: r.value < j < |nodes| ==> !FaceCandidate(nodes[j])
    ensures r.None? ==> forall j :: 0 <= j < |nodes| ==> !FaceCandidate(nodes[j])
  {
    if nodes == [] then None
    else if FaceCandidate(nodes[|nodes| - 1]) then Some(|nodes| - 1)
    else LastFace(nodes[..|nodes| - 1])
  }

  /** `child.morphTargetDictionary || {}`. */
  function DictionaryOf(node: SceneNode): map<string, nat>
    requires node.morph.Some?
  {
    if node.morph.value.dictionary.Some? then node.morph.value.dictionary.value else map[]
  }

  // ---------------------------------------------------------------- clip registration

  /** The role a clip plays, judged by its lower-cased name in the source's order of tests. */
  function ClipRole(lowered: string): (r: Option<string>)
    ensures r.Some? ==> r.value in Roles
  {
    if Contains(lowered, "idle") || Contains(lowered, "standing") then Some(PROFESSIONAL)
    else if Contains(lowered, "talk") || Contains(lowered, "speak") then Some(PRESENTING)
    else if Contains(lowered, "listen") then Some(ATTENTIVE)
    else if Contains(lowered, "think") then Some(ANALYZING)
    else None
  }

  /** One iteration of `animations.forEach`: the role key, then the lower-cased name key. */
  function RegisterClip(actions: map<string, nat>, name: string, handle: nat): map<string, nat>
  {
    var lowered := ToLower(name);
    var role := ClipRole(lowered);
    (if role.Some? then actions[role.value := handle] else actions)[lowered := handle]
  }

  /** The action table after registering `clips`, the k-th clip getting handle `base + k`. */
  function ClipTable(actions: map<string, nat>, base: nat, clips: seq<string>): map<string, nat>
  {
    if clips == [] then actions
    else RegisterClip(ClipTable(actions, base, clips[..|clips| - 1]), clips[|clips| - 1], base + |clips| - 1)
  }

  /** A clip binds a key when its lower-cased name is the key or its role is the key. */
  predicate Binds(name: string, key: string)
  {
    ToLower(name) == key || ClipRole(ToLower(name)) == Some(key)
  }

  function LastBinding(clips: seq<string>, key: string): (r: Option<nat>)
    ensures r.Some? ==> r.value < |clips| && Binds(clips[r.value], key)
                        && forall j :: r.value < j < |clips| ==> !Binds(clips[j], key)
    ensures r.None? ==> forall j :: 0 <= j < |clips| ==> !Binds(clips[j], key)
  {
    if clips == [] then None
    else if Binds(clips[|clips| - 1], key) then Some(|clips| - 1)
    else LastBinding(clips[..|clips| - 1], key)
  }

  /** The registration loop amounts to: every key ends up with the handle of the last clip that
      binds it, and keys no clip binds keep their earlier handle. */
  lemma {:induction false} ClipTableIsLastBinding(actions: map<string, nat>, base: nat, clips: seq<string>, key: string)
    ensures key in ClipTable(actions, base, clips) <==> key in actions || LastBinding(clips, key).Some?
    ensures LastBinding(clips, key).Some? ==>
              ClipTable(actions, base, clips)[key] == base + LastBinding(clips, key).value
    ensures LastBinding(clips, key).None? && key in actions ==>
              ClipTable(actions, base, clips)[key] == actions[key]
  {
    if clips != [] {
      ClipTableIsLastBinding(actions, base, clips[..|clips| - 1], key);
    }
  }

  /** Registration only stores handles of the registered clips. */
  lemma {:induction false} ClipTableHandles(actions: map<string, nat>, base: nat, clips: seq<string>, bound: nat)
    requires forall k :: k in actions ==> actions[k] < bound
    requires bound <= base
    ensures forall k :: k in ClipTable(actions, base, clips) ==> ClipTable(actions, base, clips)[k] < base + |clips|
  {
    if clips != [] {
      ClipTableHandles(actions, base, clips[..|clips| - 1], bound);
    }
  }

  // ---------------------------------------------------------------- posture

  /** `setBusinessPosture` applied to the spine bone. */
  function Posed(spine: SceneNode, posture: string): (r: SceneNode)
    ensures r.name == spine.name && r.isBone == spine.isBone && r.isMesh == spine.isMesh && r.morph == spine.morph
    ensures posture !in {PROFESSIONAL, PRESENTING, ATTENTIVE} ==> r == spine
    ensures posture != PROFESSIONAL ==> r.rotationZ == spine.rotationZ
  {
    if posture == PROFESSIONAL then spine.(rotationX := 0.0, rotationZ := 0.0)
    else if posture == PRESENTING then spine.(rotationX := -0.05)
    else if posture == ATTENTIVE then spine.(rotationX := 0.03)
    else spine
  }

  // ---------------------------------------------------------------- per-frame head motion

  const GAZE_INTENSITY: real := 0.05
  const GAZE_STEP: real := 0.1
  const BOB_AMPLITUDE: real := 0.001

  /** `THREE.MathUtils.lerp`. */
  function Lerp(a: real, b: real, t: real): real
  {
    a + (b - a) * t
  }

  /** `updateGaze` on the head bone: each rotation closes a tenth of its gap to the pointer's
      target, and nothing else about the bone changes. */
  function Gazed(head: SceneNode, mouseX: real, mouseY: real): (r: SceneNode)
    ensures r.name == head.name && r.isBone == head.isBone && r.isMesh == head.isMesh && r.morph == head.morph
    ensures r.rotationZ == head.rotationZ && r.positionY == head.positionY
    ensures r.rotationY - mouseX * GAZE_INTENSITY == 0.9 * (head.rotationY - mouseX * GAZE_INTENSITY)
    ensures r.rotationX - mouseY * GAZE_INTENSITY * 0.5 == 0.9 * (head.rotationX - mouseY * GAZE_INTENSITY * 0.5)
  {
    head.(rotationY := Lerp(head.rotationY, mouseX * GAZE_INTENSITY, GAZE_STEP),
          rotationX := Lerp(head.rotationX, mouseY * GAZE_INTENSITY * 0.5, GAZE_STEP))
  }

  /** `updateBusinessBehavior`'s bob: `wave` is `Math.sin(time * 0.5)` for the current clock. */
  function Bobbed(head: SceneNode, wave: real): (r: SceneNode)
    ensures r.name == head.name && r.isBone == head.isBone && r.isMesh == head.isMesh && r.morph == head.morph
    ensures r.rotationX == head.rotationX && r.rotationY == head.rotationY && r.rotationZ == head.rotationZ
    ensures -1.0 <= wave <= 1.0 ==> -BOB_AMPLITUDE <= r.positionY - head.positionY <= BOB_AMPLITUDE
  {
    head.(positionY := head.positionY + wave * BOB_AMPLITUDE)
  }

  /** One `update()` frame on the head bone: the gaze when the pointer is known, then the bob
      when the current state is the professional role. */
  function HeadFrame(head: SceneNode, pointer: Option<(real, real)>, wave: real, professional: bool): (r: SceneNode)
    ensures r.name == head.name && r.isBone == head.isBone && r.isMesh == head.isMesh && r.morph == head.morph
    ensures r.rotationZ == head.rotationZ
    ensures pointer.None? && !professional ==> r == head
  {
    var gazed := if pointer.Some? then Gazed(head, pointer.value.0, pointer.value.1) else head;
    if professional then Bobbed(gazed, wave) else gazed
  }

  /** Following a still pointer, the gaze gap shrinks by a factor 0.9 per frame. */
  function GazeFrames(head: SceneNode, mouseX: real, mouseY: real, frames: nat): SceneNode
    decreases frames
  {
    if frames == 0 then head else Gazed(GazeFrames(head, mouseX, mouseY, frames - 1), mouseX, mouseY)
  }

  function Power(x: real, n: nat): real
  {
    if n == 0 then 1.0 else x * Power(x, n - 1)
  }

  lemma {:induction false} GazeConverges(head: SceneNode, mouseX: real, mouseY: real, frames: nat)
    ensures var r := GazeFrames(head, mouseX, mouseY, frames);
            r.rotationY - mouseX * GAZE_INTENSITY == Power(0.9, frames) * (head.rotationY - mouseX * GAZE_INTENSITY)
            && r.rotationX - mouseY * GAZE_INTENSITY * 0.5
               == Power(0.9, frames) * (head.rotationX - mouseY * GAZE_INTENSITY * 0.5)
            && r.positionY == head.positionY && r.rotationZ == head.rotationZ
  {
    if frames > 0 {
      GazeConverges(head, mouseX, mouseY, frames - 1);
    }
  }
}
