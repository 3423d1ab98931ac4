# Business avatar chatbot: a verified model of its decision logic

The application is a Korean-language browser chatbot. A 3D business avatar (Three.js) or a 2D CSS
avatar answers typed or spoken messages: Web Speech recognition feeds in, speech synthesis reads the
answers aloud, and the avatar changes state, expression and mouth shape as the conversation goes.

This project models, in Dafny, the parts of that program that decide something:

- the business avatar of `src/js/3d/businessCharacter.js`: its state machine from semantic states
  to clip roles, the morph-target name resolution, the blend-shape expression and lip-sync writes,
  the bone / face-mesh / clip indexers over the scene traversal, and the load-or-fallback pipeline
  (modules `BusinessRules`, for the tables and pure rules, and `BusinessAvatar`, for the class);
- the two procedural avatars both called `Character3D` (`Scene.Character3D` for
  `src/js/3d/scene.js`, `BasicAvatar.Character3D` for `src/js/3d/character3d.js`), and the
  `ThreeScene` host that chooses an avatar class and runs the frame loop (`Scene.ThreeScene`);
- the 2D avatar of `src/js/character.js`: its class-list state machine, its mouth-shape classes and
  its interval bookkeeping (`Character2D`);
- the speech helpers: the text-to-speech sentence chunker, setting clamps, voice choice, emotion
  tones and `speak` guards (`Tts`), and the recognition handlers, transcript accumulation, error
  mapping, microphone setup and audio level of speech-to-text (`Stt`);
- the keyword classifiers and audio utilities of `src/js/utils/dom.js` (`DomUtils`) and of
  `src/js/main.js` (`ChatbotApp`);
- the constants of `config/constants.js` (`Constants`).

Shared helpers: `Wrappers` (`Option`, the spread merge of one key), `Text` (the JavaScript string
operations the code relies on: `includes`, `trim`, ASCII `toLowerCase`, `split` on a character
class, `join`), `AudioMath` (sums and means of magnitude arrays, JavaScript division with its
infinities and NaN, `Math.floor(Math.random() * n)`), and `Mixer` (the flags of a Three.js
animation action that the state machines touch).

Objects that the source updates in place are Dafny classes with `modifies` clauses; tables and
mappings are functions; loops stay loops with invariants, proved against a specification function.
Randomness (`Math.random()`), the clock, `Math.sin(Date.now() * 0.01)`, the browser's answers
(microphone permission, voice list, feature detection) and the loading stages (network probe,
loader script, GLB download) are parameters.

Where the design description and the code disagree, the model follows the code:

- The design promises at most one fallback per avatar through a one-shot flag; the code has no
  such flag, and a failed load attaches two fallback groups (see Findings).
- The design calls a transition to the same state a no-op. The business avatar's guard compares
  the semantic input with the stored role, so `setState('talking')` twice replays the transition
  (`BusinessAvatar.TalkingTwiceReplays`).
- The design's lip sync clamps the intensity, drives three channels and ignores empty input. The
  code drives blend shapes only, applies `mean / 255 * 0.6` without a clamp, and throws on an empty
  array because `reduce` has no initial value.
- The design calls `destroy` idempotent. `ThreeScene.destroy` called twice removes the canvas
  twice, and the second removal throws (`Scene.DestroyTwiceThrows`).
- The design has the microphone's frequency data drive the avatar's lip sync. The app stores it
  on the business avatar (`currentAudioData`), but the avatar's frame update never reads it, so
  the face does not move with it (`BusinessAvatar.AudioDataNeverReachesFace`).
- The design describes several candidate model paths. The code has one path and then the
  fallback.

## Model

| member | source | states |
|---|---|---|
| AudioMath.Divide | src/js/utils/dom.js:69-75 | JavaScript division: finite with `value * b == a` iff the divisor is non-zero, +Infinity / -Infinity for a positive / negative numerator over 0, NaN for 0/0 |
| AudioMath.RandomIndex | src/js/main.js:647 | `Math.floor(Math.random() * n)` is a valid index for any draw in [0, 1) |
| AudioMath.SumOfBytes | src/js/3d/businessCharacter.js:538-539 | the sum of byte magnitudes lies in [0, 255 * length] |
| AudioMath.MeanOfBytes | src/js/3d/businessCharacter.js:538-539 | the mean of a non-empty byte-magnitude array lies in [0, 255] |
| AudioMath.MeanMonotone | src/js/3d/character3d.js:172-173 | over arrays of one length, a larger sum never gives a smaller mean |
| Text.SomeContained | src/js/main.js:603-609 | `words.some(w => s.includes(w))` holds iff some word occurs in `s` |
| Text.ToLower | src/js/3d/businessCharacter.js:256 | lower-casing keeps the length, leaves no ASCII capital, keeps every other character, and turns each capital into the small letter at the same place in the alphabet |
| Text.ToLowerIdempotent | src/js/3d/businessCharacter.js:256 | lower-casing an already lower-cased name changes nothing |
| Text.LoweredHasNoCapital | src/js/3d/businessCharacter.js:256-258 | a lower-cased name contains no ASCII capital |
| Text.TrimStartSpec | src/js/speech/tts.js:208 | the start-trimmed string is a suffix whose first character is not white space, and everything cut off is white space |
| Text.TrimEndSpec | src/js/speech/tts.js:208 | the end-trimmed string is a prefix whose last character is not white space, and everything cut off is white space |
| Text.TrimEmptyIffBlank | src/js/speech/tts.js:69 | `trim()` gives the empty string iff every character is white space |
| Text.TrimmedHasNoOuterWhite | src/js/main.js:551 | a trimmed text is empty or starts and ends with a non-white character |
| Text.NonBlankSurvivesTrim | src/js/speech/tts.js:208-209 | a string with one non-white character does not trim to empty |
| Text.SplitSentences | src/js/speech/tts.js:203 | `split(/[.!?。！？]/)` always yields at least one piece |
| Text.SplitSentencesSound | src/js/speech/tts.js:203 | the pieces of the split concatenate to the text without its sentence ends, and no piece holds a sentence end |
| Text.SplitSentencesRebuild | src/js/speech/tts.js:203 | the split cuts at every sentence end and nowhere else: one piece more than there are sentence ends, and the pieces with the ends put back between them spell the text |
| BusinessRules.RoleOf | src/js/3d/businessCharacter.js:400-407 | the state map sends talking, listening and thinking to presenting, attentive and analyzing (each iff), and every other state, happy included, to professional |
| BusinessRules.RoleNeverCharacterState | src/js/3d/businessCharacter.js:395-419 | no role is spelled like a character state, so the stored role never equals the guard's semantic input |
| BusinessRules.SeparatedRoundTrip | src/js/3d/businessCharacter.js:474-475 | inserting a separator before every capital only inserts: removing the separators gives the name back |
| BusinessRules.PossibleNames | src/js/3d/businessCharacter.js:470-476 | four spellings are tried, the exact name first |
| BusinessRules.FirstIndex | src/js/3d/businessCharacter.js:478-483 | the slot found is that of the first spelling the dictionary has; none iff no spelling is in it |
| BusinessRules.ExactNameWins | src/js/3d/businessCharacter.js:470-483 | a dictionary holding the exact name resolves to its index |
| BusinessRules.ResolvedInRange | src/js/3d/businessCharacter.js:478-481 | a resolved slot addresses the influence array |
| BusinessRules.ExpressionTargets | src/js/3d/businessCharacter.js:433-462 | each state group sets three targets, each weight in (0, 0.5] |
| BusinessRules.ApplyUntouched | src/js/3d/businessCharacter.js:459-462 | a slot that no target resolves to keeps its value |
| BusinessRules.ApplyLastWins | src/js/3d/businessCharacter.js:459-462 | a slot holds the weight of the last target resolving to it |
| BusinessRules.ExpressionOnlyChosen | src/js/3d/businessCharacter.js:430-462 | after an expression, every non-zero influence belongs to one of the chosen targets |
| BusinessRules.ExpressionChosenSet | src/js/3d/businessCharacter.js:430-462 | after an expression, each chosen target that found a slot shows its weight there unless a later target overwrote it |
| BusinessRules.LipSyncBounds | src/js/3d/businessCharacter.js:536-548 | for byte magnitudes the mouth opens at most 0.6, the jaw 0.3 of that, and the presenting smile lies in [0.2, 0.26] |
| BusinessRules.LipSyncMonotone | src/js/3d/businessCharacter.js:538-541 | a louder input never opens the mouth less |
| BusinessRules.ContextFor | src/js/3d/businessCharacter.js:486-510 | the context differs from professional/upright/ready exactly for presenting, attentive and analyzing |
| BusinessRules.SemanticStatesGiveReadyContext | src/js/3d/businessCharacter.js:425 | `setState` passes semantic names, so it always yields the default context |
| BusinessRules.LastBone | src/js/3d/businessCharacter.js:254-263 | the bone kept for a target is the last bone in traversal order whose lower-cased name contains it; none iff no bone does |
| BusinessRules.MatchTargetsPointwise | src/js/3d/businessCharacter.js:257-262 | one bone's pass over the target list sets exactly the targets its name contains, to its index |
| BusinessRules.BoneScanIsLastBone | src/js/3d/businessCharacter.js:251-265 | the traversal leaves each target with its last matching bone and leaves other keys alone |
| BusinessRules.CapitalTargetNeverMatches | src/js/3d/businessCharacter.js:256-258 | a target spelled with a capital never matches a lower-cased bone name |
| BusinessRules.ShouldersNeverIndexed | src/js/3d/businessCharacter.js:252 | `leftShoulder` and `rightShoulder` can never be found |
| BusinessRules.LastFace | src/js/3d/businessCharacter.js:267-283 | the face mesh kept is the last candidate in traversal order, because the `return` does not stop the traversal |
| BusinessRules.ClipRole | src/js/3d/businessCharacter.js:291-303 | a clip's role, when it has one, is one of the four roles |
| BusinessRules.LastBinding | src/js/3d/businessCharacter.js:289-305 | the clip bound to a key is the last clip whose name or role is that key |
| BusinessRules.ClipTableIsLastBinding | src/js/3d/businessCharacter.js:285-311 | registration leaves every key with the handle of its last binding clip and keeps unbound keys |
| BusinessRules.ClipTableHandles | src/js/3d/businessCharacter.js:285-311 | registration stores only handles of registered clips |
| BusinessRules.Posed | src/js/3d/businessCharacter.js:513-530 | a posture rotates only the spine; unknown postures change nothing and only professional touches the z rotation |
| BusinessAvatar.GestureActions | src/js/3d/businessCharacter.js:346-371 | a gesture action exists iff both shoulder bones are indexed, and it is one idle presenting action |
| BusinessAvatar.LeanActions | src/js/3d/businessCharacter.js:373-391 | a lean action exists iff the spine bone is indexed, and it is one idle attentive action |
| BusinessAvatar.Transition | src/js/3d/businessCharacter.js:410-418 | the new role's action, if registered, is reset, fading in and playing; the old one, if registered and different, fades out; every other action is untouched |
| BusinessAvatar.NewActions | src/js/3d/businessCharacter.js:289 | one action per clip, in clip order, each neither playing nor fading |
| BusinessAvatar.RemoveFirst | src/js/3d/businessCharacter.js:664-666 | `scene.remove` takes out one occurrence of the model, or nothing when absent |
| BusinessAvatar.FallbackAttachedTwice | src/js/3d/businessCharacter.js:92-197 | as written, a failed GLB load attaches two distinct fallback groups, leaves `isLoading` true and rejects `init` |
| BusinessAvatar.IntendedFallbackOnce | src/js/3d/businessCharacter.js:601-656 | with a fallback that returns, exactly one object is attached, a fallback iff some stage failed, and loading ends |
| BusinessAvatar.BusinessCharacter.constructor | src/js/3d/businessCharacter.js:4-25 | idle, not loading, nothing attached, professional/upright/active context |
| BusinessAvatar.BusinessCharacter.SetMorphTarget | src/js/3d/businessCharacter.js:466-484 | writes the value into the first resolved slot; nothing without a face mesh |
| BusinessAvatar.BusinessCharacter.SetBusinessExpression | src/js/3d/businessCharacter.js:428-464 | all influences zeroed, then the state group's targets written; nothing without a face mesh |
| BusinessAvatar.BusinessCharacter.UpdateBusinessContext | src/js/3d/businessCharacter.js:486-511 | the context becomes the table entry of the state |
| BusinessAvatar.BusinessCharacter.SetState | src/js/3d/businessCharacter.js:394-426 | an input equal to the stored role changes nothing; otherwise the role is stored, the actions cross-fade, and the context and expression follow the semantic input |
| BusinessRules.Gazed | src/js/3d/businessCharacter.js:552-570 | the head's y and x rotations each close a tenth of their gap to the pointer's target (intensity 0.05, half of it vertically); nothing else about the bone changes |
| BusinessRules.Bobbed | src/js/3d/businessCharacter.js:589-599 | only the head's height moves, by at most 0.001 for a sine in [-1, 1] |
| BusinessRules.HeadFrame | src/js/3d/businessCharacter.js:572-587 | one frame changes only the head's rotations and height, and with no pointer outside the professional role nothing at all |
| BusinessRules.GazeConverges | src/js/3d/businessCharacter.js:552-570 | after n frames at a still pointer both gaze gaps are 0.9^n times the first ones, and the height is unchanged |
| BusinessAvatar.BusinessCharacter.Update | src/js/3d/businessCharacter.js:572-587 | a frame moves only the indexed head bone (none without a head), and leaves the face's influences, the morph dictionary, the actions and the stored audio data as they are |
| BusinessAvatar.AudioDataNeverReachesFace | src/js/main.js:350-354 | the frequency data the app stores on the avatar is never read: after storing it, a frame leaves every morph influence unchanged |
| BusinessAvatar.BusinessCharacter.SetBusinessPosture | src/js/3d/businessCharacter.js:513-530 | only the indexed spine node is posed |
| BusinessAvatar.BusinessCharacter.UpdateLipSync | src/js/3d/businessCharacter.js:533-549 | throws exactly on an empty array with a face mesh; otherwise writes mouthOpen, jawOpen and (when presenting) mouthSmile, or nothing without audio or face mesh |
| BusinessAvatar.BusinessCharacter.FindImportantBones | src/js/3d/businessCharacter.js:251-265 | the bone table is the scan's last matches over the old table, and the shoulder keys never change |
| BusinessAvatar.BusinessCharacter.FindFaceMesh | src/js/3d/businessCharacter.js:267-283 | the face mesh, its dictionary and influences become those of the last candidate; nothing changes without one |
| BusinessAvatar.BusinessCharacter.SetupBusinessAnimations | src/js/3d/businessCharacter.js:285-311 | one action per clip, keys registered as the clip table, and the professional action played |
| BusinessAvatar.BusinessCharacter.CreateBusinessAnimations | src/js/3d/businessCharacter.js:313-326 | without a model nothing happens; with one a mixer and a playing breathing action under professional |
| BusinessAvatar.BusinessCharacter.CreateProfessionalBreathing | src/js/3d/businessCharacter.js:328-344 | one playing action registered under professional |
| BusinessAvatar.BusinessCharacter.CreateBusinessGestures | src/js/3d/businessCharacter.js:346-371 | the gesture action appended and keyed only when both shoulders are known |
| BusinessAvatar.BusinessCharacter.CreatePresentationAnimations | src/js/3d/businessCharacter.js:373-391 | the lean action appended and keyed only when the spine is known |
| BusinessAvatar.BusinessCharacter.SetupBusinessCharacter | src/js/3d/businessCharacter.js:199-249 | the loaded scene is attached and indexed (bones are the last matches, the face mesh and its dictionary the last candidate's); only the spine is posed professional; a file with clips gets the clip table with its professional action played, a file without gets the breathing, gesture and lean actions |
| BusinessAvatar.BusinessCharacter.IndexScene | src/js/3d/businessCharacter.js:229-233 | on a fresh scene, the bone table holds exactly the last matching bone per target, and the face mesh, dictionary and influences are the last candidate's |
| BusinessAvatar.BusinessCharacter.SetupActions | src/js/3d/businessCharacter.js:235-240 | with clips, one action per clip keyed by the clip table and the professional one played; without, the played breathing action at 0 followed by the gesture and lean actions the bones allow |
| BusinessAvatar.BusinessCharacter.CreateFallbackBusinessCharacter | src/js/3d/businessCharacter.js:601-656 | attaches a new placeholder group and then always throws |
| BusinessAvatar.BusinessCharacter.LoadBusinessCharacter | src/js/3d/businessCharacter.js:92-197 | success attaches the loaded scene and ends loading; any failed stage attaches a fallback, throws, and leaves loading on |
| BusinessAvatar.BusinessCharacter.Init | src/js/3d/businessCharacter.js:27-46 | the attached objects, loading flag and rejection are those of the as-written pipeline |
| BusinessAvatar.BusinessCharacter.Destroy | src/js/3d/businessCharacter.js:658-668 | every action stopped when there is a mixer, and the model removed from the scene |
| BusinessAvatar.TalkingTwiceReplays | src/js/3d/businessCharacter.js:395 | talking, lip sync, talking again: the second `setState('talking')` is not a no-op, it replays the presenting fade-in and puts the bare talking expression back over the lip-sync writes |
| Scene.ChooseAvatar | src/js/3d/scene.js:69-96 | BusinessCharacter, else RealCharacter3D, else Character3D (each iff), none when no class is defined |
| Scene.AspectOf | src/js/3d/scene.js:109-113 | the aspect is finite with `aspect * height == width` iff the height is non-zero, +Infinity for a zero height, NaN for an empty container |
| Scene.ThreeScene.constructor | src/js/3d/scene.js:3-12 | no character, no frame, no renderer |
| Scene.ThreeScene.Init | src/js/3d/scene.js:14-50 | renderer attached and sized; the chosen avatar created, or a throw before the first frame when there is none |
| Scene.ThreeScene.CreateCharacter | src/js/3d/scene.js:69-96 | throws iff no avatar class is defined; otherwise the preferred class is instantiated |
| Scene.ThreeScene.Animate | src/js/3d/scene.js:98-107 | schedules the next frame, updates the character when present, then renders |
| Scene.ThreeScene.OnWindowResize | src/js/3d/scene.js:109-113 | the aspect and size follow the container |
| Scene.ThreeScene.Destroy | src/js/3d/scene.js:115-128 | cancels the frame and destroys the character when present, and throws iff the canvas is no longer a child |
| Scene.DestroyTwiceThrows | src/js/3d/scene.js:115-128 | a second `destroy` repeats the cancel and character destroy and then throws |
| Scene.InitialActions | src/js/3d/scene.js:218-280 | only idle, talking and listening actions are registered, none playing |
| Scene.HeadColor | src/js/3d/scene.js:302-316 | one colour each for talking, listening and thinking (each iff), the skin colour otherwise |
| Scene.LipTargetRange | src/js/3d/scene.js:322-324 | for byte magnitudes the mouth target `1 + mean / 255 * 2` lies in [1, 3] |
| Scene.LipStepContracts | src/js/3d/scene.js:325-327 | one lerp step leaves 0.7 of the gap, never overshoots and never reaches a distinct target |
| Scene.LipStepsGap | src/js/3d/scene.js:319-329 | after n steps toward a fixed target the gap is 0.7^n of the first |
| Scene.Character3D.constructor | src/js/3d/scene.js:133-146 | idle, the three registered actions, skin colour, mouth scale 1, eyes open |
| Scene.Character3D.SetState | src/js/3d/scene.js:283-300 | the same state changes nothing; otherwise the state and colour change, the old action fades out and the new one restarts, each only if registered |
| Scene.Character3D.ApplyStateEffects | src/js/3d/scene.js:302-316 | the head colour becomes the state's colour |
| Scene.Character3D.UpdateLipSync | src/js/3d/scene.js:319-329 | a non-empty input moves both mouth scales one lerp step toward the target; an empty array throws; no input changes nothing |
| Scene.Character3D.Blink | src/js/3d/scene.js:332-339 | both eyes squash to 0.1 |
| Scene.Character3D.BlinkTimeout | src/js/3d/scene.js:336-338 | the timeout reopens its eye to 1 |
| Scene.Character3D.Update | src/js/3d/scene.js:341-354 | a blink starts iff the draw is below 0.01 |
| Scene.Character3D.Destroy | src/js/3d/scene.js:367-375 | every action stopped and the mesh removed |
| Scene.ThinkingStartsNoAction | src/js/3d/scene.js:287-294 | from idle, thinking fades idle out and starts no action |
| BasicAvatar.HeadColor | src/js/3d/character3d.js:131-153 | one colour each for talking, listening and thinking (each iff), the skin colour otherwise |
| BasicAvatar.MouthScale | src/js/3d/character3d.js:155-165 | a closed mouth is exactly 0.5; a talking mouth stays within [0.5, 1.1] |
| BasicAvatar.LipScaleRange | src/js/3d/character3d.js:168-176 | for byte magnitudes the assigned scale lies in [0.5, 1], and silence gives the closed mouth |
| BasicAvatar.LipScaleMonotone | src/js/3d/character3d.js:172-174 | a louder frame never gives a smaller mouth |
| BasicAvatar.DoubleBlinkSticks | src/js/3d/character3d.js:179-187 | as written, a second blink inside the first's 150 ms leaves the eye squashed at 0.1 for good |
| BasicAvatar.FixedEyeReopens | src/js/3d/character3d.js:179-187 | restoring the open scale, an eye with no pending timeout is open whatever the interleaving |
| BasicAvatar.Character3D.constructor | src/js/3d/character3d.js:4-17 | idle, skin colour, mouth 0.5, eyes open, the breathing clip playing as idle |
| BasicAvatar.Character3D.SetState | src/js/3d/character3d.js:125-129 | always records the state and updates the appearance, even for an unchanged state |
| BasicAvatar.Character3D.UpdateAppearance | src/js/3d/character3d.js:131-153 | the colour follows the state; only talking animates the mouth, everything else closes it |
| BasicAvatar.Character3D.AnimateMouth | src/js/3d/character3d.js:155-165 | the mouth scale becomes the talking or closed scale |
| BasicAvatar.Character3D.UpdateLipSync | src/js/3d/character3d.js:168-176 | the scale is assigned outright from the mean; an empty array throws; no input changes nothing |
| BasicAvatar.Character3D.Blink | src/js/3d/character3d.js:179-187 | every eye blinks as written |
| BasicAvatar.Character3D.BlinkTimeout | src/js/3d/character3d.js:183-186 | the eye's oldest pending timeout fires |
| BasicAvatar.Character3D.Update | src/js/3d/character3d.js:189-204 | a blink iff the draw is below 0.003; the talking mouth re-runs only while talking |
| BasicAvatar.Character3D.Destroy | src/js/3d/character3d.js:206-216 | every action stopped and the figure removed |
| BasicAvatar.RepeatedStateResetsMouth | src/js/3d/character3d.js:125-129 | repeating `setState('listening')` closes a mouth that lip sync had opened |
| Character2D.StopAll | src/js/character.js:258-276 | all three interval handles are cleared and nulled |
| Character2D.TalkingTwiceLeaks | src/js/character.js:106-118 | as written, starting talking twice loses the first interval for good |
| Character2D.FixedTimersStayTracked | src/js/character.js:106-169 | clearing before overwriting keeps every interval reachable, so stopping all leaves none |
| Character2D.WithMouthShape | src/js/character.js:144-154 | the shape is present, every other mouth shape is gone, other classes stay |
| Character2D.ExactlyOneMouthShape | src/js/character.js:144-154 | after `setMouthShape(s)` the only mouth shape present is `s` |
| Character2D.EmotionState | src/js/character.js:289-299 | happy, sad, excited and thinking map to themselves, anything else to idle |
| Character2D.QuietStates | src/js/character.js:83-103 | of the character states, only sad and excited have no effect |
| Character2D.Character.constructor | src/js/character.js:3-18 | the initial `setState(IDLE)` is a no-op: idle, classes untouched, no timers |
| Character2D.Character.SetState | src/js/character.js:59-80 | the same state changes nothing; otherwise the state class is swapped, the state recorded, its effects run and a timed return to idle scheduled when a duration is given |
| Character2D.Character.HandleStateChange | src/js/character.js:83-103 | the mouth, timers and visualisation follow the state's effect |
| Character2D.Character.SetMouthShape | src/js/character.js:144-154 | exactly the given shape is set; nothing without a mouth element |
| Character2D.Character.TalkingTick | src/js/character.js:108-117 | the talking interval shows OPEN, CLOSED, ... by index `(i + 1) % 2` |
| Character2D.Character.StopVoiceVisualization | src/js/character.js:172-180 | the visualisation stops and its interval is cleared but its handle kept |
| Character2D.Character.StopAllAnimations | src/js/character.js:258-276 | every interval cleared and nulled, the visualisation stopped |
| Character2D.Character.PlayClickAnimation | src/js/character.js:246-255 | ignored while animating; otherwise shows excited for 800 ms |
| Character2D.Character.ClickEnds | src/js/character.js:252-254 | the click animation ends |
| Character2D.Character.IdleReturn | src/js/character.js:70-79 | a timed state returns to idle |
| Character2D.Character.ExpressEmotion | src/js/character.js:289-299 | the state becomes the emotion's state |
| Character2D.Character.SetSpeechAnalyzer | src/js/character.js:279-281 | the analyzer is recorded |
| Character2D.Character.Destroy | src/js/character.js:302-307 | every animation stopped and the visualisation removed |
| Character2D.TalkingIntervalLeaks | src/js/character.js:106-118 | talking, listening, talking, idle: the first talking interval survives `stopAllAnimations` |
| Tts.ChunkTextSound | src/js/speech/tts.js:202-226 | the chunks are the sentence groups joined with '. '; the groups flatten to the trimmed non-empty sentences, in order, so joining the chunks equals joining those sentences |
| Tts.JoinedShape | src/js/speech/tts.js:211-218 | no chunk is empty; a chunk of two or more sentences is at most chunkSize + 2 long; an over-long sentence is its whole chunk; a chunk closes only because the next sentence did not fit |
| Tts.FoldShape | src/js/speech/tts.js:207-219 | the `forEach` groups exactly the kept sentences, in order, into well-shaped chunks |
| Tts.StepKeepsShape | src/js/speech/tts.js:207-219 | one iteration keeps the chunk shape and adds exactly its sentence when that is not blank |
| Tts.JoinFlatten | src/js/speech/tts.js:211-225 | joining the joined chunks equals joining their sentences |
| Tts.Kept | src/js/speech/tts.js:208-209 | blank sentences are dropped |
| Tts.TextToSpeech.SplitTextIntoChunks | src/js/speech/tts.js:202-226 | the loop returns exactly the chunking specified by `ChunkText` |
| Tts.MergeLaws | src/js/speech/tts.js:258-260 | the settings merge is right-biased: the empty patch is the identity, a patch is idempotent, two patches compose |
| Tts.Clamp | src/js/speech/tts.js:263-275 | the result lies in [lo, hi], equals the input inside it and the nearer bound outside |
| Tts.AdjustForEmotion | src/js/speech/tts.js:318-336 | the six emotions set only rate and pitch from their table entry; any other emotion changes nothing |
| Tts.AdjustIsMerge | src/js/speech/tts.js:318-336 | an emotion's adjustment is the spread merge of its rate and pitch |
| Tts.FirstKorean | src/js/speech/tts.js:50-53 | the index found is the first voice whose lang starts with 'ko' or contains 'KR' |
| Tts.ChosenVoice | src/js/speech/tts.js:45-61 | the first Korean voice when there is one, else the first voice, else the current voice unchanged |
| Tts.UtteranceFor | src/js/speech/tts.js:74-85 | the utterance carries the text and the options over the settings; a 0 option is falsy and falls back to the setting |
| Tts.ErrorMessage | src/js/speech/tts.js:103-125 | the five known codes map to fixed messages, network to the network message, and any other code to the unknown error |
| Tts.TextToSpeech.constructor | src/js/speech/tts.js:3-29 | default settings, no callbacks, nothing speaking; voices loaded at once when supported |
| Tts.TextToSpeech.LoadVoices | src/js/speech/tts.js:45-61 | the voices are stored and the chosen voice selected |
| Tts.TextToSpeech.SetVoice | src/js/speech/tts.js:241-246 | the voice changes only for an index within the list |
| Tts.TextToSpeech.UpdateSettings | src/js/speech/tts.js:258-260 | the settings become the right-biased merge |
| Tts.TextToSpeech.SetRate | src/js/speech/tts.js:263-265 | the rate is clamped to [0.1, 10], nothing else changes |
| Tts.TextToSpeech.SetPitch | src/js/speech/tts.js:268-270 | the pitch is clamped to [0, 2], nothing else changes |
| Tts.TextToSpeech.SetVolume | src/js/speech/tts.js:273-275 | the volume is clamped to [0, 1], nothing else changes |
| Tts.TextToSpeech.SetCallbacks | src/js/speech/tts.js:283-285 | the callbacks become the right-biased merge |
| Tts.TextToSpeech.Stop | src/js/speech/tts.js:153-158 | throws iff speech is unsupported (`synthesis` is undefined), changing nothing; otherwise nothing is queued or speaking afterwards |
| Tts.TextToSpeech.Speak | src/js/speech/tts.js:64-150 | throws when unsupported, skips a missing or blank text, otherwise cancels and queues one utterance built from the options and settings |
| Tts.TextToSpeech.OnUtteranceStart | src/js/speech/tts.js:87-93 | speaking starts and onStart gets the text |
| Tts.TextToSpeech.OnUtteranceEnd | src/js/speech/tts.js:95-101 | speaking ends, the utterance leaves the queue and onEnd gets the text |
| Tts.TextToSpeech.OnUtteranceError | src/js/speech/tts.js:103-128 | speaking ends and onError gets the mapped message |
| Tts.TextToSpeech.Destroy | src/js/speech/tts.js:344-353 | throws iff speech is unsupported, before the callbacks are touched; otherwise speech stopped and all five callbacks nulled |
| Stt.TranscriptsSplit | src/js/speech/stt.js:56-69 | final and interim transcripts accumulate over concatenation, split every result between them, and an all-final batch has no interim text |
| Stt.Confidence | src/js/speech/stt.js:74 | the first result's confidence, or 0 without results |
| Stt.ErrorMessage | src/js/speech/stt.js:93-108 | not-allowed maps to the microphone message and network to the network message (each iff); anything outside the four codes to the unknown error |
| Stt.RefusalIsFinal | src/js/speech/stt.js:117-144 | as written, after a refused microphone a later grant still leaves no analyzer |
| Stt.FixedSetupRecovers | src/js/speech/stt.js:117-144 | keeping the context only with the microphone, context, microphone and analyzer exist together, and a granted last start has an analyzer |
| Stt.SpeechToText.constructor | src/js/speech/stt.js:3-21 | recognition iff supported, nothing listening, no callbacks, no audio |
| Stt.SpeechToText.OnStart | src/js/speech/stt.js:47-54 | listening starts and onStart is called |
| Stt.SpeechToText.OnResult | src/js/speech/stt.js:56-77 | the loop reports the final and interim transcripts of the results from `resultIndex` on, with the confidence |
| Stt.SpeechToText.OnEnd | src/js/speech/stt.js:80-87 | listening ends and onEnd is called |
| Stt.SpeechToText.OnError | src/js/speech/stt.js:89-113 | listening ends and onError gets the mapped message |
| Stt.SpeechToText.StartListening | src/js/speech/stt.js:147-175 | throws when unsupported, returns when already listening, fails with the microphone message on a first refusal, otherwise starts recognition unless it is already running |
| Stt.SpeechToText.StopListening | src/js/speech/stt.js:178-182 | stops iff there is recognition and it is listening |
| Stt.SpeechToText.GetAudioLevel | src/js/speech/stt.js:185-198 | 0 without an analyzer, else the mean of the bins, in [0, 255] |
| Stt.SpeechToText.DetectSpeechActivity | src/js/speech/stt.js:211-216 | speech iff there is an analyzer and the level exceeds 30 |
| Stt.SpeechToText.SetCallbacks | src/js/speech/stt.js:219-221 | the callbacks become the right-biased merge |
| Stt.SpeechToText.Destroy | src/js/speech/stt.js:255-266 | recognition stopped when listening; context, microphone, analyzer and recognition all gone |
| Stt.RefusedMicrophoneStaysSilent | src/js/speech/stt.js:117-198 | a refused start and then a granted one: recognition runs but the level stays 0 |
| DomUtils.AnalyzeAudioLevel | src/js/utils/dom.js:69-75 | the summing loop gives the mean, NaN for an empty array, and a value in [0, 255] for bytes |
| DomUtils.NormalizeRoundTrip | src/js/utils/dom.js:77-79 | with distinct bounds every value is finite and the inverse map gives the data back |
| DomUtils.NormalizeUnitRange | src/js/utils/dom.js:77-79 | values in [min, max] land in [0, 1], min on 0 and max on 1 |
| DomUtils.NormalizeEqualBounds | src/js/utils/dom.js:77-79 | with equal bounds no value is finite, and the bound itself becomes NaN |
| DomUtils.DetectSilence | src/js/utils/dom.js:81-84 | silence iff the array is non-empty and its mean is below the threshold |
| DomUtils.RepliesFor | src/js/utils/dom.js:107-110 | a known category's list, else the default list; never empty |
| DomUtils.GetRandomResponse | src/js/utils/dom.js:107-110 | the reply is an element of the chosen list |
| DomUtils.AnalyzeInput | src/js/utils/dom.js:112-120 | 'greetings' iff some greeting keyword occurs, else 'default' |
| DomUtils.AnalyzedCategoryKnown | src/js/utils/dom.js:107-120 | every analysed category has its own reply list |
| DomUtils.SimpleChatbot.constructor | src/js/utils/dom.js:127-130 | the context starts empty |
| DomUtils.SimpleChatbot.GenerateResponse | src/js/utils/dom.js:132-157 | exactly one context entry appended; 이름 before 시간 before 날짜 before a reply of the input's category |
| ChatbotApp.FirstCategory | src/js/main.js:862-867 | the index found is the first table entry with a contained keyword, or the table's length |
| ChatbotApp.AnalyzeBusinessContext | src/js/main.js:837-870 | defaults normal/general/professional; an urgent keyword alone sets high and focused; the category is the first in declaration order with a contained keyword, so urgent messages are 'urgent' |
| ChatbotApp.AnalyzeEmotion | src/js/main.js:597-611 | happy before sad before excited (each iff), else talking; always a character state |
| ChatbotApp.HappyWins | src/js/main.js:602-603 | a text with a happy word is happy whatever else it holds |
| ChatbotApp.FirstKeyword | src/js/main.js:632-636 | the index found is the first table keyword contained in the message, or the table's length |
| ChatbotApp.GenerateBotResponse | src/js/main.js:614-648 | the fixed reply of the first contained keyword, else the default the draw picks |
| ChatbotApp.LastBotMessageSpec | src/js/main.js:743-745 | the message found is a bot message with none after it; none iff no message is the bot's |
| ChatbotApp.MissingRequired | src/js/main.js:92-98 | the first of `chatMessages`, `textInput`, `sendButton` (in that order) the page lacks, and none iff all three exist |
| ChatbotApp.ChatbotApp.constructor | src/js/main.js:3-169 | what `init` does before its first `await`: 3D mode unless the required elements exist and the 3D container does not; a 2D character iff the required and character elements exist; a 3D avatar iff additionally the container, Three.js and an avatar class exist; no speech output; a missing required element or character element leaves exactly the bot message "오류: 애플리케이션 초기화에 실패했습니다: " followed by the thrown message (for a required element, "필수 DOM 요소를 찾을 수 없습니다: " and its name) when the message list exists, and no message otherwise or on success |
| ChatbotApp.ChatbotApp.ShowError | src/js/main.js:807-810 | one bot message appended: "오류: " followed by the error, stamped with the current time |
| ChatbotApp.ChatbotApp.SetCharacterState | src/js/main.js:541-547 | to the 3D avatar iff 3D mode and it exists, else to the 2D character when present, else nowhere |
| ChatbotApp.ChatbotApp.HandleTextInput | src/js/main.js:550-556 | a blank box is left alone; otherwise it is cleared and the trimmed text forwarded |
| ChatbotApp.ChatbotApp.AddMessage | src/js/main.js:682-686 | one message appended, stamped with the given timestamp or the current time |
| ChatbotApp.ChatbotApp.ToggleSpeech | src/js/main.js:738-759 | stops when speaking; otherwise re-speaks the last bot message when supported and non-empty; fails before the speech output exists |
| ChatbotApp.RespeaksNewestBotMessage | src/js/main.js:738-759 | after a bot message is added, toggling a quiet speech output speaks that message |

## Left out

- Character2D.EmotionState: an emotion named like an `Object.prototype` member (`toString`,
  `constructor`) finds a function in the emotion table, and `setState` hands that function's text
  to `classList.add`, which throws on its spaces; the model sends every unknown name to idle.
  `expressEmotion` has no caller in the repository.
- Three.js construction (geometry, materials, lights, renderer options), the animation mixer's
  fade curves and keyframe tracks, and `mixer.update`: library behaviour. Actions are records of
  their playing and fading flags.
- Breathing bob, thinking bounce and the talking mouth's sine of the basic avatar:
  floating-point animation. The sine value is a parameter of `BasicAvatar.MouthScale`.
- BusinessAvatar.BusinessCharacter.Update: the mixer's time step is not modelled (actions keep
  their flags), the window's pointer position arrives already scaled to [-1, 1] or as None, and
  the clock's sine is the parameter `wave`.
- The network probe, loader script, GLB download and `config/api.js`: I/O. Each stage is a
  success/failure input (`BusinessAvatar.LoadEnv`).
- Web Speech and Web Audio calls (`speechSynthesis`, `SpeechRecognition.start`,
  `getUserMedia`, `AudioContext`): browser I/O. Their answers are parameters and their
  asynchronous callbacks are methods (`OnUtteranceStart`, `OnResult`, ...).
- Timers and animation frames: a timeout or interval is a pending record or a handle. Its callback
  is a method that the caller invokes (`BlinkTimeout`, `TalkingTick`, `IdleReturn`, `ClickEnds`).
- DOM and chat UI, settings panel, local storage, `DOMUtils`, `AnimationUtils`: UI plumbing. Of
  `addMessage`, only the record pushed onto `chatMessages` is modelled.
- `preprocessText`: its Unicode ranges and regular expressions are not modelled. `ToggleSpeech`
  takes the cleaning function as a parameter.
- The tts.js operations outside the core: `pause`, `resume`, `speakLongText`,
  `getKoreanVoices`, `setVoiceByName`, `setLanguage`, `getStatus`, `testVoice`. The same holds
  for stt.js `setLanguage`, `setContinuous`, `setInterimResults`, `getStatus`,
  `getFrequencyData`.
- The events a cancelled utterance still delivers (the 'interrupted' error) are not modelled:
  `speak` empties the queue as `cancel` does.
- Reals stand for JavaScript numbers. There is no rounding, and NaN appears only where a
  division produces it (`AudioMath.Number`). String lengths count characters, which match
  UTF-16 units for the Korean and Latin text used here.
- Text.ToLower: folds ASCII capitals only; JavaScript's `toLowerCase` folds all of Unicode and can change the length (`'İ'` becomes two characters). Bone and clip names here are ASCII.
- ChatbotApp.ChatbotApp.constructor: the page's elements, Three.js and the avatar classes are inputs; a WebGL renderer failure inside `ThreeScene`, `isInitialized` and the steps after the first `await` (speech objects, listeners, settings, welcome message) are not modelled. The TypeError text of the 2D character's constructor on a missing element depends on the browser and is the parameter `characterFault`.
- Tts.TextToSpeech.SetVoice: a non-integer index is not modelled; the index is an `int`.
- Tts.Clamp: NaN inputs are not modelled, because reals have no NaN.
- Tts.MergeLaws: a patch can only override the four known keys. Extra keys of a spread and an
  explicitly `undefined` value are not modelled.
- DomUtils.Normalize: a typed `Uint8Array` input would truncate the results to bytes; the model
  maps a plain number array, and the source has no caller that passes either.
- DomUtils.GetRandomResponse: categories named like `Object.prototype` members (`toString`, ...)
  are treated as unknown categories.
- DomUtils.SimpleChatbot.GenerateResponse: the timestamp and the locale renderings of the clock
  are parameters.
- Stt.SpeechToText.GetAudioLevel: the bins are the analyzer's `frequencyBinCount` (128)
  byte magnitudes, taken as an input rather than read from the analyzer.
- ChatbotApp.ChatbotApp.SetCharacterState: returns where the state goes rather than calling into
  the avatar classes.
- ChatbotApp.GenerateBotResponse: the one-second pause before replying is not modelled.

## Findings

| source | as written | input that shows it | evidently intended | confidence | as-written member | corrected member |
|---|---|---|---|---|---|---|
| src/js/3d/businessCharacter.js:650-653 | the fallback attaches its group and then calls `createCustomAnimations`, which the class does not define, so it throws; `loadBusinessCharacter`'s own catch calls the fallback again and `isLoading = false` never runs | a failed HEAD probe or GLB load | one fallback group, loading ended | high, not executed | BusinessAvatar.FallbackAttachedTwice | BusinessAvatar.IntendedFallbackOnce |
| src/js/3d/character3d.js:179-187 | `blink` restores the scale the eye had when the blink started | two blinks within 150 ms: the second records 0.1 as the scale to restore | the eye reopens to 1, as the avatar of scene.js does | high, not executed | BasicAvatar.DoubleBlinkSticks | BasicAvatar.FixedEyeReopens |
| src/js/character.js:106-118 | starting the talking interval overwrites the stored handle without clearing it | talking, listening, talking, idle | the old interval cleared before the handle is overwritten | high, not executed | Character2D.TalkingTwiceLeaks | Character2D.FixedTimersStayTracked |
| src/js/speech/stt.js:117-144 | `audioContext` is stored before `getUserMedia`; on refusal it stays, so the next start skips setup and never gets a microphone or analyzer | refuse the microphone once, then grant it | setup retried until the microphone is granted | medium, not executed | Stt.RefusalIsFinal | Stt.FixedSetupRecovers |
