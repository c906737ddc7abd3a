# Totem spin: a verified model of the spin state machine in main.js

The page (main.js of a three.js scene) shows a spinning top. A click that
hits the totem while no spin is in progress starts a *session*. The
session's outcome, dream or awake, is drawn as `Math.random() > 0.5`. A
dream lasts 20 time units and an awake session 5.

Every frame of a session (`updateSpin`) does the following:

- advances the elapsed time by the clock's delta;
- spins the totem about y at a speed that falls with the square root of
  progress;
- tilts and bobs the totem by a decaying oscillation, clamped so that it
  does not sink into the ground;
- in a dream, every 2 time units, takes an *environment step*
  (`updateDreamEnvironment`). The step shows the next entry of the
  six-entry `dreamColors` table (mirror, pastel, garden, neon, space,
  bubbles, then round again), hides the other five scene groups, installs
  that entry's fog and aims the backdrop and the ground at its colours.

The frame that reaches the duration ends the session:

- the text is aimed back at the idle line;
- the totem is laid back upright at its rest height;
- an awake session also hides the star field and returns to the "reality"
  colours.

The `animate` loop draws a frame through the mirror composer, the pastel
composer or the plain renderer, depending on which group is visible.

The project has five modules:

- `Palette` (palette.dfy): the dream table, the scene types and the fog each
  of them installs.
- `Pose` (pose.dfy): the pure pose formulas of a spinning frame.
  `Math.sin`, `Math.cos` and `Math.pow(·, 0.5)` are the fields of a `Trig`
  value, so every formula holds whatever functions are plugged in.
  `InRange` names the range facts that the real functions have.
- `Spin` (spin.dfy): the state machine on values.
  - `World` is the whole state that the click handler, `spinTotem`,
    `updateSpin` and `updateDreamEnvironment` read or write.
  - Each of these operations is a function from the old world to the new.
  - `Inv` is the invariant of every reachable world. Lemmas prove that each
    step keeps it, and prove the properties of the session.
- `Totem` (totem.dfy): the imperative form, the class `TotemScene`.
  - Its fields are updated in place:
    - `isSpinning`;
    - the session's closure variables: `isDream`, `duration`, `elapsed`,
      `lastEnvironmentChange`, `colorIndex`;
    - the `visible` flags of the six groups and of the star field;
    - `scene.fog`;
    - the colour targets;
    - the overlay line;
    - the totem's transform.
  - The constructor, `Click`, `SpinTotem` and `UpdateSpin` keep `Valid()`,
    which is `Spin.Inv` of `Snap()`. Each states its new state, `Snap()`,
    as the matching `Spin` function of the old state.
  - The other methods are the sub-steps these run, following the source's
    statements in the source's order. The long runs of assignments in
    `updateDreamEnvironment`, `spinTotem` and the completion branch are
    split into a few small methods. Each sub-step states only its part of
    the new state, as a record update of `Snap()` or as the `Spin` function
    of that sub-step (`EnvironmentStep`, `ShowEntry`, `SpinningBranch`,
    `Posed`, `CompletionBranch`). `Valid()` need not hold between two
    sub-steps.
  - `ChangeEnvironment` sits outside the invariant. Nothing in main.js
    calls it, and its colours (#2b0a3d and #331a5d, or #101018 and #ffffff)
    are not the colours of any entry, so after an environment step it
    breaks `Valid()`.
- `Scenarios` (scenarios.dfy): whole sessions run frame by frame.
  - A dream in frames of 2 takes its nine steps at 2, 4, …, 18. It ends at
    20 on the garden scene, with the cursor on entry 3.
  - An awake session after it ends on the reality colours.

A GSAP tween (`gsap.to`) is modelled as the value it is aimed at. The
clock's `getDelta()` reading and the `Math.random()` draw are parameters.

## Model

| member | source | states |
|---|---|---|
| Palette.IndexOf | main.js:990-997 | every scene type has an entry in the table, at the index returned |
| Palette.FogFor | main.js:1013-1023 | no fog for mirror, pastel and space; otherwise a linear fog in the entry's own backdrop colour, with near below far |
| Palette.TableIsBijective | main.js:990-997 | the table has six entries, no two entries share a scene type, and IndexOf inverts the lookup |
| Palette.CycleOrder | main.js:990-997 | the cycle visits mirror, pastel, garden, neon, space, bubbles, then repeats with period 6 |
| Palette.SixConsecutiveStepsAreDistinct | main.js:1041 | any six consecutive environment steps show six different scenes |
| Palette.EveryTypeWithinSixSteps | main.js:1041 | every scene type is shown by one of any six consecutive steps |
| Palette.FogRanges | main.js:1013-1023 | bubbles fog is 2-15, neon 3-20, garden 5-25, each in its backdrop colour; the other three types have no fog |
| Pose.Progress | main.js:1049 | during a session, progress = elapsed / duration lies in [0, 1) |
| Pose.SpinSpeed | main.js:1050 | the current speed lies in (0, 25] when the square root behaves as the real one, and is exactly 25 while that root is 0 |
| Pose.TiltDecay | main.js:1056 | the tilt amplitude lies in (0, 0.5] and equals 0.5 exactly at progress 0 |
| Pose.ClampTilt | main.js:1063 | rotation.x is the oscillation clamped from below at -0.2 |
| Pose.Height | main.js:1060 | the bob height is non-negative, and at most 0.3 for a sine value in [-1, 1] |
| Pose.FramePose | main.js:1056-1067 | tilt about x never below -0.2; height never below 0.15; with real trigonometry, x tilt at most 0.5, z tilt in [-0.5, 0.5], height at most 0.45 |
| Spin.Groups.Visible | main.js:1006-1011 | the set of visible groups holds exactly the types whose flag is set |
| Spin.OnlyShowsOne | main.js:1006-1011 | the flags an environment step sets show exactly the group of the entry's type, and only it |
| Spin.Initial | main.js:13-95 | the page after init: no session, no group visible, the totem at rest height; satisfies the invariant |
| Spin.StartSpinStartsSession | main.js:950-998 | starting a session sets spinning, draws dream iff random > 0.5, and announces the outcome line; duration 20 or 5, clock, last change and cursor at 0, no step yet; scene and pose untouched; keeps the invariant |
| Spin.EnvironmentStepShowsEntry | main.js:1000-1042 | awake: nothing changes; dream: the cursor's entry is shown alone with its fog and colours, the cursor moves on modulo 6, and no other field changes |
| Spin.SpinningFrame | main.js:1048-1075 | a spinning frame keeps the session going, spins on by the current speed, and keeps the pose bounds; it takes a step stamped with the elapsed time exactly when a dream has gone 2 without one; otherwise scene and cursor are kept |
| Spin.CompletionTargets | main.js:1076-1120 | the session ends and text and pose are aimed at rest; awake also hides the stars and aims at #101018/#555; a dream keeps its colours; the group and fog are kept in both cases |
| Spin.UpdateSpinAdvances | main.js:1044-1048 | a frame advances elapsed by delta, and the session stays active exactly while elapsed + delta < duration |
| Spin.ClickGate | main.js:1130-1138 | a click that misses, or comes while spinning, changes nothing; otherwise the drawn outcome starts with its duration and the first frame runs at once |
| Spin.UpdateSpinPreservesInv | main.js:1044-1121 | every frame keeps the invariant |
| Spin.SpinningBranchPreservesInv | main.js:1048-1075 | a spinning frame keeps the invariant: a new step is at least 2 after the last and shows the next entry |
| Spin.CompletionBranchPreservesInv | main.js:1076-1120 | the last frame keeps the invariant |
| Spin.ClickPreservesInv | main.js:1130-1138 | a click keeps the invariant, whether or not it starts a session |
| Spin.SpacedLowerBound | main.js:1070-1073 | the k-th step (from 0) happens at elapsed time 2(k+1) or later |
| Spin.SpacedAppend | main.js:1070-1073 | a step at least 2 after the latest one keeps the steps spaced |
| Spin.NextIndex | main.js:1041 | advancing the cursor modulo 6 follows the count of steps |
| Spin.SwitchCountBound | main.js:1070-1073 | steps spaced 2 apart, all before the duration, number fewer than duration / 2 |
| Spin.SwitchesPerSession | main.js:1070-1073 | an awake session never takes an environment step; a dream takes at most 9 |
| Spin.SwitchOnlyWhenDue | main.js:1070-1073 | a frame adds a step, and advances the cursor, exactly when it is a dream frame still in progress and 2 or more after the last step |
| Spin.AtMostOneVisible | main.js:1006-1011 | in every reachable world at most one of the six groups is visible |
| Spin.CycleShowsOneSceneInOrder | main.js:1000-1042 | after the n-th step of a dream, the n-th scene of the cycle is shown alone, with its fog |
| Spin.Renderer | main.js:1414-1420 | the mirror composer iff mirror is visible; the pastel composer iff pastel is visible and mirror is not |
| Spin.RendererFollowsEnvironment | main.js:1414-1420 | after a step, the frame draws through the mirror (pastel) composer iff the last step showed the mirror (pastel) scene, and through the plain renderer otherwise |
| Spin.Run | main.js:1044-1123 | the frames of a session keep the invariant, the outcome and the duration; they never move elapsed backwards; with no session in progress they change nothing |
| Totem.TotemScene.constructor | main.js:13-95 | the object starts as Spin.Initial with the given scene-construction colours |
| Totem.TotemScene.Click | main.js:1130-1138 | the new state is Spin.Click of the old one; spinTotem runs iff the click hits and no session is in progress; keeps Valid |
| Totem.TotemScene.SpinTotem | main.js:950-1124 | the new state is Spin.SpinTotem of the old one: a fresh session and its first frame; keeps Valid |
| Totem.TotemScene.StartSession | main.js:984-998 | duration from the outcome; elapsed, last change and cursor at 0; nothing else changes |
| Totem.TotemScene.RestartCycle | main.js:987-998 | the last change and the cursor at 0 and no step recorded; nothing else changes |
| Totem.TotemScene.UpdateDreamEnvironment | main.js:1000-1042 | the new state is Spin.EnvironmentStep of the old one |
| Totem.TotemScene.Show | main.js:1006-1039 | the new state is Spin.ShowEntry of the old one: flags, fog and colour targets of the entry |
| Totem.TotemScene.ShowGroup | main.js:1006-1011 | the flags become Spin.Only of the type; nothing else changes |
| Totem.TotemScene.ShowComposedGroups | main.js:1006-1007 | the mirror and pastel flags are set by the type; nothing else changes |
| Totem.TotemScene.ShowPlainGroups | main.js:1008-1011 | the bubbles, neon, garden and space flags are set by the type; nothing else changes |
| Totem.TotemScene.UpdateSpin | main.js:1044-1121 | the new state is Spin.UpdateSpin of the old one; the frame is rescheduled iff the session is still in progress; keeps Valid |
| Totem.TotemScene.Tick | main.js:1046 | elapsed grows by delta; nothing else changes |
| Totem.TotemScene.SpinningFrame | main.js:1048-1075 | the new state is Spin.SpinningBranch of the old one |
| Totem.TotemScene.PoseTotem | main.js:1049-1067 | the new state is Spin.Posed of the old one: spin on by the current speed, then the frame's pose |
| Totem.TotemScene.Complete | main.js:1076-1120 | the new state is Spin.CompletionBranch of the old one |
| Totem.TotemScene.Settle | main.js:1077-1093 | the session ends, the text is aimed at the idle line and the totem at the rest pose; nothing else changes |
| Totem.TotemScene.Upright | main.js:1083-1093 | tilts at 0 and height at 0.15; nothing else changes |
| Totem.TotemScene.ReturnToReality | main.js:1096-1119 | the stars are hidden and the colours aimed at #101018 and #555; nothing else changes |
| Totem.TotemScene.ChangeEnvironment | main.js:1144-1151 | dream (forced, or random > 0.5) sets #2b0a3d/#331a5d; otherwise #101018/#ffffff |
| Totem.TotemScene.RenderPath | main.js:1414-1420 | the render choice is Spin.Renderer of the object's group flags |
| Scenarios.RunFirstFrame | main.js:1044-1047 | a run of n equal frames is its first updateSpin frame followed by the run of the other n - 1, and that frame keeps the invariant |
| Scenarios.Grid | main.js:1070-1073 | the first k step times of a dream in frames of 2: the i-th is 2(i+1) |
| Scenarios.EvenDreamStep | main.js:1044-1075 | in a dream with steps at 2, …, 2k, a frame of 2 short of 20 takes its step at 2(k+1) and keeps the invariant |
| Scenarios.EvenDreamEnd | main.js:1044-1093 | in a dream with steps on the grid of 2, the frame of 2 that reaches 20 follows the ninth step and ends the session on the idle line with its steps kept |
| Scenarios.DreamOfEvenFrames | main.js:1044-1121 | a dream run in frames of 2 ends at 20 with nine steps at 2, 4, …, 18, on the idle line |
| Scenarios.DreamLastFrame | main.js:1044-1121 | a run of frames of 2 from the frame that reaches 20 ends there, with the nine steps at 2, …, 18 |
| Scenarios.DreamClick | main.js:1130-1135 | a dream click from the initial page with a first frame of 0 starts a 20-long dream at 0 with no step |
| Scenarios.AwakeOfUnitFrames | main.js:1044-1121 | an awake run in frames of 1 ends at 5 on the reality colours, stars hidden, idle line |
| Scenarios.AwakeRunKeepsScene | main.js:1070-1120 | an awake session, however its frames fall, leaves groups, fog and cursor as it found them |
| Scenarios.NineStepsEndOnGarden | main.js:990-1041 | after nine steps the cursor is on entry 3 and the garden scene is shown with its fog and colours |
| Scenarios.DreamSession | main.js:950-1124 | the whole first dream session: nine steps at 2, 4, …, 18, cursor 3, garden shown at the end, idle line, session over |
| Scenarios.AwakeAfterDream | main.js:1076-1120 | an awake session after that dream ends on the reality colours, while the dream's garden group and fog stay on |

## Left out

- Scene construction (every `create…Scene`, `createStarField`,
  `createBubbleField`, the lights, the camera, the totem's meshes) is not
  part of this model. The colours the page shows once construction is over
  are parameters of `Spin.Initial` and of the constructor. init sets the
  backdrop to #101018 and the ground to #666 (main.js:35, 61). The mirror
  and pastel constructors then replace the backdrop (main.js:681, 789), so
  it ends at #ffe9f3. The neon, garden and space constructors replace the
  ground's material (main.js:258, 339, 528), so the ground ends on the moon
  ground's 0x1b1d2a (main.js:523-527). These two values, 0xffe9f3 and
  0x1b1d2a, are what the parameters take on the page.
- The decorative per-frame animation in `animate` (stars, bubbles, neon,
  garden, asteroids, mirror objects) is left out; only its final render
  choice is modelled.
- `Math.sin`, `Math.cos` and `Math.pow(·, 0.5)` are uninterpreted
  functions passed in as `Trig`. The pose bounds that depend on their real
  ranges are stated under `InRange`. Floating-point rounding is not
  modelled; reals are exact.
- GSAP interpolation is modelled as its target value, reached at once: the
  backdrop, ground, rotation and position tweens, and the text fade
  (`animateTextChange`, whose text switch happens in an `onComplete`
  callback). Retargeting in mid-flight, the easing and the intermediate
  colours are not modelled.
- Totem.TotemScene.ReturnToReality: the star field is hidden at once (`visible :=
  false`), while the source first fades its opacity and sets `visible` in the
  tween's completion callback. The star field is never made visible by the
  code modelled here.
- `requestAnimationFrame` and `THREE.Clock` are not modelled. `delta` is an
  input of every frame. `Spin.Run` feeds a sequence of them, and frames
  after the session ends are never scheduled. The clock is created once at
  init (main.js:1140) and never restarted, so the first delta of a later
  session carries the idle time since the previous one. The model accepts
  any non-negative delta, including one that ends the session at once.
- `Math.random()` is a parameter `random` in [0, 1).
- Raycasting, mouse coordinates, the DOM overlay element and window resize
  are left out. The click handler is given only whether the ray hit the
  totem.
- Zero-length frames are allowed, so the model states no liveness (that a
  session eventually ends); termination depends on the clock.
- Colours are 24-bit RGB integers. The shorthand `#555` and `#666` is
  written out as 0x555555 and 0x666666. THREE.Color's floating-point
  channels are not modelled.
- `changeEnvironment` (main.js:1144-1151) is modelled, but nothing in
  main.js calls it.
- Awake completion does not clear the scene groups. It hides only the star
  field (main.js:1096-1104) and turns the backdrop and the ground to the
  reality colours (main.js:1106-1118). A group that an earlier dream left
  visible stays visible, with its fog, on top of those colours.
  `Scenarios.AwakeAfterDream` shows the case.
- The overlay's French text is not modelled: `Spin.Line` names the three
  lines (main.js:659, 979-980, 1080) by what they say.
