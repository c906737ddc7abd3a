/**
 * The spin session of main.js as a function on values: `World` is everything
 * the click handler, spinTotem, updateSpin and updateDreamEnvironment read or
 * write, and each of them is a function from the world before to the world
 * after. `Inv` is what every reachable world satisfies; the lemmas prove that
 * each step keeps it and what it means for the scene.
 *
 * Each GSAP tween is recorded as the value it is aimed at: the background and
 * ground colours, the overlay text, and the rest pose at the end of a session.
 */
module Spin {
  import opened Palette
  import opened Pose

  /**
   * The three lines of the text overlay, by what they say rather than their
   * French text (main.js:659, 979-980, 1080): the idle invitation to click,
   * "you are dreaming" and "you are awake".
   */
  datatype Line = Idle | DreamOutcome | AwakeOutcome

  /** The "reality" colours an awake session ends on: `#101018` and `#555`. */
  const RealityBackground: Color := 0x101018
  const RealityGround: Color := 0x555555

  /** How long a dream session waits, in elapsed time, between environment steps. */
  const SwitchInterval: real := 2.0

  /** The length of a session: 20 for a dream, 5 for an awake outcome. */
  function Duration(dream: bool): real
  {
    if dream then 20.0 else 5.0
  }

  /** The overlay line that announces an outcome. */
  function OutcomeLine(dream: bool): Line
  {
    if dream then DreamOutcome else AwakeOutcome
  }

  /** The `visible` flags of the six scene groups. */
  datatype Groups = Groups(mirror: bool, pastel: bool, garden: bool, neon: bool, space: bool, bubbles: bool)
  {
    /** Whether the group of type k is visible. */
    function Shown(k: SceneType): bool
    {
      match k
      case Mirror => mirror
      case Pastel => pastel
      case Garden => garden
      case Neon => neon
      case Space => space
      case Bubbles => bubbles
    }

    /** The set of visible groups. */
    function Visible(): (r: set<SceneType>)
      ensures forall k :: k in r <==> Shown(k)
    {
      (if mirror then {Mirror} else {}) + (if pastel then {Pastel} else {})
      + (if garden then {Garden} else {}) + (if neon then {Neon} else {})
      + (if space then {Space} else {}) + (if bubbles then {Bubbles} else {})
    }

    /** How many groups are visible. */
    function Count(): nat
    {
      (if mirror then 1 else 0) + (if pastel then 1 else 0)
      + (if garden then 1 else 0) + (if neon then 1 else 0)
      + (if space then 1 else 0) + (if bubbles then 1 else 0)
    }
  }

  /** The flags updateDreamEnvironment sets for an entry of type k: each group is visible iff its type is k. */
  function Only(k: SceneType): Groups
  {
    Groups(k == Mirror, k == Pastel, k == Garden, k == Neon, k == Space, k == Bubbles)
  }

  /** The flags of an environment step show exactly the one group of its type. */
  lemma OnlyShowsOne(k: SceneType)
    ensures Only(k).Visible() == {k} && Only(k).Count() == 1
  {
    assert forall j :: Only(k).Shown(j) <==> j == k;
  }

  /** The state of the page that the spin session works on. */
  datatype World = World(
    /** `isSpinning` */
    spinning: bool,
    // The closure variables of the current (or last) spinTotem session.
    dream: bool,
    duration: real,
    elapsed: real,
    lastEnvironmentChange: real,
    colorIndex: nat,
    /** The elapsed times at which the session took an environment step, oldest first. */
    switchTimes: seq<real>,
    // The scene.
    groups: Groups,
    starVisible: bool,
    fog: Fog,
    background: Color,
    groundColor: Color,
    overlayText: Line,
    // The totem's transform.
    rotationX: real,
    rotationY: real,
    rotationZ: real,
    positionY: real)

  /** The world after init(), given the colours scene construction leaves: nothing spinning or shown, the totem upright at rest height. */
  function Initial(background: Color, groundColor: Color): (w: World)
    ensures Inv(w) && !w.spinning && w.groups.Visible() == {}
  {
    World(false, false, Duration(false), 0.0, 0.0, 0, [],
      Groups(false, false, false, false, false, false), false, NoFog, background, groundColor, Idle,
      0.0, 0.0, 0.0, RestHeight)
  }

  /** Switch times of a session: the first at 2 or later, each at least 2 after any earlier one. */
  ghost predicate Spaced(ts: seq<real>)
  {
    && (|ts| > 0 ==> ts[0] >= SwitchInterval)
    && (forall i, j :: 0 <= i < j < |ts| ==> ts[j] - ts[i] >= SwitchInterval)
  }

  /** The scene shows entry e: its group alone, its fog and its colours. */
  ghost predicate Showing(w: World, e: Entry)
  {
    w.groups == Only(e.kind) && w.fog == FogFor(e) && w.background == e.bg && w.groundColor == e.ground
  }

  /** The invariant of a session: its length, its clock, and the spacing and count of its environment steps. */
  ghost predicate SessionValid(w: World)
  {
    && w.duration == Duration(w.dream)
    && 0.0 <= w.lastEnvironmentChange <= w.elapsed
    // a session is active exactly while its elapsed time is short of its duration
    && (w.spinning ==> w.elapsed < w.duration)
    && w.colorIndex == |w.switchTimes| % CycleLength
    && Spaced(w.switchTimes)
    && (forall i :: 0 <= i < |w.switchTimes| ==> w.switchTimes[i] < w.duration)
    && (if |w.switchTimes| == 0 then w.lastEnvironmentChange == 0.0
        else w.lastEnvironmentChange == w.switchTimes[|w.switchTimes| - 1])
    && (!w.dream ==> w.switchTimes == [])
  }

  /** The invariant of the scene: at most one group visible, and after an environment step the entry it showed. */
  ghost predicate SceneValid(w: World)
  {
    && w.groups.Count() <= 1
    && (|w.switchTimes| > 0 ==> Showing(w, DreamColors[(|w.switchTimes| - 1) % CycleLength]))
  }

  ghost predicate Inv(w: World)
  {
    SessionValid(w) && SceneValid(w)
  }

  /**
   * spinTotem up to its first call of updateSpin: `isSpinning = true`, the
   * outcome drawn as Math.random() > 0.5, the outcome line announced, and a
   * fresh session of the outcome's length. Scene and pose are left alone.
   */
  function StartSpin(w: World, random: real): World
    requires 0.0 <= random < 1.0
  {
    var dream := random > 0.5;
    w.(spinning := true, dream := dream, overlayText := OutcomeLine(dream), duration := Duration(dream),
      elapsed := 0.0, lastEnvironmentChange := 0.0, colorIndex := 0, switchTimes := [])
  }

  /** A started session is spinning, has the drawn outcome and its length, a zero clock and no environment step yet; the scene and the pose are left alone. */
  lemma StartSpinStartsSession(w: World, random: real)
    requires 0.0 <= random < 1.0
    ensures var r := StartSpin(w, random);
      && r.spinning && r.dream == (random > 0.5) && r.duration == Duration(r.dream)
      && r.elapsed == 0.0 && r.lastEnvironmentChange == 0.0 && r.colorIndex == 0 && r.switchTimes == []
      && r.overlayText == OutcomeLine(r.dream)
      && r.groups == w.groups && r.fog == w.fog && r.background == w.background && r.groundColor == w.groundColor
      && r.starVisible == w.starVisible
      && r.rotationX == w.rotationX && r.rotationY == w.rotationY && r.rotationZ == w.rotationZ && r.positionY == w.positionY
    ensures SceneValid(w) ==> Inv(StartSpin(w, random))
  {
  }

  /**
   * updateDreamEnvironment: in a dream, show the group of the entry the
   * cursor is on and hide the other five, install that entry's fog, aim the
   * backdrop and the ground at its colours, and move the cursor on, wrapping
   * after the sixth entry; in an awake session, nothing.
   */
  function EnvironmentStep(w: World): World
    requires w.colorIndex < CycleLength
  {
    if !w.dream then w
    else ShowEntry(w, DreamColors[w.colorIndex]).(colorIndex := (w.colorIndex + 1) % CycleLength)
  }

  /** What an environment step sets for entry e: the visibility flags, the fog and the two colour targets. */
  function ShowEntry(w: World, e: Entry): World
  {
    w.(groups := Only(e.kind), fog := FogFor(e), background := e.bg, groundColor := e.ground)
  }

  /** An environment step of a dream shows the cursor's entry, alone, and moves the cursor on; one of an awake session changes nothing. */
  lemma EnvironmentStepShowsEntry(w: World)
    requires w.colorIndex < CycleLength
    ensures var r := EnvironmentStep(w);
      && (!w.dream ==> r == w)
      && (w.dream ==> Showing(r, DreamColors[w.colorIndex]) && r.groups.Visible() == {DreamColors[w.colorIndex].kind})
      && (w.dream ==> r.colorIndex == (w.colorIndex + 1) % CycleLength)
      && r.(groups := w.groups, fog := w.fog, background := w.background, groundColor := w.groundColor,
          colorIndex := w.colorIndex) == w
  {
    OnlyShowsOne(DreamColors[w.colorIndex].kind);
  }

  /** Whether a frame at elapsed time e takes an environment step: a dream that has gone 2 without one. */
  predicate SwitchDue(w: World, e: real)
  {
    w.dream && e - w.lastEnvironmentChange >= SwitchInterval
  }

  /**
   * The branch of updateSpin taken while `elapsed < duration` (elapsed
   * already advanced): spin on about y by the current speed, take the pose of
   * the new elapsed time and, when one is due, an environment step stamped
   * with the elapsed time.
   */
  function SpinningBranch(w: World, delta: real, m: Trig): World
    requires 0.0 <= w.elapsed < w.duration && w.colorIndex < CycleLength
  {
    var posed := Posed(w, delta, m);
    if SwitchDue(w, w.elapsed) then
      EnvironmentStep(posed).(lastEnvironmentChange := w.elapsed, switchTimes := w.switchTimes + [w.elapsed])
    else
      posed
  }

  /** The pose part of a spinning frame: spin on about y by the current speed, tilt and bob by the decaying oscillation. */
  function Posed(w: World, delta: real, m: Trig): World
    requires 0.0 <= w.elapsed < w.duration
  {
    var pose := FramePose(m, w.elapsed, w.duration);
    w.(rotationY := w.rotationY + SpinSpeed(m, Progress(w.elapsed, w.duration)) * delta,
      rotationX := pose.rotationX, rotationZ := pose.rotationZ, positionY := pose.positionY)
  }

  /**
   * A spinning frame keeps the session going with its clock, spins on by the
   * current speed, holds the pose bounds (tilt about x never under -0.2,
   * height never under 0.15, and within the ranges the real sine and cosine
   * allow), and takes an environment step exactly when one is due, stamped
   * with the elapsed time; without one the scene and cursor stay as they are.
   */
  lemma SpinningFrame(w: World, delta: real, m: Trig)
    requires 0.0 <= w.elapsed < w.duration && w.colorIndex < CycleLength
    ensures var r := SpinningBranch(w, delta, m);
      && r.spinning == w.spinning && r.elapsed == w.elapsed && r.dream == w.dream && r.duration == w.duration
      && r.rotationY == w.rotationY + SpinSpeed(m, Progress(w.elapsed, w.duration)) * delta
      && r.rotationX >= MinTiltX && r.positionY >= RestHeight
      && (InRange(m) ==> r.rotationX <= InitialTilt && -InitialTilt <= r.rotationZ <= InitialTilt)
      && (InRange(m) ==> r.positionY <= RestHeight + BobAmplitude)
      && r.overlayText == w.overlayText && r.starVisible == w.starVisible
    ensures var r := SpinningBranch(w, delta, m);
      SwitchDue(w, w.elapsed) ==>
        && r.switchTimes == w.switchTimes + [w.elapsed] && r.lastEnvironmentChange == w.elapsed
        && Showing(r, DreamColors[w.colorIndex]) && r.colorIndex == (w.colorIndex + 1) % CycleLength
    ensures var r := SpinningBranch(w, delta, m);
      !SwitchDue(w, w.elapsed) ==>
        && r.switchTimes == w.switchTimes && r.lastEnvironmentChange == w.lastEnvironmentChange
        && r.groups == w.groups && r.fog == w.fog && r.colorIndex == w.colorIndex
        && r.background == w.background && r.groundColor == w.groundColor
  {
    EnvironmentStepShowsEntry(Posed(w, delta, m));
  }

  /**
   * The branch of updateSpin taken once `elapsed >= duration`: the session
   * ends, the text is aimed at the idle line and the totem at the upright
   * rest pose; after an awake outcome the star field is hidden and the
   * colours are aimed at reality, after a dream they stay as they are.
   */
  function CompletionBranch(w: World): World
  {
    var settled := w.(spinning := false, overlayText := Idle, rotationX := 0.0, rotationZ := 0.0, positionY := RestHeight);
    if w.dream then settled
    else settled.(starVisible := false, background := RealityBackground, groundColor := RealityGround)
  }

  /**
   * The last frame ends the session and aims text and pose at rest; an awake
   * session also hides the stars and returns to the reality colours, while a
   * dream leaves its colours, its stars and (in both cases) the visible group
   * and the fog as they were. The session's clock and cursor are kept.
   */
  lemma CompletionTargets(w: World)
    ensures var r := CompletionBranch(w);
      && !r.spinning && r.overlayText == Idle
      && r.rotationX == 0.0 && r.rotationZ == 0.0 && r.positionY == RestHeight && r.rotationY == w.rotationY
      && (w.dream ==> r.background == w.background && r.groundColor == w.groundColor && r.starVisible == w.starVisible)
      && (!w.dream ==> r.background == RealityBackground && r.groundColor == RealityGround && !r.starVisible)
      && r.groups == w.groups && r.fog == w.fog
      && r.dream == w.dream && r.duration == w.duration && r.elapsed == w.elapsed
      && r.lastEnvironmentChange == w.lastEnvironmentChange && r.colorIndex == w.colorIndex
      && r.switchTimes == w.switchTimes
  {
  }

  /** updateSpin for a frame of length delta: `elapsed += delta`, then the branch the new elapsed time selects. */
  function UpdateSpin(w: World, delta: real, m: Trig): World
    requires Inv(w) && w.spinning && delta >= 0.0
  {
    var advanced := w.(elapsed := w.elapsed + delta);
    if advanced.elapsed < advanced.duration then SpinningBranch(advanced, delta, m)
    else CompletionBranch(advanced)
  }

  /**
   * The click handler: a click that hits the totem while no session is in
   * progress runs spinTotem, which starts a session and runs its first frame
   * at once; any other click changes nothing.
   */
  function Click(w: World, hit: bool, random: real, delta: real, m: Trig): World
    requires Inv(w) && 0.0 <= random < 1.0 && delta >= 0.0
  {
    if hit && !w.spinning then SpinTotem(w, random, delta, m) else w
  }

  /** spinTotem: start a session and run its first frame, of length delta, at once. */
  function SpinTotem(w: World, random: real, delta: real, m: Trig): World
    requires Inv(w) && 0.0 <= random < 1.0 && delta >= 0.0
  {
    StartSpinStartsSession(w, random);
    UpdateSpin(StartSpin(w, random), delta, m)
  }

  /** A frame advances the clock by its length; the session goes on exactly while the clock is short of the duration. */
  lemma UpdateSpinAdvances(w: World, delta: real, m: Trig)
    requires Inv(w) && w.spinning && delta >= 0.0
    ensures var r := UpdateSpin(w, delta, m);
      && r.elapsed == w.elapsed + delta && r.dream == w.dream && r.duration == w.duration
      && (r.spinning <==> w.elapsed + delta < w.duration)
  {
  }

  /**
   * The re-entrancy gate: a click changes nothing unless it hits the totem
   * while no session is in progress; one that does starts the drawn outcome
   * and runs its first frame.
   */
  lemma ClickGate(w: World, hit: bool, random: real, delta: real, m: Trig)
    requires Inv(w) && 0.0 <= random < 1.0 && delta >= 0.0
    ensures !(hit && !w.spinning) ==> Click(w, hit, random, delta, m) == w
    ensures hit && !w.spinning ==> var r := Click(w, hit, random, delta, m);
      && r.dream == (random > 0.5) && r.duration == Duration(r.dream) && r.elapsed == delta
      && (r.spinning <==> delta < r.duration)
      && r.overlayText == (if r.spinning then OutcomeLine(r.dream) else Idle)
  {
    if hit && !w.spinning {
      StartSpinStartsSession(w, random);
      UpdateSpinAdvances(StartSpin(w, random), delta, m);
    }
  }

  /** Every frame of a session keeps the invariant. */
  lemma UpdateSpinPreservesInv(w: World, delta: real, m: Trig)
    requires Inv(w) && w.spinning && delta >= 0.0
    ensures Inv(UpdateSpin(w, delta, m))
  {
    if w.elapsed + delta < w.duration {
      SpinningBranchPreservesInv(w, delta, m);
    } else {
      CompletionBranchPreservesInv(w, delta);
    }
  }

  /** A spinning frame keeps the invariant: an environment step is spaced from the last and shows the next entry. */
  lemma SpinningBranchPreservesInv(w: World, delta: real, m: Trig)
    requires Inv(w) && w.spinning && delta >= 0.0 && w.elapsed + delta < w.duration
    ensures Inv(SpinningBranch(w.(elapsed := w.elapsed + delta), delta, m))
  {
    var a := w.(elapsed := w.elapsed + delta);
    var r := SpinningBranch(a, delta, m);
    if SwitchDue(a, a.elapsed) {
      var n := |w.switchTimes|;
      SpacedAppend(w.switchTimes, a.elapsed);
      NextIndex(n);
      assert (|r.switchTimes| - 1) % CycleLength == w.colorIndex;
    }
  }

  /** The last frame keeps the invariant: an awake session has no environment step for the reality colours to contradict. */
  lemma CompletionBranchPreservesInv(w: World, delta: real)
    requires Inv(w) && w.spinning && delta >= 0.0 && w.elapsed + delta >= w.duration
    ensures Inv(CompletionBranch(w.(elapsed := w.elapsed + delta)))
  {
  }

  /** A click keeps the invariant, whether it starts a session or not. */
  lemma ClickPreservesInv(w: World, hit: bool, random: real, delta: real, m: Trig)
    requires Inv(w) && 0.0 <= random < 1.0 && delta >= 0.0
    ensures Inv(Click(w, hit, random, delta, m))
  {
    if hit && !w.spinning {
      StartSpinStartsSession(w, random);
      UpdateSpinPreservesInv(StartSpin(w, random), delta, m);
    }
  }

  /** The k-th switch (from 0) of a spaced sequence happens no earlier than 2 * (k + 1). */
  lemma {:induction false} SpacedLowerBound(ts: seq<real>)
    requires Spaced(ts)
    ensures forall k :: 0 <= k < |ts| ==> ts[k] >= SwitchInterval * (k + 1) as real
  {
    if |ts| > 1 {
      var front := ts[..|ts| - 1];
      assert Spaced(front) by {
        assert forall i :: 0 <= i < |front| ==> front[i] == ts[i];
      }
      SpacedLowerBound(front);
      assert forall k :: 0 <= k < |front| ==> front[k] == ts[k];
      var n := |ts| - 1;
      assert ts[n] - ts[n - 1] >= SwitchInterval;
    }
  }

  /** A switch 2 or more after the latest one keeps the sequence spaced. */
  lemma SpacedAppend(ts: seq<real>, t: real)
    requires Spaced(ts)
    requires if |ts| == 0 then t >= SwitchInterval else t - ts[|ts| - 1] >= SwitchInterval
    ensures Spaced(ts + [t])
  {
    var ts' := ts + [t];
    forall i, j | 0 <= i < j < |ts'| ensures ts'[j] - ts'[i] >= SwitchInterval {
      if j == |ts| && i < |ts| - 1 {
        assert ts[|ts| - 1] - ts[i] >= SwitchInterval;
      }
    }
  }

  /** Moving the cursor on by one, modulo the table length, follows the count of steps. */
  lemma NextIndex(n: nat)
    ensures (n % CycleLength + 1) % CycleLength == (n + 1) % CycleLength
  {
  }

  /** Switches spaced 2 apart, all before `duration`, number fewer than duration / 2. */
  lemma SwitchCountBound(ts: seq<real>, duration: real)
    requires Spaced(ts)
    requires forall k :: 0 <= k < |ts| ==> ts[k] < duration
    ensures |ts| > 0 ==> SwitchInterval * |ts| as real < duration
  {
    SpacedLowerBound(ts);
    if |ts| > 0 {
      assert ts[|ts| - 1] >= SwitchInterval * |ts| as real;
    }
  }

  /** An awake session never changes environment; a dream session changes it at most 9 times. */
  lemma SwitchesPerSession(w: World)
    requires Inv(w)
    ensures !w.dream ==> |w.switchTimes| == 0
    ensures w.dream ==> |w.switchTimes| <= 9
  {
    SwitchCountBound(w.switchTimes, w.duration);
  }

  /** A frame takes an environment step exactly when it is a dream frame 2 or more after the last step. */
  lemma SwitchOnlyWhenDue(w: World, delta: real, m: Trig)
    requires Inv(w) && w.spinning && delta >= 0.0
    ensures var r := UpdateSpin(w, delta, m);
      |r.switchTimes| == |w.switchTimes| + (if r.spinning && SwitchDue(w, r.elapsed) then 1 else 0)
    ensures var r := UpdateSpin(w, delta, m);
      r.colorIndex == (if r.spinning && SwitchDue(w, r.elapsed) then (w.colorIndex + 1) % CycleLength else w.colorIndex)
  {
  }

  /** At most one of the six groups is visible in every reachable world. */
  lemma AtMostOneVisible(w: World)
    requires Inv(w)
    ensures |w.groups.Visible()| <= 1
  {
    var g := w.groups;
    if g.mirror {
      assert g.Visible() == {Mirror};
    } else if g.pastel {
      assert g.Visible() == {Pastel};
    } else if g.garden {
      assert g.Visible() == {Garden};
    } else if g.neon {
      assert g.Visible() == {Neon};
    } else if g.space {
      assert g.Visible() == {Space};
    } else if g.bubbles {
      assert g.Visible() == {Bubbles};
    } else {
      assert g.Visible() == {};
    }
  }

  /** After the n-th environment step of a dream (from 1), the n-th scene of the cycle is shown, alone. */
  lemma CycleShowsOneSceneInOrder(w: World)
    requires Inv(w) && |w.switchTimes| > 0
    ensures w.groups.Visible() == {CycleKind(|w.switchTimes| - 1)}
    ensures w.fog == FogFor(DreamColors[(|w.switchTimes| - 1) % CycleLength])
  {
  }

  /** Which of the three renderers `animate` draws the frame with. */
  datatype RenderPath = MirrorComposer | PastelComposer | PlainRenderer

  /** The render choice of `animate`: the mirror composer, else the pastel composer, else the plain renderer. */
  function Renderer(g: Groups): (r: RenderPath)
    ensures r == MirrorComposer <==> Mirror in g.Visible()
    ensures r == PastelComposer <==> Pastel in g.Visible() && Mirror !in g.Visible()
  {
    if g.mirror then MirrorComposer
    else if g.pastel then PastelComposer
    else PlainRenderer
  }

  /** Once a dream has taken an environment step, the mirror and pastel scenes draw through their composers. */
  lemma RendererFollowsEnvironment(w: World)
    requires Inv(w) && |w.switchTimes| > 0
    ensures Renderer(w.groups) == MirrorComposer <==> CycleKind(|w.switchTimes| - 1) == Mirror
    ensures Renderer(w.groups) == PastelComposer <==> CycleKind(|w.switchTimes| - 1) == Pastel
    ensures Renderer(w.groups) == PlainRenderer <==> CycleKind(|w.switchTimes| - 1) !in {Mirror, Pastel}
  {
    CycleShowsOneSceneInOrder(w);
  }

  /** The frames of one session, each of length deltas[i], until the session ends; later frames are never scheduled. */
  function Run(w: World, deltas: seq<real>, m: Trig): (r: World)
    requires Inv(w) && forall i :: 0 <= i < |deltas| ==> deltas[i] >= 0.0
    ensures Inv(r)
    ensures r.dream == w.dream && r.duration == w.duration
    ensures w.spinning ==> r.elapsed >= w.elapsed
    ensures !w.spinning ==> r == w
    decreases |deltas|
  {
    if |deltas| == 0 || !w.spinning then w
    else
      UpdateSpinPreservesInv(w, deltas[0], m);
      Run(UpdateSpin(w, deltas[0], m), deltas[1..], m)
  }
}
