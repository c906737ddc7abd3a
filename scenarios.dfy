/**
 * Whole sessions of the spin state machine, run frame by frame: a dream of
 * twenty time units in frames of 2, and an awake session after it in frames
 * of 1. The first frame of the first session has length 0, as the first
 * reading of a freshly created THREE.Clock is.
 */
module Scenarios {
  import opened Palette
  import opened Pose
  import opened Spin

  /** n frames of the same length. */
  function Frames(n: nat, delta: real): (ds: seq<real>)
    ensures |ds| == n && forall i :: 0 <= i < n ==> ds[i] == delta
  {
    if n == 0 then [] else [delta] + Frames(n - 1, delta)
  }

  /** A run of n frames of length delta is its first frame followed by the run of the other n - 1. */
  lemma RunFirstFrame(w: World, n: nat, delta: real, m: Trig)
    requires Inv(w) && w.spinning && n > 0 && delta >= 0.0
    ensures UpdateSpin.requires(w, delta, m) && Inv(UpdateSpin(w, delta, m))
    ensures Run(w, Frames(n, delta), m) == Run(UpdateSpin(w, delta, m), Frames(n - 1, delta), m)
  {
    UpdateSpinPreservesInv(w, delta, m);
    assert Frames(n, delta)[1..] == Frames(n - 1, delta);
  }

  /** The first k points of the grid of 2: 2, 4, …, 2k. */
  function Grid(k: nat): (g: seq<real>)
    ensures |g| == k && forall i :: 0 <= i < k ==> g[i] == 2.0 * (i + 1) as real
  {
    if k == 0 then [] else Grid(k - 1) + [2.0 * k as real]
  }

  /** The grid of nine points written out. */
  lemma GridOfNine()
    ensures Grid(9) == [2.0, 4.0, 6.0, 8.0, 10.0, 12.0, 14.0, 16.0, 18.0]
  {
  }

  /** A frame of length 2 after the k-th step of a dream on the grid of 2, short of 20: the step at 2(k + 1). */
  lemma EvenDreamStep(w: World, k: nat, m: Trig)
    requires Inv(w) && w.spinning && w.dream && k + 1 < 10
    requires w.elapsed == 2.0 * k as real && w.switchTimes == Grid(k) && w.lastEnvironmentChange == w.elapsed
    ensures var r := UpdateSpin(w, 2.0, m);
      && Inv(r) && r.spinning && r.dream && r.elapsed == 2.0 * (k + 1) as real
      && r.switchTimes == Grid(k + 1) && r.lastEnvironmentChange == r.elapsed
  {
    UpdateSpinPreservesInv(w, 2.0, m);
    var a := w.(elapsed := w.elapsed + 2.0);
    SpinningFrame(a, 2.0, m);
    assert UpdateSpin(w, 2.0, m) == SpinningBranch(a, 2.0, m);
    assert Grid(k + 1) == Grid(k) + [a.elapsed];
  }

  /** On the grid of 2 the frame that reaches 20 follows the ninth step, and ends the dream with its switch times as they were. */
  lemma EvenDreamEnd(w: World, k: nat, m: Trig)
    requires Inv(w) && w.spinning && w.dream && k + 1 >= 10
    requires w.elapsed == 2.0 * k as real && w.switchTimes == Grid(k)
    ensures var r := UpdateSpin(w, 2.0, m);
      !r.spinning && r.elapsed == 20.0 && |r.switchTimes| == 9 && r.switchTimes == Grid(|r.switchTimes|)
      && r.overlayText == Idle
  {
    assert 2.0 * k as real < 20.0;
    assert k == 9;
    var a := w.(elapsed := w.elapsed + 2.0);
    CompletionTargets(a);
    assert UpdateSpin(w, 2.0, m) == CompletionBranch(a);
  }

  /**
   * A dream frame by frame in frames of 2, from the k-th frame on: every frame
   * short of 20 takes an environment step at its own elapsed time, and the
   * frame that reaches 20 ends the session after nine of them, at 2, 4, …, 18.
   */
  lemma {:induction false} DreamOfEvenFrames(w: World, k: nat, n: nat, m: Trig)
    requires Inv(w) && w.spinning && w.dream
    requires w.elapsed == 2.0 * k as real && w.switchTimes == Grid(k) && w.lastEnvironmentChange == w.elapsed
    requires k + n >= 10
    ensures var r := Run(w, Frames(n, 2.0), m);
      !r.spinning && r.elapsed == 20.0 && |r.switchTimes| == 9 && r.switchTimes == Grid(|r.switchTimes|)
      && r.overlayText == Idle
    decreases n
  {
    if k + 1 < 10 {
      RunFirstFrame(w, n, 2.0, m);
      EvenDreamStep(w, k, m);
      DreamOfEvenFrames(UpdateSpin(w, 2.0, m), k + 1, n - 1, m);
    } else {
      DreamLastFrame(w, k, n, m);
    }
  }

  /** A run of frames of 2 that starts on the frame reaching 20 ends there. */
  lemma DreamLastFrame(w: World, k: nat, n: nat, m: Trig)
    requires Inv(w) && w.spinning && w.dream && k + 1 >= 10 && n > 0
    requires w.elapsed == 2.0 * k as real && w.switchTimes == Grid(k)
    ensures var r := Run(w, Frames(n, 2.0), m);
      !r.spinning && r.elapsed == 20.0 && |r.switchTimes| == 9 && r.switchTimes == Grid(|r.switchTimes|)
      && r.overlayText == Idle
  {
    RunFirstFrame(w, n, 2.0, m);
    EvenDreamEnd(w, k, m);
    var r1 := UpdateSpin(w, 2.0, m);
    assert Run(r1, Frames(n - 1, 2.0), m) == r1;
  }

  /** A click from the initial page that draws a dream (random 0.75), with a first frame of length 0: a dream at 0 with no step yet. */
  lemma DreamClick(background: Color, groundColor: Color, m: Trig)
    ensures var r := Click(Initial(background, groundColor), true, 0.75, 0.0, m);
      && Inv(r) && r.spinning && r.dream && r.duration == 20.0 && r.elapsed == 0.0
      && r.switchTimes == [] && r.lastEnvironmentChange == 0.0
  {
    var w0 := Initial(background, groundColor);
    ClickGate(w0, true, 0.75, 0.0, m);
    ClickPreservesInv(w0, true, 0.75, 0.0, m);
    StartSpinStartsSession(w0, 0.75);
    SpinningFrame(StartSpin(w0, 0.75), 0.0, m);
  }

  /** An awake session frame by frame in frames of 1, from the k-th frame on, ends on the frame that reaches 5. */
  lemma {:induction false} AwakeOfUnitFrames(w: World, k: nat, n: nat, m: Trig)
    requires Inv(w) && w.spinning && !w.dream
    requires w.elapsed == k as real && k + n >= 5
    ensures var r := Run(w, Frames(n, 1.0), m);
      && !r.spinning && r.elapsed == 5.0 && r.overlayText == Idle
      && r.background == RealityBackground && r.groundColor == RealityGround && !r.starVisible
    decreases n
  {
    var r1 := UpdateSpin(w, 1.0, m);
    RunFirstFrame(w, n, 1.0, m);
    UpdateSpinAdvances(w, 1.0, m);
    if k + 1 < 5 {
      AwakeOfUnitFrames(r1, k + 1, n - 1, m);
    } else {
      CompletionTargets(w.(elapsed := w.elapsed + 1.0));
    }
  }

  /** However its frames fall, an awake session leaves the scene groups, the fog and the cycle as it found them. */
  lemma {:induction false} AwakeRunKeepsScene(w: World, deltas: seq<real>, m: Trig)
    requires Inv(w) && !w.dream && forall i :: 0 <= i < |deltas| ==> deltas[i] >= 0.0
    ensures var r := Run(w, deltas, m);
      r.groups == w.groups && r.fog == w.fog && r.colorIndex == w.colorIndex && r.switchTimes == []
    decreases |deltas|
  {
    if |deltas| > 0 && w.spinning {
      var r1 := UpdateSpin(w, deltas[0], m);
      UpdateSpinPreservesInv(w, deltas[0], m);
      if w.elapsed + deltas[0] < w.duration {
        SpinningFrame(w.(elapsed := w.elapsed + deltas[0]), deltas[0], m);
      } else {
        CompletionTargets(w.(elapsed := w.elapsed + deltas[0]));
      }
      AwakeRunKeepsScene(r1, deltas[1..], m);
    }
  }

  /**
   * A click from the initial page that draws a dream (random 0.75), its
   * first frame of length 0 and then frames of 2, ten or more (the ones
   * after the end are never scheduled): nine environment steps, at 2, 4, …,
   * 18; the session ends at 20 with the scene of the ninth step, garden, its
   * fog and its colours still on and the cursor on entry 3.
   */
  ghost function DreamSession(background: Color, groundColor: Color, m: Trig, frames: nat): (r: World)
    requires frames >= 10
    ensures Inv(r) && !r.spinning && r.dream && r.elapsed == 20.0 && r.overlayText == Idle
    ensures r.switchTimes == [2.0, 4.0, 6.0, 8.0, 10.0, 12.0, 14.0, 16.0, 18.0] && r.colorIndex == 3
    ensures r.groups.Visible() == {Garden} && r.fog == LinearFog(0xffeaf4, 5, 25)
    ensures r.background == 0xffeaf4 && r.groundColor == 0xffffff
  {
    DreamClick(background, groundColor, m);
    var w1 := Click(Initial(background, groundColor), true, 0.75, 0.0, m);
    DreamOfEvenFrames(w1, 0, frames, m);
    var r := Run(w1, Frames(frames, 2.0), m);
    GridOfNine();
    NineStepsEndOnGarden(r);
    r
  }

  /** After nine environment steps the cycle has gone once round and on to the garden scene, and its cursor is on entry 3. */
  lemma NineStepsEndOnGarden(w: World)
    requires Inv(w) && |w.switchTimes| == 9
    ensures w.colorIndex == 3 && w.groups.Visible() == {Garden} && w.fog == LinearFog(0xffeaf4, 5, 25)
    ensures w.background == 0xffeaf4 && w.groundColor == 0xffffff
  {
    CycleShowsOneSceneInOrder(w);
    assert CycleKind(8) == Garden;
  }

  /**
   * An awake click after that dream (random 0.25), a first frame of 1 and
   * then frames of 1, four or more: the session
   * ends at 5 on the reality colours with the stars hidden, and the garden
   * group that the dream left visible stays visible, as does its fog; the
   * completion branch only tears down the star field.
   */
  ghost function AwakeAfterDream(background: Color, groundColor: Color, m: Trig, frames: nat): (r: World)
    requires frames >= 4
    ensures Inv(r) && !r.spinning && !r.dream && r.overlayText == Idle
    ensures r.background == RealityBackground && r.groundColor == RealityGround && !r.starVisible
    ensures r.groups.Visible() == {Garden} && r.fog == LinearFog(0xffeaf4, 5, 25)
  {
    var w0 := DreamSession(background, groundColor, m, 10);
    ClickGate(w0, true, 0.25, 1.0, m);
    ClickPreservesInv(w0, true, 0.25, 1.0, m);
    var w1 := Click(w0, true, 0.25, 1.0, m);
    StartSpinStartsSession(w0, 0.25);
    SpinningFrame(StartSpin(w0, 0.25).(elapsed := 1.0), 1.0, m);
    AwakeOfUnitFrames(w1, 1, frames, m);
    AwakeRunKeepsScene(w1, Frames(frames, 1.0), m);
    Run(w1, Frames(frames, 1.0), m)
  }
}
