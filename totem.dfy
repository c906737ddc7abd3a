/**
 * The page's spin state machine as the object main.js updates in place.
 *
 * `TotemScene` holds the module-level `isSpinning` flag, the closure variables
 * of the current spinTotem session (`isDream`, `duration`, `elapsed`,
 * `lastEnvironmentChange`, `colorIndex`), the `visible` flags of the six scene
 * groups and of the star field, `scene.fog`, the colour targets, the overlay
 * line and the totem's transform.
 *
 * The constructor and the three entry points, `Click`, `SpinTotem` and
 * `UpdateSpin`, keep `Valid` and state their new state as the matching
 * function of `Spin` applied to the old state. The other methods are the
 * sub-steps these run. Each states only its part of the new state: a record
 * update of `Snap()`, or the `Spin` function of that sub-step. Between two
 * sub-steps `Valid` may not hold. `ChangeEnvironment`, which nothing in
 * main.js calls, sits outside the invariant: its colours are no entry's.
 */
module Totem {
  import opened Palette
  import opened Pose
  import Spin

  class TotemScene {
    /** `isSpinning` */
    var spinning: bool

    // The closure variables of the current (or last) spinTotem session.
    var dream: bool
    var duration: real
    var elapsed: real
    var lastEnvironmentChange: real
    var colorIndex: nat

    // The `visible` flags of the scene groups.
    var mirrorVisible: bool
    var pastelVisible: bool
    var gardenVisible: bool
    var neonVisible: bool
    var spaceVisible: bool
    var bubbleVisible: bool
    var starVisible: bool

    /** `scene.fog` */
    var fog: Fog
    /** Where `scene.background` and the ground material's colour are headed. */
    var background: Color
    var groundColor: Color
    /** The line the text overlay is headed to. */
    var overlayText: Spin.Line

    // The totem's transform.
    var rotationX: real
    var rotationY: real
    var rotationZ: real
    var positionY: real

    /** Math.sin, Math.cos and Math.pow(·, 0.5). */
    const math: Trig

    /** The elapsed times at which the current session took an environment step, oldest first. */
    ghost var switchTimes: seq<real>

    /** The object's state as a value. */
    ghost function Snap(): Spin.World
      reads this
    {
      Spin.World(spinning, dream, duration, elapsed, lastEnvironmentChange, colorIndex, switchTimes,
        Spin.Groups(mirrorVisible, pastelVisible, gardenVisible, neonVisible, spaceVisible, bubbleVisible),
        starVisible, fog, background, groundColor, overlayText, rotationX, rotationY, rotationZ, positionY)
    }

    ghost predicate Valid()
      reads this
    {
      Spin.Inv(Snap())
    }

    /** The scene as init() leaves it, with the colours scene construction ends on. */
    constructor (math: Trig, background: Color, groundColor: Color)
      ensures Valid() && this.math == math
      ensures Snap() == Spin.Initial(background, groundColor)
    {
      this.math := math;
      spinning := false;
      dream, duration, elapsed, lastEnvironmentChange, colorIndex := false, Spin.Duration(false), 0.0, 0.0, 0;
      mirrorVisible, pastelVisible, gardenVisible, neonVisible, spaceVisible, bubbleVisible := false, false, false, false, false, false;
      starVisible := false;
      fog := NoFog;
      this.background, this.groundColor := background, groundColor;
      overlayText := Spin.Idle;
      rotationX, rotationY, rotationZ, positionY := 0.0, 0.0, 0.0, RestHeight;
      switchTimes := [];
    }

    /**
     * The click handler: `hit` is whether the ray from the click meets the
     * totem, `random` the Math.random() draw of spinTotem, `delta` the
     * clock reading of the first frame.
     */
    method Click(hit: bool, random: real, delta: real) returns (started: bool)
      requires Valid() && 0.0 <= random < 1.0 && delta >= 0.0
      modifies this
      ensures Valid()
      ensures started == (hit && !old(spinning))
      ensures Snap() == Spin.Click(old(Snap()), hit, random, delta, math)
    {
      started := hit && !spinning;
      if started {
        SpinTotem(random, delta);
      }
    }

    /** spinTotem: start a fresh session and run its first frame at once. */
    method SpinTotem(random: real, delta: real)
      requires Valid() && !spinning && 0.0 <= random < 1.0 && delta >= 0.0
      modifies this
      ensures Valid()
      ensures Snap() == Spin.SpinTotem(old(Snap()), random, delta, math)
    {
      ghost var before := Snap();
      spinning := true;
      dream := random > 0.5;
      overlayText := Spin.OutcomeLine(dream);
      StartSession();
      assert Snap() == Spin.StartSpin(before, random);
      Spin.StartSpinStartsSession(before, random);
      var _ := UpdateSpin(delta);
    }

    /** The closure variables a new spinTotem call starts from: the clock of the session and the cycle cursor. */
    method StartSession()
      modifies this`duration, this`elapsed, this`lastEnvironmentChange, this`colorIndex, this`switchTimes
      ensures Snap() == old(Snap()).(duration := Spin.Duration(dream), elapsed := 0.0, lastEnvironmentChange := 0.0,
        colorIndex := 0, switchTimes := [])
    {
      duration := Spin.Duration(dream);
      elapsed := 0.0;
      RestartCycle();
    }

    /** No environment step taken yet: the cycle starts again from the first table entry. */
    method RestartCycle()
      modifies this`lastEnvironmentChange, this`colorIndex, this`switchTimes
      ensures Snap() == old(Snap()).(lastEnvironmentChange := 0.0, colorIndex := 0, switchTimes := [])
    {
      lastEnvironmentChange := 0.0;
      colorIndex := 0;
      switchTimes := [];
    }

    /** updateDreamEnvironment, moving the cursor `colorIndex` on. */
    method UpdateDreamEnvironment()
      requires colorIndex < CycleLength
      modifies this`mirrorVisible, this`pastelVisible, this`gardenVisible, this`neonVisible, this`spaceVisible,
        this`bubbleVisible, this`fog, this`background, this`groundColor, this`colorIndex
      ensures Snap() == Spin.EnvironmentStep(old(Snap()))
    {
      if !dream {
        return;
      }
      var colors := DreamColors[colorIndex];
      Show(colors);
      colorIndex := (colorIndex + 1) % CycleLength;
    }

    /** The part of updateDreamEnvironment that sets the scene for entry `colors`. */
    method Show(colors: Entry)
      modifies this`mirrorVisible, this`pastelVisible, this`gardenVisible, this`neonVisible, this`spaceVisible,
        this`bubbleVisible, this`fog, this`background, this`groundColor
      ensures Snap() == Spin.ShowEntry(old(Snap()), colors)
    {
      ShowGroup(colors.kind);
      fog := FogFor(colors);
      background := colors.bg;
      groundColor := colors.ground;
    }

    /** Make the group of scene type `kind` the only visible one. */
    method ShowGroup(kind: SceneType)
      modifies this`mirrorVisible, this`pastelVisible, this`gardenVisible, this`neonVisible, this`spaceVisible,
        this`bubbleVisible
      ensures Snap() == old(Snap()).(groups := Spin.Only(kind))
    {
      ShowComposedGroups(kind);
      ShowPlainGroups(kind);
    }

    /** The two groups drawn through their own effect composers: the mirror and the pastel scene. */
    method ShowComposedGroups(kind: SceneType)
      modifies this`mirrorVisible, this`pastelVisible
      ensures Snap() == old(Snap()).(groups := old(Snap()).groups.(mirror := kind == Mirror, pastel := kind == Pastel))
    {
      mirrorVisible := kind == Mirror;
      pastelVisible := kind == Pastel;
    }

    /** The four groups the plain renderer draws. */
    method ShowPlainGroups(kind: SceneType)
      modifies this`gardenVisible, this`neonVisible, this`spaceVisible, this`bubbleVisible
      ensures Snap() == old(Snap()).(groups := old(Snap()).groups.(garden := kind == Garden, neon := kind == Neon,
        space := kind == Space, bubbles := kind == Bubbles))
    {
      bubbleVisible := kind == Bubbles;
      neonVisible := kind == Neon;
      gardenVisible := kind == Garden;
      spaceVisible := kind == Space;
    }

    /**
     * updateSpin: one frame of length delta. Returns whether the frame is
     * rescheduled (`requestAnimationFrame(updateSpin)`), which is exactly
     * whether the session is still in progress.
     */
    method UpdateSpin(delta: real) returns (rescheduled: bool)
      requires Valid() && spinning && delta >= 0.0
      modifies this
      ensures Snap() == Spin.UpdateSpin(old(Snap()), delta, math)
      ensures Valid() && rescheduled == spinning
    {
      ghost var before := Snap();
      Spin.UpdateSpinPreservesInv(before, delta, math);
      Tick(delta);
      if elapsed < duration {
        SpinningFrame(delta);
        rescheduled := true;
      } else {
        Complete();
        rescheduled := false;
      }
      assert Snap() == Spin.UpdateSpin(before, delta, math);
    }

    /** `elapsed += delta` */
    method Tick(delta: real)
      modifies this`elapsed
      ensures Snap() == old(Snap()).(elapsed := old(elapsed) + delta)
    {
      elapsed := elapsed + delta;
    }

    /** The branch of updateSpin taken while the session goes on. */
    method SpinningFrame(delta: real)
      requires 0.0 <= elapsed < duration && colorIndex < CycleLength
      modifies this
      ensures Snap() == Spin.SpinningBranch(old(Snap()), delta, math)
    {
      PoseTotem(delta);
      if dream && elapsed - lastEnvironmentChange >= Spin.SwitchInterval {
        UpdateDreamEnvironment();
        lastEnvironmentChange := elapsed;
        switchTimes := switchTimes + [elapsed];
      }
    }

    /** Spin on about y by the current speed; tilt and bob by the decaying oscillation. */
    method PoseTotem(delta: real)
      requires 0.0 <= elapsed < duration
      modifies this`rotationX, this`rotationY, this`rotationZ, this`positionY
      ensures Snap() == Spin.Posed(old(Snap()), delta, math)
    {
      var progress := Progress(elapsed, duration);
      rotationY := rotationY + SpinSpeed(math, progress) * delta;
      var pose := FramePose(math, elapsed, duration);
      rotationX, rotationZ, positionY := pose.rotationX, pose.rotationZ, pose.positionY;
    }

    /** The branch of updateSpin taken once the session is over. */
    method Complete()
      modifies this`spinning, this`overlayText, this`rotationX, this`rotationZ, this`positionY,
        this`starVisible, this`background, this`groundColor
      ensures Snap() == Spin.CompletionBranch(old(Snap()))
    {
      Settle();
      if !dream {
        ReturnToReality();
      }
    }

    /** End the session: clear the overlay and put the totem back upright at its rest height. */
    method Settle()
      modifies this`spinning, this`overlayText, this`rotationX, this`rotationZ, this`positionY
      ensures Snap() == old(Snap()).(spinning := false, overlayText := Spin.Idle, rotationX := 0.0, rotationZ := 0.0,
        positionY := RestHeight)
    {
      spinning := false;
      overlayText := Spin.Idle;
      Upright();
    }

    /** Lay the tilt back to zero and the totem back on the ground. */
    method Upright()
      modifies this`rotationX, this`rotationZ, this`positionY
      ensures Snap() == old(Snap()).(rotationX := 0.0, rotationZ := 0.0, positionY := RestHeight)
    {
      rotationX, rotationZ := 0.0, 0.0;
      positionY := RestHeight;
    }

    /** The awake outcome: hide the stars and head back to the reality colours. */
    method ReturnToReality()
      modifies this`starVisible, this`background, this`groundColor
      ensures Snap() == old(Snap()).(starVisible := false, background := Spin.RealityBackground,
        groundColor := Spin.RealityGround)
    {
      starVisible := false;
      background := Spin.RealityBackground;
      groundColor := Spin.RealityGround;
    }

    /**
     * changeEnvironment: set the backdrop and the ground outright to the
     * dream or the reality pair; the outcome is forced to dream or drawn
     * from `random` as Math.random() > 0.5. Nothing calls it, and after an
     * environment step it breaks `Valid`, whose scene part asks for the
     * colours of the entry last shown.
     */
    method ChangeEnvironment(forceDream: bool, random: real)
      requires 0.0 <= random < 1.0
      modifies this`background, this`groundColor
      ensures (forceDream || random > 0.5) ==> background == 0x2b0a3d && groundColor == 0x331a5d
      ensures !(forceDream || random > 0.5) ==> background == 0x101018 && groundColor == 0xffffff
    {
      var isDream := if forceDream then true else random > 0.5;
      background := if isDream then 0x2b0a3d else 0x101018;
      groundColor := if isDream then 0x331a5d else 0xffffff;
    }

    /** The renderer `animate` draws the current frame with. */
    function RenderPath(): (r: Spin.RenderPath)
      reads this`mirrorVisible, this`pastelVisible, this`gardenVisible, this`neonVisible, this`spaceVisible, this`bubbleVisible
      ensures r == Spin.Renderer(Snap().groups)
    {
      if mirrorVisible then Spin.MirrorComposer
      else if pastelVisible then Spin.PastelComposer
      else Spin.PlainRenderer
    }
  }
}
