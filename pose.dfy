/**
 * The totem's pose while it spins (main.js:1049-1067): spin speed, decaying
 * tilt, the ground-clipping clamp on rotation.x and the bob of position.y.
 *
 * Math.sin, Math.cos and Math.pow(progress, 0.5) are floating-point
 * transcendental functions; they are the fields of a `Trig` value, so every
 * formula here holds whatever functions are plugged in, and `InRange` names
 * the range facts that the real functions have.
 */
module Pose {

  /** Math.sin, Math.cos and the square root Math.pow(p, 0.5), as opaque real functions. */
  datatype Trig = Trig(sin: real -> real, cos: real -> real, sqrt: real -> real)

  /** The ranges of the real functions: sine and cosine in [-1, 1], the square root of [0, 1) in [0, 1). */
  ghost predicate InRange(m: Trig)
  {
    && (forall x :: -1.0 <= m.sin(x) <= 1.0)
    && (forall x :: -1.0 <= m.cos(x) <= 1.0)
    && (forall p :: 0.0 <= p < 1.0 ==> 0.0 <= m.sqrt(p) < 1.0)
  }

  /** `maxRotationSpeed` */
  const MaxRotationSpeed: real := 25.0
  /** `initialTilt` */
  const InitialTilt: real := 0.5
  /** The totem's resting height, at which its base touches the ground. */
  const RestHeight: real := 0.15
  /** The factor on |sin(oscillation)| in the bob height. */
  const BobAmplitude: real := 0.3
  /** The floor `Math.max` puts under rotation.x so that the totem does not sink into the ground. */
  const MinTiltX: real := -0.2

  function Abs(x: real): (r: real)
    ensures r >= 0.0 && (r == x || r == -x)
  {
    if x < 0.0 then -x else x
  }

  /** `progress = elapsed / duration`: the fraction of the session already spent. */
  function Progress(elapsed: real, duration: real): (p: real)
    requires 0.0 <= elapsed < duration
    ensures 0.0 <= p < 1.0
  {
    FractionBelowOne(elapsed, duration);
    elapsed / duration
  }

  /** A part of a positive whole, divided by that whole, lies in [0, 1). */
  lemma FractionBelowOne(part: real, whole: real)
    requires 0.0 <= part < whole
    ensures 0.0 <= part / whole < 1.0
  {
    var q := part / whole;
    assert q * whole == part;
    assert (1.0 - q) * whole == whole - part;
  }

  /** `currentSpeed`: the spin speed, falling from the maximum as the square root of progress grows. */
  function SpinSpeed(m: Trig, progress: real): (v: real)
    ensures InRange(m) && 0.0 <= progress < 1.0 ==> 0.0 < v <= MaxRotationSpeed
    ensures m.sqrt(progress) == 0.0 ==> v == MaxRotationSpeed
  {
    MaxRotationSpeed * (1.0 - m.sqrt(progress))
  }

  /** `tiltDecay`: the tilt amplitude, shrinking linearly from `initialTilt` towards zero. */
  function TiltDecay(progress: real): (t: real)
    requires 0.0 <= progress < 1.0
    ensures 0.0 < t <= InitialTilt
    ensures progress == 0.0 <==> t == InitialTilt
  {
    InitialTilt * (1.0 - progress)
  }

  /** `Math.max(oscillation, -0.2)`: the clamped tilt about x. */
  function ClampTilt(oscillation: real): (r: real)
    ensures r >= MinTiltX && r >= oscillation
    ensures r == oscillation || r == MinTiltX
  {
    if oscillation > MinTiltX then oscillation else MinTiltX
  }

  /** `height = |sin(oscillation)| * 0.3`: how far the totem lifts off its rest height. */
  function Height(sinOscillation: real): (h: real)
    ensures 0.0 <= h
    ensures -1.0 <= sinOscillation <= 1.0 ==> h <= BobAmplitude
  {
    Abs(sinOscillation) * BobAmplitude
  }

  /** The parts of the totem's transform a spinning frame sets outright. */
  datatype Pose = Pose(rotationX: real, rotationZ: real, positionY: real)

  /** The pose of a frame at time `elapsed` of a session of length `duration`. */
  function FramePose(m: Trig, elapsed: real, duration: real): (p: Pose)
    requires 0.0 <= elapsed < duration
    ensures p.rotationX >= MinTiltX
    ensures p.positionY >= RestHeight
    ensures InRange(m) ==> p.rotationX <= InitialTilt
    ensures InRange(m) ==> -InitialTilt <= p.rotationZ <= InitialTilt
    ensures InRange(m) ==> p.positionY <= RestHeight + BobAmplitude
  {
    var tiltDecay := TiltDecay(Progress(elapsed, duration));
    var oscillation := m.cos(elapsed * 2.0) * tiltDecay;
    var height := Height(m.sin(oscillation));
    var p := Pose(ClampTilt(oscillation), m.sin(elapsed * 2.0) * tiltDecay, RestHeight + height);
    assert InRange(m) ==> p.rotationX <= InitialTilt && -InitialTilt <= p.rotationZ <= InitialTilt by {
      if InRange(m) {
        ScaledStaysInRange(m.cos(elapsed * 2.0), tiltDecay);
        ScaledStaysInRange(m.sin(elapsed * 2.0), tiltDecay);
      }
    }
    p
  }

  /** A value in [-1, 1] scaled by a factor in (0, 0.5] stays in [-0.5, 0.5]. */
  lemma ScaledStaysInRange(x: real, t: real)
    requires -1.0 <= x <= 1.0 && 0.0 < t <= InitialTilt
    ensures -InitialTilt <= x * t <= InitialTilt
  {
    assert -t <= x * t <= t;
  }
}
