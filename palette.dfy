/**
 * The fixed reference data of the dream cycle: the six scene types, the
 * ordered table of dream colours (`dreamColors` in main.js) and the fog each
 * scene type installs.
 */
module Palette {

  /** A colour as the 24-bit RGB value THREE.Color parses a CSS hex string into ("#0a0014" is 0x0a0014). */
  type Color = c: int | 0 <= c < 0x100_0000

  /** The six decorative scene groups that the dream cycle switches between. */
  datatype SceneType = Mirror | Pastel | Garden | Neon | Space | Bubbles

  /** One entry of the dream table: backdrop colour, ground colour, scene type. */
  datatype Entry = Entry(bg: Color, ground: Color, kind: SceneType)

  /** `scene.fog`: either null or a linear fog with a colour and a near/far range. */
  datatype Fog = NoFog | LinearFog(color: Color, near: int, far: int)

  /** The dream table, in the order the cycle visits it. */
  const DreamColors: seq<Entry> := [
    Entry(0x0a0a0a, 0xb1b1c1, Mirror),
    Entry(0xb8c6f1, 0xfcd0ed, Pastel),
    Entry(0xffeaf4, 0xffffff, Garden),
    Entry(0x0a0014, 0x0a0014, Neon),
    Entry(0x1b1d2a, 0x1b1d2a, Space),
    Entry(0xc9f0ff, 0x7ec8e3, Bubbles)
  ]

  /** The number of entries, `dreamColors.length`. */
  const CycleLength: nat := 6

  /** The scene type shown by the k-th environment step of a dream session (k from 0). */
  function CycleKind(k: nat): SceneType
  {
    DreamColors[k % CycleLength].kind
  }

  /** Where a scene type sits in the table: the inverse of looking an entry up. */
  function IndexOf(k: SceneType): (i: nat)
    ensures i < CycleLength && DreamColors[i].kind == k
  {
    match k
    case Mirror => 0
    case Pastel => 1
    case Garden => 2
    case Neon => 3
    case Space => 4
    case Bubbles => 5
  }

  /** The fog an environment step installs for entry `e`, following the if/else chain on its type. */
  function FogFor(e: Entry): (f: Fog)
    ensures f.NoFog? <==> e.kind in {Mirror, Pastel, Space}
    ensures f.LinearFog? ==> f.color == e.bg && 0 < f.near < f.far
  {
    if e.kind == Mirror || e.kind == Pastel then NoFog
    else if e.kind == Bubbles then LinearFog(e.bg, 2, 15)
    else if e.kind == Neon then LinearFog(e.bg, 3, 20)
    else if e.kind == Garden then LinearFog(e.bg, 5, 25)
    else assert e.kind == Space; NoFog
  }

  /** The table has exactly one entry per scene type: every type appears, and no two entries share one. */
  lemma TableIsBijective()
    ensures |DreamColors| == CycleLength
    ensures forall i, j :: 0 <= i < j < CycleLength ==> DreamColors[i].kind != DreamColors[j].kind
    ensures forall i :: 0 <= i < CycleLength ==> IndexOf(DreamColors[i].kind) == i
  {
  }

  /** The cycle visits mirror, pastel, garden, neon, space, bubbles, and then starts over. */
  lemma CycleOrder(k: nat)
    ensures CycleKind(0) == Mirror && CycleKind(1) == Pastel && CycleKind(2) == Garden
    ensures CycleKind(3) == Neon && CycleKind(4) == Space && CycleKind(5) == Bubbles
    ensures CycleKind(k + CycleLength) == CycleKind(k)
  {
    assert (k + CycleLength) % CycleLength == k % CycleLength;
  }

  /** Any six consecutive environment steps show six different scenes, so each scene exactly once. */
  lemma SixConsecutiveStepsAreDistinct(a: nat, b: nat)
    requires a < b < a + CycleLength
    ensures CycleKind(a) != CycleKind(b)
  {
    TableIsBijective();
    var i, j := a % CycleLength, b % CycleLength;
    assert b - a == (j - i) % CycleLength by {
      assert a == CycleLength * (a / CycleLength) + i;
      assert b == CycleLength * (b / CycleLength) + j;
    }
    assert i != j;
    if i < j {
      assert DreamColors[i].kind != DreamColors[j].kind;
    } else {
      assert DreamColors[j].kind != DreamColors[i].kind;
    }
  }

  /** Any scene type is shown by one of any six consecutive environment steps. */
  lemma EveryTypeWithinSixSteps(a: nat, k: SceneType)
    ensures exists n :: a <= n < a + CycleLength && CycleKind(n) == k
  {
    var i := IndexOf(k);
    var n := a + (i - a) % CycleLength;
    assert n % CycleLength == i by {
      assert (i - a) % CycleLength + a / CycleLength * CycleLength + a % CycleLength == n;
    }
    assert CycleKind(n) == k;
  }

  /** Fog on: bubbles, neon and garden; bubbles is the tightest range and garden the widest. */
  lemma FogRanges()
    ensures FogFor(DreamColors[IndexOf(Bubbles)]) == LinearFog(0xc9f0ff, 2, 15)
    ensures FogFor(DreamColors[IndexOf(Neon)]) == LinearFog(0x0a0014, 3, 20)
    ensures FogFor(DreamColors[IndexOf(Garden)]) == LinearFog(0xffeaf4, 5, 25)
    ensures forall i :: 0 <= i < CycleLength && DreamColors[i].kind in {Mirror, Pastel, Space} ==> FogFor(DreamColors[i]) == NoFog
  {
  }
}
