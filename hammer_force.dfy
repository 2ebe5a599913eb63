/** The hammer scene's closed-form formulas: impulse force, nail penetration
    depth and the length and placement of the two force arrows. */
module HammerForce {
  import opened Rounding

  /** Assumed duration of the hammer-nail contact, in seconds. */
  const ContactTime: real := 0.01
  /** Deepest penetration one strike may aim for. */
  const MaxPenetration: real := 30.0
  /** Force per unit of penetration depth. */
  const ForcePerDepth: real := 500.0

  /** calculateForce: round(momentum change / contact time). With integer
      sliders the division is exact, so the force is 100 * mass * velocity. */
  function ImpulseForce(mass: int, velocity: int): (f: int)
    ensures f == 100 * mass * velocity
  {
    var k := mass * velocity;
    assert k as real / ContactTime == (100 * k) as real;
    RoundOfInt(100 * k);
    Round(k as real / ContactTime)
  }

  /** Over the slider ranges 1..10 the force lies in [100, 10000]. */
  lemma ImpulseForceRange(mass: int, velocity: int)
    requires 1 <= mass <= 10 && 1 <= velocity <= 10
    ensures 100 <= ImpulseForce(mass, velocity) <= 10000
  {
    assert 1 <= mass * velocity <= 100 by {
      assert mass * velocity <= 10 * velocity <= 100;
    }
  }

  /** Depth the nail is driven by a strike of the given force, capped. */
  function PenetrationDepth(force: int): (d: real)
    ensures d <= MaxPenetration && d <= force as real / ForcePerDepth
    ensures force >= 0 ==> 0.0 <= d
    ensures d == MaxPenetration || d == force as real / ForcePerDepth
  {
    RMin(MaxPenetration, force as real / ForcePerDepth)
  }

  /** Over the slider ranges the cap never bites: the depth is mass * velocity / 5, at most 20. */
  lemma PenetrationDepthOfSliders(mass: int, velocity: int)
    requires 1 <= mass <= 10 && 1 <= velocity <= 10
    ensures PenetrationDepth(ImpulseForce(mass, velocity)) == (mass * velocity) as real / 5.0
    ensures PenetrationDepth(ImpulseForce(mass, velocity)) <= 20.0
  {
    assert 1 <= mass * velocity <= 100 by {
      assert mass * velocity <= 10 * velocity <= 100;
    }
  }

  /** On-screen length of each force arrow: force / 15 clamped to [40, 100]. */
  function HammerArrowLength(force: int): (len: real)
    ensures 40.0 <= len <= 100.0
    ensures 40.0 <= force as real / 15.0 <= 100.0 ==> len == force as real / 15.0
  {
    RMin(100.0, RMax(40.0, force as real / 15.0))
  }

  /** A larger force never draws a shorter arrow. */
  lemma HammerArrowMonotone(f1: int, f2: int)
    requires f1 <= f2
    ensures HammerArrowLength(f1) <= HammerArrowLength(f2)
  {
  }

  /** A straight arrow on the canvas, with its label. */
  datatype Arrow = Arrow(fromX: real, fromY: real, toX: real, toY: real, caption: string)
  {
    function Dx(): real { toX - fromX }
    function Dy(): real { toY - fromY }
  }

  /** The action/reaction pair drawn during contact: F_H on the nail, pointing
      down from the nail head, and F_N on the hammer, pointing up, each 50
      pixels to one side of the nail. */
  function ForceArrows(nailX: real, nailY: real, force: int): (pair: (Arrow, Arrow))
    ensures pair.0.fromY == pair.1.fromY == nailY
    ensures pair.0.fromX == nailX + 50.0 && pair.1.fromX == nailX - 50.0
    ensures pair.0.Dx() == 0.0 && pair.1.Dx() == 0.0
    ensures pair.0.Dy() == -pair.1.Dy()
    ensures pair.0.Dy() == HammerArrowLength(force)
    ensures 40.0 <= pair.0.Dy() <= 100.0
  {
    var len := HammerArrowLength(force);
    (Arrow(nailX + 50.0, nailY, nailX + 50.0, nailY + len, "F_H"),
     Arrow(nailX - 50.0, nailY, nailX - 50.0, nailY - len, "F_N"))
  }
}
