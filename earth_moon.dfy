/** The Earth-Moon scene: display gravity, the clamp on the two force arrows,
    and the orbit angle advanced once per frame. */
module EarthMoon {
  import opened Rounding

  /** Display constant standing in for G. */
  const G: int := 100

  /** r: the on-screen distance scaled down by 100. */
  function ScaledDistance(distance: int): real {
    distance as real / 100.0
  }

  /** The unrounded force G * m1 * m2 / r^2. */
  function GravityForce(earthMass: int, moonMass: int, distance: int): real
    requires distance != 0
  {
    (G * earthMass * moonMass) as real / (ScaledDistance(distance) * ScaledDistance(distance))
  }

  /** calculateGravity: the force rounded for display; never negative for
      non-negative masses. */
  function Gravity(earthMass: int, moonMass: int, distance: int): (force: int)
    requires distance != 0
    ensures 0 <= earthMass && 0 <= moonMass ==> 0 <= force
  {
    assert 0.0 < ScaledDistance(distance) * ScaledDistance(distance);
    assert 0 <= earthMass && 0 <= moonMass ==> 0 <= G * earthMass * moonMass;
    Round(GravityForce(earthMass, moonMass, distance))
  }

  /** Dividing by a quotient multiplies by its divisor. */
  lemma DivByQuotient(a: real, b: real, c: real)
    requires b != 0.0 && c != 0.0
    ensures a / (b / c) == (a * c) / b
  {
    var q := a / (b / c);
    assert q * (b / c) == a;
    assert q * b == a * c;
  }

  lemma ScaleMonotone(a: real, b: real, c: real)
    requires a <= b && 0.0 <= c
    ensures a * c <= b * c
  {
  }

  /** If p * y and q * x agree and x < y, the factor of the larger one is smaller. */
  lemma FactorAntitone(p: real, q: real, x: real, y: real)
    requires 0.0 <= p && 0.0 < x <= y && p * y == q * x
    ensures p <= q
    ensures 0.0 < p && x < y ==> p < q
  {
    assert p * x <= p * y;
    if 0.0 < p && x < y {
      assert p * x < p * y;
      if q <= p {
        ScaleMonotone(q, p, x);
        assert false;
      }
    }
  }

  /** A non-negative quantity shrinks as its divisor grows, strictly when it is positive. */
  lemma DivAntitone(k: real, x: real, y: real)
    requires 0.0 <= k && 0.0 < x <= y
    ensures k / y <= k / x
    ensures 0.0 < k && x < y ==> k / y < k / x
  {
    assert k / y * y == k && k / x * x == k;
    FactorAntitone(k / y, k / x, x, y);
  }

  /** The scaled distance cancels out: gravity is round(10^6 * m1 * m2 / d^2). */
  lemma GravityExact(earthMass: int, moonMass: int, distance: int)
    requires distance != 0
    ensures Gravity(earthMass, moonMass, distance)
         == Round((1000000 * earthMass * moonMass) as real / (distance * distance) as real)
  {
    var km := earthMass * moonMass;
    var a := (100 * km) as real;
    var r := ScaledDistance(distance);
    var dd := (distance * distance) as real;
    assert GravityForce(earthMass, moonMass, distance) == a / (r * r) by {
      assert G * earthMass * moonMass == 100 * km;
    }
    assert r * r == dd / 10000.0 by {
      assert dd == distance as real * distance as real;
    }
    assert dd > 0.0;
    DivByQuotient(a, dd, 10000.0);
    assert a * 10000.0 == (1000000 * km) as real;
    assert 1000000 * earthMass * moonMass == 1000000 * km;
  }

  /** Newton's third law: swapping the two bodies gives the same force. */
  lemma GravitySymmetric(earthMass: int, moonMass: int, distance: int)
    requires distance != 0
    ensures Gravity(earthMass, moonMass, distance) == Gravity(moonMass, earthMass, distance)
  {
    assert G * earthMass * moonMass == G * moonMass * earthMass;
  }

  /** Moving the bodies apart never increases the force. */
  lemma GravityAntitoneInDistance(earthMass: int, moonMass: int, d1: int, d2: int)
    requires 0 <= earthMass && 0 <= moonMass
    requires 0 < d1 <= d2
    ensures Gravity(earthMass, moonMass, d2) <= Gravity(earthMass, moonMass, d1)
  {
    var km := earthMass * moonMass;
    assert 0 <= km;
    assert 1000000 * earthMass * moonMass == 1000000 * km;
    assert d1 * d1 <= d1 * d2 <= d2 * d2;
    GravityExact(earthMass, moonMass, d1);
    GravityExact(earthMass, moonMass, d2);
    DivAntitone((1000000 * km) as real, (d1 * d1) as real, (d2 * d2) as real);
    RoundMonotone((1000000 * km) as real / (d2 * d2) as real, (1000000 * km) as real / (d1 * d1) as real);
  }

  /** The slider defaults 8, 3 and 220 give 2400 / 4.84, about 495.87, shown as 496. */
  lemma DefaultGravity()
    ensures Gravity(8, 3, 220) == 496
  {
    GravityExact(8, 3, 220);
    assert (1000000 * 8 * 3) as real / (220 * 220) as real == 24000000.0 / 48400.0;
  }

  /** Drawn radii grow with the masses: 28..55 for Earth, 14..32 for the Moon
      over the slider range 1..10. */
  function EarthRadius(earthMass: int): (r: int)
    ensures 1 <= earthMass <= 10 ==> 28 <= r <= 55
    ensures r - 25 == 3 * earthMass
  {
    25 + earthMass * 3
  }

  function MoonRadius(moonMass: int): (r: int)
    ensures 1 <= moonMass <= 10 ==> 14 <= r <= 32
    ensures r - 12 == 2 * moonMass
  {
    12 + moonMass * 2
  }

  /** The arrow cap: this length plus both radii plus a 20-pixel gap equals
      the distance between the centres. */
  function MaxArrowLength(earthMass: int, moonMass: int, distance: int): (len: int)
    ensures EarthRadius(earthMass) + len + 20 + MoonRadius(moonMass) == distance
  {
    distance - EarthRadius(earthMass) - MoonRadius(moonMass) - 20
  }

  /** Length of both force arrows: force / 8, at least 35, capped by the gap. */
  function OrbitArrowLength(force: int, earthMass: int, moonMass: int, distance: int): (len: real)
    ensures len <= MaxArrowLength(earthMass, moonMass, distance) as real
    ensures len <= RMax(35.0, force as real / 8.0)
    ensures len + (EarthRadius(earthMass) + MoonRadius(moonMass) + 20) as real <= distance as real
    ensures 35.0 <= MaxArrowLength(earthMass, moonMass, distance) as real ==> 35.0 <= len
    ensures len == MaxArrowLength(earthMass, moonMass, distance) as real || len == RMax(35.0, force as real / 8.0)
  {
    RMin(MaxArrowLength(earthMass, moonMass, distance) as real, RMax(35.0, force as real / 8.0))
  }

  /** Over the slider ranges the cap is at least 13, so an arrow is always drawn. */
  lemma MaxArrowLengthOfSliders(earthMass: int, moonMass: int, distance: int)
    requires 1 <= earthMass <= 10 && 1 <= moonMass <= 10 && 120 <= distance <= 350
    ensures 13 <= MaxArrowLength(earthMass, moonMass, distance)
    ensures 13.0 <= OrbitArrowLength(Gravity(earthMass, moonMass, distance), earthMass, moonMass, distance)
  {
  }

  /** Angle added per frame: 0.01 / (distance / 200), positive for every
      positive distance. */
  function OrbitStep(distance: int): (step: real)
    requires distance != 0
    ensures 0 < distance ==> 0.0 < step
  {
    0.01 * (1.0 / (distance as real / 200.0))
  }

  /** The step is 2 / distance: positive, and larger for closer orbits. */
  lemma OrbitStepValue(d1: int, d2: int)
    requires 0 < d1 < d2
    ensures OrbitStep(d1) == 2.0 / d1 as real
    ensures OrbitStep(d1) > OrbitStep(d2) > 0.0
  {
    assert OrbitStep(d2) == 2.0 / d2 as real;
    DivAntitone(2.0, d1 as real, d2 as real);
  }

  /** The angle after n frames at a fixed distance. */
  function OrbitAngle(start: real, distance: int, n: nat): real
    requires distance != 0
  {
    if n == 0 then start else OrbitAngle(start, distance, n - 1) + OrbitStep(distance)
  }

  /** n frames advance the angle by exactly n steps, so it grows without bound. */
  lemma {:induction false} OrbitAngleClosedForm(start: real, distance: int, n: nat)
    requires distance > 0
    ensures OrbitAngle(start, distance, n) == start + n as real * OrbitStep(distance)
    ensures n > 0 ==> OrbitAngle(start, distance, n) > start
  {
    if n > 0 {
      OrbitAngleClosedForm(start, distance, n - 1);
      OrbitStepValue(distance, distance + 1);
    }
  }

  class EarthMoonScene {
    var earthMass: int
    var moonMass: int
    var distance: int
    /** Orbit angle; advanced every frame, never reset. */
    var angle: real

    ghost predicate Valid()
      reads this
    {
      1 <= earthMass <= 10 && 1 <= moonMass <= 10 && 120 <= distance <= 350
    }

    /** Mount: the slider defaults, angle zero. */
    constructor ()
      ensures Valid()
      ensures earthMass == 8 && moonMass == 3 && distance == 220 && angle == 0.0
    {
      earthMass, moonMass, distance, angle := 8, 3, 220, 0.0;
    }

    method SetEarthMass(m: int)
      requires Valid() && 1 <= m <= 10
      modifies this
      ensures Valid() && earthMass == m
      ensures moonMass == old(moonMass) && distance == old(distance) && angle == old(angle)
    {
      earthMass := m;
    }

    method SetMoonMass(m: int)
      requires Valid() && 1 <= m <= 10
      modifies this
      ensures Valid() && moonMass == m
      ensures earthMass == old(earthMass) && distance == old(distance) && angle == old(angle)
    {
      moonMass := m;
    }

    method SetDistance(d: int)
      requires Valid() && 120 <= d <= 350
      modifies this
      ensures Valid() && distance == d
      ensures earthMass == old(earthMass) && moonMass == old(moonMass) && angle == old(angle)
    {
      distance := d;
    }

    /** One frame: advance the angle and return the force shown on both bodies
        and the length of both arrows. */
    method Frame() returns (force: int, arrowLength: real)
      requires Valid()
      modifies this
      ensures Valid()
      ensures earthMass == old(earthMass) && moonMass == old(moonMass) && distance == old(distance)
      ensures angle == old(angle) + 2.0 / distance as real
      ensures angle == OrbitAngle(old(angle), distance, 1)
      ensures angle > old(angle)
      ensures force == Gravity(earthMass, moonMass, distance)
      ensures force == Gravity(moonMass, earthMass, distance)
      ensures arrowLength == OrbitArrowLength(force, earthMass, moonMass, distance)
      ensures 13.0 <= arrowLength
      ensures arrowLength + (EarthRadius(earthMass) + MoonRadius(moonMass) + 20) as real <= distance as real
    {
      OrbitStepValue(distance, distance + 1);
      angle := angle + OrbitStep(distance);
      force := Gravity(earthMass, moonMass, distance);
      GravitySymmetric(earthMass, moonMass, distance);
      arrowLength := OrbitArrowLength(force, earthMass, moonMass, distance);
      MaxArrowLengthOfSliders(earthMass, moonMass, distance);
    }
  }
}
