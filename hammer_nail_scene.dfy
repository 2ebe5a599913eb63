/** The hammer scene component: the animation record held in a ref, updated
    in place once per frame, and the React state travelling with it. */
module HammerNail {
  import opened Rounding
  import opened HammerForce
  import opened StrikeSequencer

  class HammerNailScene {
    // slider and display state
    var mass: int
    var velocity: int
    var isStriking: bool
    var forceValue: int
    // the animation record
    var hammerY: int
    var nailY: int
    var phase: Phase
    var contactTimer: nat
    var targetNailY: real

    /** The scene as a value. */
    function Model(): Scene
      reads this
    {
      Scene(hammerY, nailY, phase, contactTimer, targetNailY, isStriking, forceValue, mass, velocity)
    }

    ghost predicate Valid()
      reads this
    {
      Inv(Model())
    }

    /** Mount: both sliders at 6, hammer at rest, nail just set. */
    constructor ()
      ensures Valid()
      ensures Model() == Initial(6, 6)
    {
      mass, velocity := 6, 6;
      isStriking, forceValue := false, 0;
      hammerY, nailY, phase, contactTimer, targetNailY := RestHammerY, NailInitialY, Idle, 0, NailInitialY as real;
      InitialInv(6, 6);
    }

    /** calculateForce, with the current sliders. */
    function CurrentForce(): (f: int)
      reads this
      requires SliderValue(mass) && SliderValue(velocity)
      ensures 100 <= f <= 10000 && f == 100 * mass * velocity
    {
      ImpulseForceRange(mass, velocity);
      ImpulseForce(mass, velocity)
    }

    /** One animation frame: advance the phase-step, then report the force
        arrows painted on this frame, anchored at the nail head as it was
        when the frame began, and only while in contact. */
    method Frame(nailX: real) returns (arrows: seq<Arrow>)
      requires Valid()
      modifies this
      ensures Valid()
      ensures Model() == Next(old(Model()))
      ensures phase == Contact ==> arrows == [ForceArrows(nailX, old(nailY) as real, forceValue).0,
                                              ForceArrows(nailX, old(nailY) as real, forceValue).1]
      ensures phase != Contact ==> arrows == []
    {
      NextInv(Model());
      var currentNailY := nailY;
      var targetY := currentNailY - HammerHead;
      if phase == Down {
        var speed := velocity * 2;
        hammerY := hammerY + speed;
        if hammerY >= targetY {
          hammerY := targetY;
          phase := Contact;
          contactTimer := 0;
          var force := CurrentForce();
          forceValue := force;
          var penetrationDepth := PenetrationDepth(force);
          targetNailY := RMin(NailFloorY as real, nailY as real + penetrationDepth);
        }
      } else if phase == Contact {
        contactTimer := contactTimer + 1;
        if (nailY as real) < targetNailY {
          nailY := nailY + NailStep;
          hammerY := hammerY + NailStep;
        }
        if contactTimer > DwellFrames {
          phase := Up;
        }
      } else if phase == Up {
        hammerY := hammerY - RetractStep;
        if hammerY <= RestHammerY {
          hammerY := RestHammerY;
          phase := Idle;
          isStriking := false;
        }
      }
      arrows := [];
      if phase == Contact {
        var pair := ForceArrows(nailX, currentNailY as real, CurrentForce());
        arrows := [pair.0, pair.1];
      }
    }

    /** handleStrike. */
    method HandleStrike()
      requires Valid()
      modifies this
      ensures Valid()
      ensures Model() == Strike(old(Model()))
      ensures old(isStriking) ==> unchanged(this)
      ensures !old(isStriking) ==> isStriking && phase == Down
    {
      if isStriking {
        return;
      }
      isStriking := true;
      phase := Down;
    }

    /** reset: from any phase, back to the mount state with the current sliders. */
    method Reset()
      requires Valid()
      modifies this
      ensures Valid()
      ensures Model() == Initial(old(mass), old(velocity))
    {
      isStriking := false;
      forceValue := 0;
      hammerY, nailY, phase, contactTimer, targetNailY := RestHammerY, NailInitialY, Idle, 0, NailInitialY as real;
      InitialInv(mass, velocity);
    }

    /** The mass slider; it cannot move while a strike is in progress. */
    method SetMass(m: int)
      requires Valid() && SliderValue(m)
      modifies this
      ensures Valid()
      ensures Model() == StrikeSequencer.SetMass(old(Model()), m)
    {
      if !isStriking {
        mass := m;
      }
    }

    /** The velocity slider; it cannot move while a strike is in progress. */
    method SetVelocity(v: int)
      requires Valid() && SliderValue(v)
      modifies this
      ensures Valid()
      ensures Model() == StrikeSequencer.SetVelocity(old(Model()), v)
    {
      if !isStriking {
        velocity := v;
      }
    }
  }
}
