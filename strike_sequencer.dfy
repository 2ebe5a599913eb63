/** The hammer scene's strike sequencer as a value-level state machine:
    idle -> down -> contact -> up -> idle, advanced once per animation frame,
    plus the external events Strike, Reset and the two sliders. */
module StrikeSequencer {
  import opened Rounding
  import opened HammerForce

  const GroundY: int := 400
  const NailInitialY: int := 350
  /** Lowest point the strike target may reach: ten pixels above the ground. */
  const NailFloorY: int := GroundY - 10
  /** Rest height of the hammer head. */
  const RestHammerY: int := 100
  /** Height of the hammer head: in contact its top is this far above the nail head. */
  const HammerHead: int := 40
  /** Contact lasts until the frame counter exceeds this. */
  const DwellFrames: int := 180
  /** Per-frame advance of the nail (and hammer) during contact. */
  const NailStep: int := 2
  /** Per-frame retraction of the hammer in the up phase. */
  const RetractStep: int := 5

  datatype Phase = Idle | Down | Contact | Up

  /** The phase that follows p along the strike cycle. */
  function Succ(p: Phase): Phase {
    match p
    case Idle => Down
    case Down => Contact
    case Contact => Up
    case Up => Idle
  }

  /** The whole hammer scene: the animation record (hammerY .. targetNailY)
      and the component state travelling with it. */
  datatype Scene = Scene(
    hammerY: int,
    nailY: int,
    phase: Phase,
    contactTimer: nat,
    targetNailY: real,
    isStriking: bool,
    forceValue: int,
    mass: int,
    velocity: int)

  /** State at mount and after reset, for the given slider values. */
  function Initial(mass: int, velocity: int): Scene {
    Scene(RestHammerY, NailInitialY, Idle, 0, NailInitialY as real, false, 0, mass, velocity)
  }

  predicate SliderValue(x: int) { 1 <= x <= 10 }

  /** Where a strike with these sliders aims the nail from nailY: never below
      the floor, and for a nail above the floor at most 30 pixels deeper. */
  function StrikeTarget(nailY: int, mass: int, velocity: int): (target: real)
    ensures target <= NailFloorY as real
    ensures target <= nailY as real + PenetrationDepth(ImpulseForce(mass, velocity))
    ensures target == NailFloorY as real
         || target == nailY as real + PenetrationDepth(ImpulseForce(mass, velocity))
    ensures 0 <= mass && 0 <= velocity && nailY <= NailFloorY ==>
              nailY as real <= target <= (nailY + 30) as real
  {
    RMin(NailFloorY as real, nailY as real + PenetrationDepth(ImpulseForce(mass, velocity)))
  }

  /** One frame of the phase-step: what draw does to the scene before painting.
      Idle frames change nothing; every other frame keeps the phase or moves
      it one place along the cycle, never raises the nail, and leaves the
      sliders alone. */
  function Next(s: Scene): (t: Scene)
    ensures s.phase == Idle ==> t == s
    ensures t.phase == s.phase || t.phase == Succ(s.phase)
    ensures t.nailY >= s.nailY
    ensures t.mass == s.mass && t.velocity == s.velocity
  {
    match s.phase
    case Idle => s
    case Down =>
      var targetY := s.nailY - HammerHead;
      var h := s.hammerY + 2 * s.velocity;
      if h >= targetY then
        var force := ImpulseForce(s.mass, s.velocity);
        s.(hammerY := targetY, phase := Contact, contactTimer := 0, forceValue := force,
           targetNailY := StrikeTarget(s.nailY, s.mass, s.velocity))
      else
        s.(hammerY := h)
    case Contact =>
      var timer := s.contactTimer + 1;
      var t := if (s.nailY as real) < s.targetNailY
               then s.(nailY := s.nailY + NailStep, hammerY := s.hammerY + NailStep)
               else s;
      t.(contactTimer := timer, phase := if timer > DwellFrames then Up else Contact)
    case Up =>
      var h := s.hammerY - RetractStep;
      if h <= RestHammerY then s.(hammerY := RestHammerY, phase := Idle, isStriking := false)
      else s.(hammerY := h)
  }

  /** handleStrike: ignored while a strike is in progress; otherwise it starts
      the descent and touches nothing else. */
  function Strike(s: Scene): (t: Scene)
    ensures s.isStriking ==> t == s
    ensures !s.isStriking ==> t.isStriking && t.phase == Down
    ensures t.(phase := s.phase, isStriking := s.isStriking) == s
  {
    if s.isStriking then s else s.(isStriking := true, phase := Down)
  }

  /** reset: back to the mount state from any phase; the sliders keep their values. */
  function Reset(s: Scene): (t: Scene)
    ensures t.hammerY == 100 && t.nailY == 350 && t.phase == Idle && t.contactTimer == 0
    ensures t.targetNailY == 350.0 && t.forceValue == 0 && !t.isStriking
    ensures t.mass == s.mass && t.velocity == s.velocity
  {
    Initial(s.mass, s.velocity)
  }

  /** The mass and velocity sliders are disabled while a strike is in progress:
      a move changes only its own value, and only when no strike is running. */
  function SetMass(s: Scene, mass: int): (t: Scene)
    ensures t.(mass := s.mass) == s
    ensures t.mass == mass || (s.isStriking && t == s)
    ensures s.isStriking ==> t == s
  {
    if s.isStriking then s else s.(mass := mass)
  }

  function SetVelocity(s: Scene, velocity: int): (t: Scene)
    ensures t.(velocity := s.velocity) == s
    ensures t.velocity == velocity || (s.isStriking && t == s)
    ensures s.isStriking ==> t == s
  {
    if s.isStriking then s else s.(velocity := velocity)
  }

  /** Everything that can happen to the scene. */
  datatype Event = Frame | StrikeButton | ResetButton | MassSlider(m: int) | VelocitySlider(v: int)

  /** Slider events only carry values inside the slider's range. */
  predicate ValidEvent(e: Event) {
    match e
    case MassSlider(m) => SliderValue(m)
    case VelocitySlider(v) => SliderValue(v)
    case _ => true
  }

  function Apply(s: Scene, e: Event): Scene {
    match e
    case Frame => Next(s)
    case StrikeButton => Strike(s)
    case ResetButton => Reset(s)
    case MassSlider(m) => SetMass(s, m)
    case VelocitySlider(v) => SetVelocity(s, v)
  }

  function Run(s: Scene, events: seq<Event>): Scene
    decreases |events|
  {
    if events == [] then s else Run(Apply(s, events[0]), events[1..])
  }

  /** k frames with no event in between. */
  function Frames(s: Scene, k: nat): Scene
    decreases k
  {
    if k == 0 then s else Frames(Next(s), k - 1)
  }

  /** The invariant every reachable scene satisfies. */
  ghost predicate Inv(s: Scene) {
    && SliderValue(s.mass) && SliderValue(s.velocity)
    // the nail only moves down, in steps of two, and never passes its target by a full step
    && s.nailY % 2 == 0 && NailInitialY <= s.nailY
    && s.targetNailY <= NailFloorY as real
    && (s.nailY as real) < s.targetNailY + NailStep as real
    // a strike is in progress exactly when the sequencer is not idle
    && (s.isStriking <==> s.phase != Idle)
    && match s.phase
       case Idle => s.hammerY == RestHammerY
       case Down => RestHammerY <= s.hammerY < s.nailY - HammerHead
       case Contact =>
         && s.hammerY == s.nailY - HammerHead
         && s.contactTimer <= DwellFrames
         && s.forceValue == ImpulseForce(s.mass, s.velocity)
         // enough frames remain to reach the target
         && (s.targetNailY <= s.nailY as real
             || s.targetNailY - s.nailY as real <= (NailStep * (DwellFrames + 1 - s.contactTimer)) as real)
       case Up =>
         && RestHammerY < s.hammerY <= s.nailY - HammerHead
         && s.forceValue == ImpulseForce(s.mass, s.velocity)
         && s.targetNailY <= s.nailY as real
  }

  lemma InitialInv(mass: int, velocity: int)
    requires SliderValue(mass) && SliderValue(velocity)
    ensures Inv(Initial(mass, velocity))
  {
  }

  /** A reachable nail never gets below 390, the cap ten pixels above GROUND_Y. */
  lemma InvNailBound(s: Scene)
    requires Inv(s)
    ensures NailInitialY <= s.nailY <= NailFloorY == GroundY - 10
  {
  }

  lemma NextInv(s: Scene)
    requires Inv(s)
    ensures Inv(Next(s))
  {
    ImpulseForceRange(s.mass, s.velocity);
  }

  lemma ApplyInv(s: Scene, e: Event)
    requires Inv(s) && ValidEvent(e)
    ensures Inv(Apply(s, e))
  {
    if e == Frame { NextInv(s); }
  }

  /** From the mount state, whatever the user does, the invariant holds. */
  lemma {:induction false} RunInv(s: Scene, events: seq<Event>)
    requires Inv(s)
    requires forall i :: 0 <= i < |events| ==> ValidEvent(events[i])
    ensures Inv(Run(s, events))
    decreases |events|
  {
    if events != [] {
      ApplyInv(s, events[0]);
      RunInv(Apply(s, events[0]), events[1..]);
    }
  }

  /** Across any number of strikes, frames and slider moves without a reset,
      the nail never goes deeper than 390, ten pixels above GROUND_Y. */
  lemma NailStaysAboveGround(mass: int, velocity: int, events: seq<Event>)
    requires SliderValue(mass) && SliderValue(velocity)
    requires forall i :: 0 <= i < |events| ==> ValidEvent(events[i])
    ensures NailInitialY <= Run(Initial(mass, velocity), events).nailY <= GroundY - 10
  {
    RunInv(Initial(mass, velocity), events);
    InvNailBound(Run(Initial(mass, velocity), events));
  }

  /** The down frame: the hammer falls 2 * velocity, and on reaching the nail
      head it snaps to it, contact begins and the force is fixed. */
  lemma DownStep(s: Scene)
    requires Inv(s) && s.phase == Down
    ensures var t := Next(s);
      && t.nailY == s.nailY
      && (s.hammerY + 2 * s.velocity < s.nailY - HammerHead ==>
            t == s.(hammerY := s.hammerY + 2 * s.velocity))
      && (s.hammerY + 2 * s.velocity >= s.nailY - HammerHead ==>
            && t.phase == Contact && t.contactTimer == 0
            && t.hammerY == s.nailY - HammerHead
            && t.forceValue == 100 * s.mass * s.velocity
            && t.targetNailY == StrikeTarget(s.nailY, s.mass, s.velocity)
            && t.targetNailY <= NailFloorY as real
            && t.targetNailY <= (s.nailY + 30) as real)
  {
  }

  /** The contact frame: the counter ticks, hammer and nail move together by
      two while the nail is short of its target, and the phase turns to up
      exactly when the counter passes the dwell time. */
  lemma ContactStep(s: Scene)
    requires Inv(s) && s.phase == Contact
    ensures var t := Next(s);
      && t.contactTimer == s.contactTimer + 1
      && t.hammerY == t.nailY - HammerHead
      && t.nailY == (if (s.nailY as real) < s.targetNailY then s.nailY + NailStep else s.nailY)
      && (t.phase == Up <==> s.contactTimer + 1 > DwellFrames)
      && (t.phase == Contact <==> s.contactTimer + 1 <= DwellFrames)
  {
  }

  /** The up frame: the hammer rises five, clamped at rest, where the strike ends. */
  lemma UpStep(s: Scene)
    requires Inv(s) && s.phase == Up
    ensures var t := Next(s);
      && t.nailY == s.nailY
      && t.hammerY == (if s.hammerY - RetractStep <= RestHammerY then RestHammerY else s.hammerY - RetractStep)
      && (t.phase == Idle <==> !t.isStriking)
      && (t.phase == Idle <==> s.hammerY - RetractStep <= RestHammerY)
  {
  }

  /** In a reachable scene a strike can only start from idle, with the hammer
      at rest and room for it to fall. */
  lemma StrikeGuard(s: Scene)
    requires Inv(s)
    ensures !s.isStriking ==> s.phase == Idle && s.hammerY == RestHammerY
    ensures !s.isStriking ==> Strike(s).phase == Down && Strike(s).hammerY < s.nailY - HammerHead
  {
  }

  /** Sliders are frozen for the whole strike. */
  lemma SlidersLocked(s: Scene, m: int, v: int)
    requires Inv(s) && s.phase != Idle
    ensures SetMass(s, m) == s && SetVelocity(s, v) == s
  {
  }

  /** Distance, in frames of progress, from the end of the strike. */
  function Rank(s: Scene): int {
    match s.phase
    case Idle => 0
    case Up => s.hammerY - RestHammerY
    case Contact => 400 + (DwellFrames + 1 - s.contactTimer)
    case Down => 600 + (s.nailY - HammerHead - s.hammerY)
  }

  lemma NextDecreasesRank(s: Scene)
    requires Inv(s) && s.phase != Idle
    ensures 0 <= Rank(Next(s)) < Rank(s)
  {
    InvNailBound(s);
    NextInv(s);
  }

  /** Number of frames until a strike in progress is over: the first k at
      which the sequencer is idle again. */
  function FramesToIdle(s: Scene): (n: nat)
    requires Inv(s)
    ensures Frames(s, n).phase == Idle && Inv(Frames(s, n))
    ensures forall k :: 0 <= k < n ==> Frames(s, k).phase != Idle
    ensures n <= Rank(s)
    decreases Rank(s)
  {
    if s.phase == Idle then 0
    else
      NextInv(s);
      NextDecreasesRank(s);
      1 + FramesToIdle(Next(s))
  }

  /** What holds from the moment a strike starts from nail position nail0
      with these sliders until it is over. */
  ghost predicate Striking(s: Scene, nail0: int, mass: int, velocity: int) {
    var target := StrikeTarget(nail0, mass, velocity);
    && s.mass == mass && s.velocity == velocity
    && match s.phase
       case Down => s.nailY == nail0
       case Contact => s.targetNailY == target && s.forceValue == ImpulseForce(mass, velocity)
       case _ =>
         && s.targetNailY == target && s.forceValue == ImpulseForce(mass, velocity)
         && target <= s.nailY as real
  }

  lemma NextStriking(s: Scene, nail0: int, mass: int, velocity: int)
    requires Inv(s) && Striking(s, nail0, mass, velocity)
    ensures Striking(Next(s), nail0, mass, velocity)
  {
    NextInv(s);
  }

  lemma {:induction false} FramesStriking(s: Scene, k: nat, nail0: int, mass: int, velocity: int)
    requires Inv(s) && Striking(s, nail0, mass, velocity)
    ensures Inv(Frames(s, k)) && Striking(Frames(s, k), nail0, mass, velocity)
    decreases k
  {
    if k > 0 {
      NextInv(s);
      NextStriking(s, nail0, mass, velocity);
      FramesStriking(Next(s), k - 1, nail0, mass, velocity);
    }
  }

  /** The state a strike ends in, whatever the frames were. */
  lemma StrikeEnd(s: Scene, r: Scene)
    requires Inv(s) && !s.isStriking
    requires Inv(r) && r.phase == Idle && Striking(r, s.nailY, s.mass, s.velocity)
    ensures var target := StrikeTarget(s.nailY, s.mass, s.velocity);
      && !r.isStriking && r.hammerY == RestHammerY
      && r.forceValue == 100 * s.mass * s.velocity
      && r.targetNailY == target
      && target <= r.nailY as real < target + NailStep as real
      && s.nailY <= r.nailY <= s.nailY + 30
  {
    InvNailBound(s);
    var target := StrikeTarget(s.nailY, s.mass, s.velocity);
    assert (s.nailY as real) <= target <= (s.nailY + 30) as real;
    assert r.nailY < s.nailY + 32;
  }

  /** A full strike cycle: from idle, Strike and then frames until idle again.
      The hammer is back at rest, the sliders and the displayed force are those
      of the strike, and the nail has been driven to its target, overshooting
      by less than one step, so never more than the 30-pixel cap. */
  lemma StrikeCycle(s: Scene)
    requires Inv(s) && !s.isStriking
    ensures var d := Strike(s);
      var r := Frames(d, FramesToIdle(d));
      var target := StrikeTarget(s.nailY, s.mass, s.velocity);
      && r.phase == Idle && !r.isStriking && r.hammerY == RestHammerY
      && r.mass == s.mass && r.velocity == s.velocity
      && r.forceValue == 100 * s.mass * s.velocity
      && r.targetNailY == target
      && target <= r.nailY as real < target + NailStep as real
      && s.nailY <= r.nailY <= s.nailY + 30
  {
    var d := Strike(s);
    var n := FramesToIdle(d);
    FramesStriking(d, n, s.nailY, s.mass, s.velocity);
    StrikeEnd(s, Frames(d, n));
  }

  /** The default sliders (6, 6) from mount: force 3600, target 357.2, and the
      nail ends at 358. */
  lemma DefaultStrike()
    ensures var d := Strike(Initial(6, 6));
      var r := Frames(d, FramesToIdle(d));
      r.forceValue == 3600 && r.targetNailY == 357.2 && r.nailY == 358
  {
    var s := Initial(6, 6);
    InitialInv(6, 6);
    StrikeCycle(s);
    var d := Strike(s);
    var r := Frames(d, FramesToIdle(d));
    PenetrationDepthOfSliders(6, 6);
    assert StrikeTarget(350, 6, 6) == 357.2;
    assert 357.2 <= r.nailY as real < 359.2;
    assert r.nailY % 2 == 0;
  }
}
