/**
 * The player's bird (bird.py:18-88): vertical physics under gravity, the
 * jump impulse, a rate-limited flight mode and a cosmetic running stat.
 * Positions, speeds and time steps are exact reals.
 */
module Birds {
  import opened Screen

  /** Gravity, bird.py:24. */
  const G: real := 20.0
  /** Seconds of grounded time needed before another flight, bird.py:30. */
  const FlyCooldown: real := 0.1
  /** Seconds a flight lasts, bird.py:31. */
  const FlyDuration: real := 0.5
  /** Vertical speed while flying, bird.py:83. */
  const FlightLift: real := 0.5
  /** The mass gravity is scaled against, bird.py:56. */
  const ReferenceMass: real := 5.0
  /** Bound of the visual tilt in degrees, bird.py:58. */
  const MaxTilt: real := 30.0
  /** Fixed horizontal lane and starting height, bird.py:20-21. */
  const StartX: int := 120
  const StartY: real := ScreenHeight as real / 2.0
  /** Side of the bird's square sprite and hit box. */
  const BirdSize: int := 50

  function Min(a: real, b: real): real { if a <= b then a else b }
  function Max(a: real, b: real): real { if a >= b then a else b }

  /** The constructor parameters that distinguish one bird from another. */
  datatype Kind = Kind(name: string, sound: string, mass: real, speed: real,
                       hasItem: bool, hasItemEffect: bool)

  /** The five selectable birds, in menu order (bird.py:142-149). */
  const Roster: seq<Kind> := [
    Kind("Parrot", "안녕하세요", 5.0, 3.0, true, true),
    Kind("Sparrow", "짹짹", 5.0, 2.0, true, true),
    Kind("Pigeon", "푸드득푸드득", 5.0, 4.0, true, true),
    Kind("Chicken", "꽉끼오", 5.0, 1.0, false, false),
    Kind("RubberDuck", "꽉", 5.0, 0.0, false, false)
  ]

  /** Number of entries in the roster. */
  const RosterSize: int := 5

  /** The mutable physics state of a bird. */
  datatype Motion = Motion(y: real, yspeed: real, rotate: real,
                           isFlying: bool, flyingTime: real, flyCooling: real)
  {
    /**
     * What every operation keeps when time steps are non-negative: the
     * cooldown accumulator is non-negative, the tilt is within bounds, and a
     * bird in flight has between zero and one full flight left.
     */
    predicate Ok()
    {
      flyCooling >= 0.0 && -MaxTilt <= rotate <= MaxTilt &&
      (isFlying ==> 0.0 <= flyingTime <= FlyDuration)
    }
  }

  /** The tilt drawn for a vertical speed: twice the speed, upward positive, clamped. */
  function Tilt(yspeed: real): (r: real)
    ensures -MaxTilt <= r <= MaxTilt
    ensures -MaxTilt <= -2.0 * yspeed <= MaxTilt ==> r == -2.0 * yspeed
    ensures -2.0 * yspeed > MaxTilt ==> r == MaxTilt
    ensures -2.0 * yspeed < -MaxTilt ==> r == -MaxTilt
  {
    Max(-MaxTilt, Min(MaxTilt, yspeed * -2.0))
  }

  /**
   * One physics tick of length dt (Bird.update). In flight the timer runs
   * down and the flight ends once it is negative; on the ground gravity
   * accumulates and so does the cooldown. The position always moves by the
   * new speed, per tick and not scaled by dt.
   */
  function Step(m: Motion, dt: real, mass: real): (r: Motion)
    ensures r.rotate == Tilt(r.yspeed) && -MaxTilt <= r.rotate <= MaxTilt
    ensures r.y == m.y + r.yspeed
    ensures m.isFlying ==>
      r.yspeed == m.yspeed && r.flyCooling == m.flyCooling &&
      r.flyingTime == m.flyingTime - dt && (r.isFlying <==> r.flyingTime >= 0.0)
    ensures !m.isFlying ==>
      !r.isFlying && r.flyingTime == m.flyingTime &&
      r.yspeed == m.yspeed + Fall(dt, mass) && r.flyCooling == m.flyCooling + dt
    ensures !m.isFlying && dt >= 0.0 && mass >= 0.0 ==>
      r.yspeed >= m.yspeed && r.flyCooling >= m.flyCooling
    ensures m.Ok() && dt >= 0.0 ==> r.Ok()
  {
    var (ys, flying, time, cooling) :=
      if m.isFlying then
        (m.yspeed, m.flyingTime - dt >= 0.0, m.flyingTime - dt, m.flyCooling)
      else
        (m.yspeed + Fall(dt, mass), false, m.flyingTime, m.flyCooling + dt);
    Motion(m.y + ys, ys, Tilt(ys), flying, time, cooling)
  }

  /** Speed gained by falling for dt seconds: gravity scaled by mass against the reference mass. */
  function Fall(dt: real, mass: real): real { G * dt * mass / ReferenceMass }

  /** Size of the upward impulse of a jump for a bird of the given speed. */
  function Impulse(speed: real): real { 5.0 * (1.0 + speed / 8.0) }

  /**
   * The jump (Bird.bird_sound): a falling bird first stops, then gets an
   * upward impulse; any flight is cancelled. Nothing else changes.
   */
  function Jump(m: Motion, speed: real): (r: Motion)
    ensures r.yspeed == Min(m.yspeed, 0.0) - Impulse(speed)
    ensures speed >= 0.0 ==> r.yspeed <= -5.0 && r.yspeed < m.yspeed
    ensures !r.isFlying
    ensures r == m.(yspeed := r.yspeed, isFlying := false)
    ensures m.Ok() ==> r.Ok()
  {
    var ys := if m.yspeed > 0.0 then 0.0 else m.yspeed;
    m.(yspeed := ys - Impulse(speed), isFlying := false)
  }

  /** Whether Bird.fly acts: the bird can move and the cooldown has strictly elapsed. */
  predicate CanFly(m: Motion, speed: real)
  {
    speed > 0.0 && FlyCooldown < m.flyCooling
  }

  /**
   * Starting a flight (Bird.fly): when allowed, the bird rises slowly for a
   * full flight and the cooldown restarts; otherwise nothing changes.
   */
  function StartFlight(m: Motion, speed: real): (r: Motion)
    ensures CanFly(m, speed) ==>
      r.isFlying && r.yspeed == FlightLift && r.flyingTime == FlyDuration &&
      r.flyCooling == 0.0 && r.y == m.y && r.rotate == m.rotate
    ensures !CanFly(m, speed) ==> r == m
    ensures !CanFly(r, speed)
    ensures m.Ok() ==> r.Ok()
  {
    if speed > 0.0 && FlyCooldown < m.flyCooling then
      m.(yspeed := FlightLift, flyingTime := FlyDuration, flyCooling := 0.0, isFlying := true)
    else
      m
  }

  /** What Bird.bird_running reports: the bird cannot run, or its speed stat. */
  datatype RunReport = CannotRun | Running(stat: real, itemNotice: bool)

  /**
   * The cosmetic running stat: mass times speed, doubled when the bird has
   * an item whose effect is enabled. The item notice is shown whenever the
   * bird has an item, enabled or not.
   */
  function RunStat(k: Kind): (r: RunReport)
    ensures r.Running? <==> k.speed > 0.0
    ensures r.Running? ==> r.itemNotice == k.hasItem
    ensures r.Running? && k.mass > 0.0 ==>
      (r.stat == 2.0 * k.mass * k.speed <==> k.hasItem && k.hasItemEffect) &&
      (r.stat == k.mass * k.speed <==> !(k.hasItem && k.hasItemEffect))
  {
    if k.speed > 0.0 then
      Running(k.mass * k.speed * (if k.hasItem && k.hasItemEffect then 2.0 else 1.0), k.hasItem)
    else
      CannotRun
  }

  /** Game.reset's effect on the bird: back to the start height at rest; flight state is kept. */
  function Restart(m: Motion): (r: Motion)
    ensures r.y == StartY && r.yspeed == 0.0
    ensures r.rotate == m.rotate && r.isFlying == m.isFlying
    ensures r.flyingTime == m.flyingTime && r.flyCooling == m.flyCooling
    ensures m.Ok() ==> r.Ok()
  {
    m.(y := StartY, yspeed := 0.0)
  }

  // ---------------------------------------------------------------------
  // Several ticks in a row

  function Steps(m: Motion, dts: seq<real>, mass: real): Motion
    decreases |dts|
  {
    if dts == [] then m else Steps(Step(m, dts[0], mass), dts[1..], mass)
  }

  function Sum(dts: seq<real>): real
  {
    if dts == [] then 0.0 else dts[0] + Sum(dts[1..])
  }

  predicate AllNonNegative(dts: seq<real>)
  {
    forall i :: 0 <= i < |dts| ==> dts[i] >= 0.0
  }

  lemma {:induction false} SumNonNegative(dts: seq<real>)
    requires AllNonNegative(dts)
    ensures Sum(dts) >= 0.0
  {
    if dts != [] {
      SumNonNegative(dts[1..]);
    }
  }

  /**
   * On the ground, gravity accumulates: after any sequence of ticks the
   * speed has grown by G * mass / 5 times the elapsed time, and so has the
   * cooldown accumulator; the bird never starts flying by itself.
   */
  lemma {:induction false} GravityAccumulates(m: Motion, dts: seq<real>, mass: real)
    requires !m.isFlying
    ensures !Steps(m, dts, mass).isFlying
    ensures Steps(m, dts, mass).yspeed == m.yspeed + Fall(Sum(dts), mass)
    ensures Steps(m, dts, mass).flyCooling == m.flyCooling + Sum(dts)
    decreases |dts|
  {
    if dts == [] {
      assert Fall(0.0, mass) == 0.0;
    } else {
      var n := Step(m, dts[0], mass);
      assert n.yspeed == m.yspeed + Fall(dts[0], mass);
      GravityAccumulates(n, dts[1..], mass);
      FallAdds(dts[0], Sum(dts[1..]), mass);
    }
  }

  lemma FallAdds(a: real, b: real, mass: real)
    ensures Fall(a, mass) + Fall(b, mass) == Fall(a + b, mass)
  {
    assert (a + b) * mass == a * mass + b * mass;
  }

  /** Consequently the downward speed of a grounded bird never decreases over time. */
  lemma FallingSpeedNonDecreasing(m: Motion, dts: seq<real>, mass: real)
    requires !m.isFlying && AllNonNegative(dts) && mass >= 0.0
    ensures Steps(m, dts, mass).yspeed >= m.yspeed
  {
    GravityAccumulates(m, dts, mass);
    SumNonNegative(dts);
    assert Sum(dts) * mass >= 0.0;
    assert Fall(Sum(dts), mass) >= 0.0;
  }

  /**
   * While the elapsed time does not exceed the flight timer, a flying bird
   * keeps flying at constant speed, its cooldown frozen, rising or sinking
   * by that speed every tick.
   */
  lemma {:induction false} FlightHolds(m: Motion, dts: seq<real>, mass: real)
    requires m.isFlying && AllNonNegative(dts) && Sum(dts) <= m.flyingTime
    ensures var r := Steps(m, dts, mass);
      r.isFlying && r.yspeed == m.yspeed && r.flyCooling == m.flyCooling &&
      r.flyingTime == m.flyingTime - Sum(dts)
    decreases |dts|
  {
    if dts != [] {
      SumNonNegative(dts[1..]);
      var n := Step(m, dts[0], mass);
      assert AllNonNegative(dts[1..]) by {
        forall i | 0 <= i < |dts[1..]| ensures dts[1..][i] >= 0.0 {
          assert dts[1..][i] == dts[i + 1];
        }
      }
      assert n.flyingTime == m.flyingTime - dts[0] >= Sum(dts[1..]) >= 0.0;
      FlightHolds(n, dts[1..], mass);
    }
  }
  /** Height after k frames at constant speed v, frame by frame. */
  function Glide(y: real, v: real, k: nat): real
    decreases k
  {
    if k == 0 then y else Glide(y + v, v, k - 1)
  }

  lemma {:induction false} GlideIsLinear(y: real, v: real, k: nat)
    ensures Glide(y, v, k) == y + k as real * v
    decreases k
  {
    if k > 0 {
      GlideIsLinear(y + v, v, k - 1);
      assert (k - 1) as real * v == k as real * v - v;
    }
  }

  lemma {:induction false} FlightGlidesFrameByFrame(m: Motion, dts: seq<real>, mass: real)
    requires m.isFlying && AllNonNegative(dts) && Sum(dts) <= m.flyingTime
    ensures Steps(m, dts, mass).y == Glide(m.y, m.yspeed, |dts|)
    decreases |dts|
  {
    if dts != [] {
      SumNonNegative(dts[1..]);
      var n := Step(m, dts[0], mass);
      assert AllNonNegative(dts[1..]) by {
        forall i | 0 <= i < |dts[1..]| ensures dts[1..][i] >= 0.0 {
          assert dts[1..][i] == dts[i + 1];
        }
      }
      FlightGlidesFrameByFrame(n, dts[1..], mass);
    }
  }

  /** While the flight lasts, the bird moves by the same offset every frame. */
  lemma FlightGlides(m: Motion, dts: seq<real>, mass: real)
    requires m.isFlying && AllNonNegative(dts) && Sum(dts) <= m.flyingTime
    ensures Steps(m, dts, mass).y == m.y + |dts| as real * m.yspeed
  {
    var k := |dts|;
    GlideIsLinear(m.y, m.yspeed, k);
    FlightGlidesFrameByFrame(m, dts, mass);
  }

  /** The cooldown grows by at most the elapsed time. */
  lemma {:induction false} CoolingBounded(m: Motion, dts: seq<real>, mass: real)
    requires AllNonNegative(dts)
    ensures Steps(m, dts, mass).flyCooling <= m.flyCooling + Sum(dts)
    decreases |dts|
  {
    if dts != [] {
      assert AllNonNegative(dts[1..]) by {
        forall i | 0 <= i < |dts[1..]| ensures dts[1..][i] >= 0.0 {
          assert dts[1..][i] == dts[i + 1];
        }
      }
      CoolingBounded(Step(m, dts[0], mass), dts[1..], mass);
    }
  }

  /**
   * Flight is rate limited: after a flight starts, another request within
   * the cooldown window (however the time is split into ticks) changes nothing.
   */
  lemma FlyRateLimited(m: Motion, speed: real, dts: seq<real>, mass: real)
    requires CanFly(m, speed) && AllNonNegative(dts) && Sum(dts) <= FlyCooldown
    ensures var b := Steps(StartFlight(m, speed), dts, mass); StartFlight(b, speed) == b
  {
    CoolingBounded(StartFlight(m, speed), dts, mass);
  }

  /** In particular a second request straight after a successful one is a no-op. */
  lemma FlyTwiceIsFlyOnce(m: Motion, speed: real)
    ensures StartFlight(StartFlight(m, speed), speed) == StartFlight(m, speed)
  {
  }

  /** A flight that starts lasts its full duration at the constant lift speed. */
  lemma FlightLastsItsDuration(m: Motion, speed: real, dts: seq<real>, mass: real)
    requires CanFly(m, speed) && AllNonNegative(dts) && Sum(dts) <= FlyDuration
    ensures var r := Steps(StartFlight(m, speed), dts, mass);
      r.isFlying && r.yspeed == FlightLift && r.y == m.y + |dts| as real * FlightLift
  {
    FlightHolds(StartFlight(m, speed), dts, mass);
    FlightGlides(StartFlight(m, speed), dts, mass);
  }

  /** The roster's item notice is shown exactly for the birds whose stat is doubled. */
  lemma RosterNoticeMatchesBoost(i: int)
    requires 0 <= i < |Roster|
    ensures RunStat(Roster[i]).Running? ==>
      (RunStat(Roster[i]).itemNotice <==>
       RunStat(Roster[i]).stat == 2.0 * Roster[i].mass * Roster[i].speed)
  {
  }

  /**
   * A bird of the roster (Bird). Its constructor parameters are the
   * immutable kind; the physics fields change in place.
   */
  class Bird {
    const kind: Kind
    var x: int
    var y: real
    var yspeed: real
    var rotate: real
    var isFlying: bool
    var flyingTime: real
    var flyCooling: real

    function State(): Motion
      reads this
    {
      Motion(y, yspeed, rotate, isFlying, flyingTime, flyCooling)
    }

    predicate Valid()
      reads this
    {
      State().Ok()
    }

    constructor (k: Kind)
      ensures kind == k && x == StartX
      ensures State() == Motion(StartY, 0.0, 0.0, false, 0.0, 0.0)
      ensures Valid()
    {
      kind := k;
      x := StartX;
      y := StartY;
      yspeed := 0.0;
      rotate := 0.0;
      isFlying := false;
      flyCooling := 0.0;
      flyingTime := 0.0;
    }

    /** Bird.update */
    method Update(dt: real)
      modifies this
      ensures old(Valid()) && dt >= 0.0 ==> Valid()
      ensures x == old(x)
      ensures State() == Step(old(State()), dt, kind.mass)
    {
      if isFlying {
        flyingTime := flyingTime - dt;
        if flyingTime < 0.0 {
          isFlying := false;
        }
      } else {
        yspeed := yspeed + G * dt * kind.mass / ReferenceMass;
        flyCooling := flyCooling + dt;
      }
      rotate := Max(-MaxTilt, Min(MaxTilt, yspeed * -2.0));
      y := y + yspeed;
    }

    /** Bird.bird_sound: the jump. */
    method BirdSound()
      modifies this
      ensures old(Valid()) ==> Valid()
      ensures x == old(x)
      ensures State() == Jump(old(State()), kind.speed)
    {
      if yspeed > 0.0 {
        yspeed := 0.0;
      }
      yspeed := yspeed - 5.0 * (1.0 + kind.speed / 8.0);
      isFlying := false;
    }

    /** Bird.fly */
    method Fly()
      modifies this
      ensures old(Valid()) ==> Valid()
      ensures x == old(x)
      ensures State() == StartFlight(old(State()), kind.speed)
    {
      if kind.speed > 0.0 {
        if FlyCooldown < flyCooling {
          yspeed := FlightLift;
          flyingTime := FlyDuration;
          flyCooling := 0.0;
          isFlying := true;
        }
      }
    }
  }
}
