/**
  The player craft: a bounding rectangle in the X/Z plane, a constant float
  height, a forward speed held within [MinSpeed, MaxSpeed], a cosmetic roll
  state and the time of its last update. `Update` is one simulation step
  driven by the current time and the keys held.
*/
module Players {
  import opened Engine
  import Rectangles

  const PlayerDepth: real := 10.0
  const PlayerZ: real := 25.0
  const InitialFwdSpeed: real := 200.0
  const FwdAcceleration: real := 1000.0
  const MinSpeed: real := 200.0
  const MaxSpeed: real := 2000.0

  /**
    Height of the craft above the map. The craft width is a crate-level
    constant defined outside this model, so it is a parameter here.
  */
  function FloatHeight(playerWidth: real): real {
    15.0 + 0.50 * playerWidth * 0.70
  }

  datatype RollPosition = Level | Left | Right

  datatype Player = Player(
    shape: Rectangles.Rectangle,
    y: real,
    lastUpdateTime: real,
    fwdSpeed: real,
    roll: RollPosition)

  /** The speed envelope every reachable player keeps. */
  predicate SpeedInBounds(p: Player) {
    MinSpeed <= p.fwdSpeed <= MaxSpeed
  }

  function New(playerWidth: real, mapY: real, time: real): (p: Player)
    ensures p.shape.center == (0.0, PlayerZ)
    ensures p.shape.size == (playerWidth, PlayerDepth)
    ensures p.y - mapY == FloatHeight(playerWidth)
    ensures p.lastUpdateTime == time && p.roll == Level
    ensures p.fwdSpeed == InitialFwdSpeed && SpeedInBounds(p)
  {
    Player(
      Rectangles.New((0.0, PlayerZ), (playerWidth, PlayerDepth)),
      mapY + FloatHeight(playerWidth),
      time,
      InitialFwdSpeed,
      Level)
  }

  /** Speed as a fraction of the speed envelope, fed to the field of view. */
  function GetSpeedPu(p: Player): (r: real)
    ensures SpeedInBounds(p) ==> 0.0 <= r <= 1.0
    ensures MinSpeed + r * (MaxSpeed - MinSpeed) == p.fwdSpeed
  {
    (p.fwdSpeed - MinSpeed) / (MaxSpeed - MinSpeed)
  }

  /**
    Bank angle. `tiltRad` stands for the source's 45-degree constant in
    radians (a multiple of pi, which has no exact real value); only the
    sign and the left/right symmetry are modelled.
  */
  function RollAngle(roll: RollPosition, tiltRad: real): (a: real)
    requires tiltRad > 0.0
    ensures a == 0.0 <==> roll == Level
    ensures a < 0.0 <==> roll == Left
    ensures a > 0.0 <==> roll == Right
    ensures a == 0.0 || a == tiltRad || a == -tiltRad
  {
    match roll
    case Level => 0.0
    case Left => -tiltRad
    case Right => tiltRad
  }

  function TimeSinceLastUpdate(p: Player, currentTime: real): (dt: real)
    ensures p.lastUpdateTime + dt == currentTime
  {
    currentTime - p.lastUpdateTime
  }

  /** +1 for up alone, -1 for down alone, 0 for both or neither. */
  function SpeedDirection(keys: MoveKeys): real {
    (if keys.up then 1.0 else 0.0) - (if keys.down then 1.0 else 0.0)
  }

  /** -1 for left alone, +1 for right alone, 0 for both or neither. */
  function LateralDirection(keys: MoveKeys): real {
    if LeftOnly(keys) then -1.0 else if RightOnly(keys) then 1.0 else 0.0
  }

  /**
    Apply the up/down speed change, then clamp to the envelope. The result
    is the pre-clamp speed when that lies in the envelope, and the nearer
    bound otherwise.
  */
  function UpdateFwdSpeed(speed: real, keys: MoveKeys, dt: real): (s: real)
    ensures MinSpeed <= s <= MaxSpeed
    ensures var pre := speed + SpeedDirection(keys) * dt * FwdAcceleration;
            && (MinSpeed <= pre <= MaxSpeed ==> s == pre)
            && (pre < MinSpeed ==> s == MinSpeed)
            && (pre > MaxSpeed ==> s == MaxSpeed)
  {
    var deltaV := dt * FwdAcceleration;
    var s1 := if keys.up then speed + deltaV else speed;
    var s2 := if keys.down then s1 - deltaV else s1;
    var s3 := if s2 < MinSpeed then MinSpeed else s2;
    if s3 > MaxSpeed then MaxSpeed else s3
  }

  /**
    Sideways move by dt*speed, only when exactly one of left/right is held
    (the source's `update_size_position`).
  */
  function UpdateSidePosition(shape: Rectangles.Rectangle, keys: MoveKeys, dt: real, speed: real)
    : (r: Rectangles.Rectangle)
    ensures r.center.0 == shape.center.0 + LateralDirection(keys) * dt * speed
    ensures r.center.1 == shape.center.1 && r.size == shape.size
  {
    var moveDist := dt * speed;
    var s1 := if LeftOnly(keys) then Rectangles.MoveX(shape, -moveDist) else shape;
    if RightOnly(keys) then Rectangles.MoveX(s1, moveDist) else s1
  }

  function UpdateRollPosition(keys: MoveKeys): (r: RollPosition)
    ensures r == Left <==> LeftOnly(keys)
    ensures r == Right <==> RightOnly(keys)
    ensures r == Level <==> keys.left == keys.right
  {
    var r1 := Level;
    var r2 := if LeftOnly(keys) then Left else r1;
    if RightOnly(keys) then Right else r2
  }

  function UpdateForwardPosition(shape: Rectangles.Rectangle, speed: real, dt: real)
    : (r: Rectangles.Rectangle)
    ensures r.center.1 - shape.center.1 == speed * dt
    ensures r.center.0 == shape.center.0 && r.size == shape.size
  {
    Rectangles.MoveZ(shape, speed * dt)
  }

  /** The player's position: the midpoint of its bounding rectangle on both axes. */
  function GetPosition(p: Player): (c: (real, real))
    ensures c.0 == (Rectangles.MinX(p.shape) + Rectangles.MaxX(p.shape)) / 2.0
    ensures c.1 == (Rectangles.MinZ(p.shape) + Rectangles.MaxZ(p.shape)) / 2.0
    ensures Rectangles.WellFormed(p.shape) ==> Rectangles.Contains(p.shape, c)
  {
    Rectangles.GetCenter(p.shape)
  }

  /**
    One simulation step. With no positive elapsed time only the timestamp
    moves; otherwise speed, then lateral position (with the new speed),
    then roll, then forward position are updated.
  */
  function Update(p: Player, currentTime: real, keys: MoveKeys): (q: Player)
    ensures q.lastUpdateTime == currentTime
    ensures q.y == p.y && q.shape.size == p.shape.size
    ensures currentTime - p.lastUpdateTime <= 0.0 ==> q == p.(lastUpdateTime := currentTime)
    ensures currentTime - p.lastUpdateTime > 0.0 ==> SpeedInBounds(q)
    ensures SpeedInBounds(p) ==> SpeedInBounds(q)
  {
    var deltaT := TimeSinceLastUpdate(p, currentTime);
    if deltaT > 0.0 then
      var speed := UpdateFwdSpeed(p.fwdSpeed, keys, deltaT);
      var shape1 := UpdateSidePosition(p.shape, keys, deltaT, speed);
      var roll := UpdateRollPosition(keys);
      var shape2 := UpdateForwardPosition(shape1, speed, deltaT);
      Player(shape2, p.y, currentTime, speed, roll)
    else
      p.(lastUpdateTime := currentTime)
  }

  /** Speed after a positive step: up adds and down subtracts dt*acceleration, then clamp. */
  lemma UpdateSpeed(p: Player, currentTime: real, keys: MoveKeys)
    requires currentTime - p.lastUpdateTime > 0.0
    ensures var pre := p.fwdSpeed + SpeedDirection(keys) * (currentTime - p.lastUpdateTime) * FwdAcceleration;
            var q := Update(p, currentTime, keys);
            && (MinSpeed <= pre <= MaxSpeed ==> q.fwdSpeed == pre)
            && (pre < MinSpeed ==> q.fwdSpeed == MinSpeed)
            && (pre > MaxSpeed ==> q.fwdSpeed == MaxSpeed)
    ensures keys.up && keys.down && SpeedInBounds(p) ==> Update(p, currentTime, keys).fwdSpeed == p.fwdSpeed
  {
  }

  /**
    Lateral effect of a positive step: left alone moves x down and right
    alone moves x up, by dt times the already-updated speed; both or
    neither leave x where it was.
  */
  lemma UpdateLateral(p: Player, currentTime: real, keys: MoveKeys)
    requires currentTime - p.lastUpdateTime > 0.0
    ensures var q := Update(p, currentTime, keys);
            var dist := (currentTime - p.lastUpdateTime) * q.fwdSpeed;
            && (LeftOnly(keys) ==> q.shape.center.0 == p.shape.center.0 - dist)
            && (RightOnly(keys) ==> q.shape.center.0 == p.shape.center.0 + dist)
            && (keys.left == keys.right ==> q.shape.center.0 == p.shape.center.0)
    ensures LeftOnly(keys) ==> Update(p, currentTime, keys).shape.center.0 < p.shape.center.0
    ensures RightOnly(keys) ==> Update(p, currentTime, keys).shape.center.0 > p.shape.center.0
  {
  }

  /** Roll after a positive step, and the sign of the resulting bank angle. */
  lemma UpdateRoll(p: Player, currentTime: real, keys: MoveKeys, tiltRad: real)
    requires currentTime - p.lastUpdateTime > 0.0
    requires tiltRad > 0.0
    ensures var q := Update(p, currentTime, keys);
            && (q.roll == Left <==> LeftOnly(keys))
            && (q.roll == Right <==> RightOnly(keys))
            && (RollAngle(q.roll, tiltRad) < 0.0 <==> LeftOnly(keys))
            && (RollAngle(q.roll, tiltRad) > 0.0 <==> RightOnly(keys))
            && (RollAngle(q.roll, tiltRad) == 0.0 <==> keys.left == keys.right)
  {
  }

  /** A positive step always moves the craft forward by the new speed times dt. */
  lemma UpdateForward(p: Player, currentTime: real, keys: MoveKeys)
    requires currentTime - p.lastUpdateTime > 0.0
    ensures var q := Update(p, currentTime, keys);
            q.shape.center.1 == p.shape.center.1 + q.fwdSpeed * (currentTime - p.lastUpdateTime)
    ensures Update(p, currentTime, keys).shape.center.1 > p.shape.center.1
  {
  }

  /** The speed fraction is zero at the starting speed. */
  lemma SpeedPuAtStart(playerWidth: real, mapY: real, time: real)
    ensures GetSpeedPu(New(playerWidth, mapY, time)) == 0.0
  {
  }

  /** A fresh player floats FloatHeight above the map and starts at (0, PlayerZ). */
  lemma NewPlayerPlacement(playerWidth: real, time: real)
    ensures New(playerWidth, -400.0, time).y == -400.0 + FloatHeight(playerWidth)
    ensures GetPosition(New(playerWidth, 0.0, time)) == (0.0, PlayerZ)
  {
  }

  /**
    From a fresh player, one positive step with no keys advances z by
    exactly InitialFwdSpeed*dt, and one with up held advances it further.
  */
  lemma FirstStepForward(playerWidth: real, mapY: real, t0: real, dt: real)
    requires dt > 0.0
    ensures Update(New(playerWidth, mapY, t0), t0 + dt, NoPress).shape.center.1
            == PlayerZ + InitialFwdSpeed * dt
    ensures Update(New(playerWidth, mapY, t0), t0 + dt, UpPress).shape.center.1
            > PlayerZ + InitialFwdSpeed * dt
  {
    var p := New(playerWidth, mapY, t0);
    assert TimeSinceLastUpdate(p, t0 + dt) == dt;
    var s0 := UpdateFwdSpeed(InitialFwdSpeed, NoPress, dt);
    assert s0 == InitialFwdSpeed;
    var s1 := UpdateFwdSpeed(InitialFwdSpeed, UpPress, dt);
    assert s1 > InitialFwdSpeed by {
      assert dt * FwdAcceleration > 0.0;
    }
    assert s1 * dt > InitialFwdSpeed * dt by {
      assert (s1 - InitialFwdSpeed) * dt > 0.0;
    }
    var q := Update(p, t0 + dt, UpPress);
    assert q.fwdSpeed == s1;
    assert q.shape.center.1 == PlayerZ + s1 * dt;
  }

  /** From a fresh player, left alone, right alone and left-with-right on one positive step. */
  lemma FirstStepSideways(playerWidth: real, mapY: real, t0: real, dt: real)
    requires dt > 0.0
    ensures GetPosition(Update(New(playerWidth, mapY, t0), t0 + dt, LeftPress)).0 < 0.0
    ensures GetPosition(Update(New(playerWidth, mapY, t0), t0 + dt, RightPress)).0 > 0.0
    ensures GetPosition(Update(New(playerWidth, mapY, t0), t0 + dt, LeftRightPress)).0 == 0.0
  {
  }

  /** The player after a sequence of update calls, in order. */
  function Run(p: Player, frames: seq<Frame>): Player
    decreases |frames|
  {
    if |frames| == 0 then p
    else Run(Update(p, frames[0].time, frames[0].keys), frames[1..])
  }

  /**
    Over any sequence of updates the speed stays in its envelope, the
    float height and the rectangle size never change, and the craft never
    moves backwards.
  */
  lemma {:induction false} RunInvariant(p: Player, frames: seq<Frame>)
    requires SpeedInBounds(p)
    ensures SpeedInBounds(Run(p, frames))
    ensures Run(p, frames).y == p.y
    ensures Run(p, frames).shape.size == p.shape.size
    ensures Run(p, frames).shape.center.1 >= p.shape.center.1
    decreases |frames|
  {
    if |frames| > 0 {
      var q := Update(p, frames[0].time, frames[0].keys);
      if frames[0].time - p.lastUpdateTime > 0.0 {
        UpdateForward(p, frames[0].time, frames[0].keys);
      }
      RunInvariant(q, frames[1..]);
    }
  }

  /** Holding no lateral key over a whole sequence keeps x fixed. */
  lemma {:induction false} RunStraight(p: Player, frames: seq<Frame>)
    requires forall i :: 0 <= i < |frames| ==> frames[i].keys.left == frames[i].keys.right
    ensures Run(p, frames).shape.center.0 == p.shape.center.0
    decreases |frames|
  {
    if |frames| > 0 {
      var q := Update(p, frames[0].time, frames[0].keys);
      if frames[0].time - p.lastUpdateTime > 0.0 {
        UpdateLateral(p, frames[0].time, frames[0].keys);
      }
      RunStraight(q, frames[1..]);
    }
  }
}
