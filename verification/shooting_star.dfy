/**
 * Shooting stars of the simulator component (src/app/components/simulator/simulator.ts:311-419):
 * fast particles with a bounded, most-recent-first trail, recycled through an activity flag.
 */
module ShootingStarModel {
  import opened SimulationModel
  import opened SimulationServiceModule

  const TRAIL_LENGTH: nat := 8
  const SHOOTING_STAR_SPEED_MULTIPLIER: real := 7.0
  const CENTER_SPAWN_RATIO: real := 0.3
  /** A star at or nearer than this depth has passed the camera and is switched off. */
  const DEACTIVATION_DEPTH: real := 10.0

  datatype TrailPoint = TrailPoint(x: real, y: real, z: real)

  /** The fields of one shooting star. */
  datatype ShootingState = ShootingState(
    x: real, y: real, z: real, initialZ: real, isActive: bool, trail: seq<TrailPoint>)

  /**
   * What holds of every shooting star at every frame: the trail is bounded, empty whenever the
   * star is off, and every trail point lies on the star's own line of flight; an active star
   * started at a positive depth.
   */
  predicate Coherent(s: ShootingState) {
    && |s.trail| <= TRAIL_LENGTH
    && (!s.isActive ==> s.trail == [])
    && (s.isActive ==> s.initialZ > 0.0)
    && forall i :: 0 <= i < |s.trail| ==> s.trail[i].x == s.x && s.trail[i].y == s.y
  }

  /**
   * The trail streams out behind the head: the head is nearer than the newest trail point,
   * and each trail point is nearer than the one recorded before it.
   */
  predicate DepthOrdered(s: ShootingState) {
    && (|s.trail| > 0 ==> s.z < s.trail[0].z)
    && forall i :: 0 <= i < |s.trail| - 1 ==> s.trail[i].z < s.trail[i + 1].z
  }

  /** A star as the constructor leaves it. */
  const Dormant: ShootingState := ShootingState(0.0, 0.0, 0.0, 0.0, false, [])

  /**
   * `spawn()` with `Math.random()` answers `rx`, `ry`, `rz`: a fresh position in the central
   * band, a depth in the far fifth of the range, an empty trail, switched on.
   */
  function Spawned(width: real, height: real, rx: real, ry: real, rz: real): (r: ShootingState)
    requires width > 0.0 && height > 0.0
    requires Unit(rx) && Unit(ry) && Unit(rz)
    ensures r.isActive && r.trail == [] && r.initialZ == r.z
    ensures 0.8 * width <= r.z < width
    ensures -0.15 * width <= r.x < 0.15 * width
    ensures -0.15 * height <= r.y < 0.15 * height
    ensures Coherent(r) && DepthOrdered(r)
  {
    var x := Centered(rx, width) * CENTER_SPAWN_RATIO;
    var y := Centered(ry, height) * CENTER_SPAWN_RATIO;
    var z := FarDepth(rz, width);
    ShootingState(x, y, z, z, true, [])
  }

  /** `width * 0.8 + r * width * 0.2`: a depth in the far fifth of the range. */
  function FarDepth(r: real, width: real): (z: real)
    requires Unit(r) && width > 0.0
    ensures 0.8 * width <= z < width
  {
    UnitScaled(r, width);
    width * 0.8 + r * width * 0.2
  }

  /**
   * `unshift` then at most one `pop`: the new point goes first, the older points shift back by
   * one, and the oldest falls off once the trail would exceed TRAIL_LENGTH.
   */
  function PushTrail(trail: seq<TrailPoint>, p: TrailPoint): (r: seq<TrailPoint>)
    ensures |r| == if |trail| + 1 > TRAIL_LENGTH then |trail| else |trail| + 1
    ensures r[0] == p
    ensures forall i :: 1 <= i < |r| ==> r[i] == trail[i - 1]
  {
    var t := [p] + trail;
    if |t| > TRAIL_LENGTH then t[..|t| - 1] else t
  }

  /**
   * One `update()` with shooting-star speed `baseSpeed` read from the store. An inactive star is
   * left alone. An active one records where it was, moves nearer by `baseSpeed * 7`, and is
   * switched off (trail discarded) once it is at or nearer than DEACTIVATION_DEPTH.
   */
  function Advance(s: ShootingState, baseSpeed: real): (r: ShootingState)
    ensures !s.isActive ==> r == s
    ensures r.x == s.x && r.y == s.y && r.initialZ == s.initialZ
    ensures s.isActive ==> r.z == s.z - baseSpeed * SHOOTING_STAR_SPEED_MULTIPLIER
    ensures r.isActive <==> s.isActive && r.z > DEACTIVATION_DEPTH
    ensures r.isActive ==> r.trail == PushTrail(s.trail, TrailPoint(s.x, s.y, s.z))
    ensures s.isActive && !r.isActive ==> r.trail == []
    ensures Coherent(s) ==> Coherent(r)
  {
    if !s.isActive then s
    else
      var trail := PushTrail(s.trail, TrailPoint(s.x, s.y, s.z));
      var z := s.z - baseSpeed * SHOOTING_STAR_SPEED_MULTIPLIER;
      if z <= DEACTIVATION_DEPTH then s.(z := z, isActive := false, trail := [])
      else s.(z := z, trail := trail)
  }

  /** A star after one `update()` per entry of `speeds`, in order. */
  function AdvanceAll(s: ShootingState, speeds: seq<real>): ShootingState
    decreases |speeds|
  {
    if speeds == [] then s else AdvanceAll(Advance(s, speeds[0]), speeds[1..])
  }

  /** However many frames pass, and whatever the speed setting, the star stays coherent: in particular its trail never exceeds TRAIL_LENGTH points. */
  lemma {:induction false} CoherentForever(s: ShootingState, speeds: seq<real>)
    requires Coherent(s)
    ensures Coherent(AdvanceAll(s, speeds))
    ensures |AdvanceAll(s, speeds).trail| <= TRAIL_LENGTH
    decreases |speeds|
  {
    if speeds != [] {
      CoherentForever(Advance(s, speeds[0]), speeds[1..]);
    }
  }

  /** With a positive speed the trail stays ordered from the head outwards. */
  lemma AdvanceKeepsDepthOrder(s: ShootingState, baseSpeed: real)
    requires DepthOrdered(s) && baseSpeed > 0.0
    ensures DepthOrdered(Advance(s, baseSpeed))
  {
    var r := Advance(s, baseSpeed);
    if r.isActive {
      forall i | 0 <= i < |r.trail| - 1
        ensures r.trail[i].z < r.trail[i + 1].z
      {
        if i > 0 {
          assert r.trail[i] == s.trail[i - 1] && r.trail[i + 1] == s.trail[i];
        }
      }
    }
  }

  /** The same over any run of frames at positive speed. */
  lemma {:induction false} DepthOrderedForever(s: ShootingState, speeds: seq<real>)
    requires DepthOrdered(s)
    requires forall i :: 0 <= i < |speeds| ==> speeds[i] > 0.0
    ensures DepthOrdered(AdvanceAll(s, speeds))
    decreases |speeds|
  {
    if speeds != [] {
      AdvanceKeepsDepthOrder(s, speeds[0]);
      DepthOrderedForever(Advance(s, speeds[0]), speeds[1..]);
    }
  }

  /** The alpha of trail segment `i` of `len`: a linear fade from 0.6. */
  function TrailOpacity(i: nat, len: nat): (o: real)
    requires i < len
    ensures 0.0 < o <= 0.6
  {
    (1.0 - (i as real) / (len as real)) * 0.6
  }

  /** Older segments are strictly dimmer. */
  lemma TrailOpacityDecreasing(i: nat, j: nat, len: nat)
    requires i < j < len
    ensures TrailOpacity(j, len) < TrailOpacity(i, len)
  {
    var n := len as real;
    assert (i as real) / n < (j as real) / n by {
      assert (j as real) / n - (i as real) / n == ((j - i) as real) / n;
    }
  }

  /** The draw calls for one light at screen position `(px, py)` with sprite scale `mult`, or none below the size floor. */
  function Light(px: real, py: real, radius: real, alpha: real, mult: real, hasSprite: bool): (ops: seq<DrawOp>)
    ensures |ops| <= 1
    ensures forall op :: op in ops ==> op.alpha == alpha
  {
    if radius > 0.1 then
      if hasSprite then
        var size := radius * mult;
        [DrawSprite(px - size / 2.0, py - size / 2.0, size, alpha)]
      else [FillCircle(px, py, radius, alpha)]
    else []
  }

  /** The trail part of `draw()`, from segment `i` on; segments at or behind the camera plane are skipped. */
  function TrailOps(s: ShootingState, i: nat, width: real, scaleCompensation: real, baseSize: real, hasSprite: bool): (ops: seq<DrawOp>)
    requires i <= |s.trail|
    requires s.initialZ != 0.0
    ensures |ops| <= |s.trail| - i
    ensures forall op :: op in ops ==> 0.0 < op.alpha <= 0.6
    decreases |s.trail| - i
  {
    if i == |s.trail| then []
    else
      var t := s.trail[i];
      var rest := TrailOps(s, i + 1, width, scaleCompensation, baseSize, hasSprite);
      if t.z <= 0.0 then rest
      else
        var k := width / t.z;
        var parallax := 1.0 - t.z / s.initialZ;
        var radius := parallax * baseSize * scaleCompensation * 0.25;
        Light(t.x * k, t.y * k, radius, TrailOpacity(i, |s.trail|), 4.0, hasSprite) + rest
  }

  /**
   * `draw()`: nothing for an inactive star; otherwise the fading trail segments, then the head
   * at full opacity when it is in front of the camera.
   */
  function ShootingDraw(s: ShootingState, width: real, currentScale: real, baseSize: real, hasSprite: bool): (ops: seq<DrawOp>)
    requires Coherent(s) && currentScale != 0.0
    ensures !s.isActive ==> ops == []
    ensures |ops| <= TRAIL_LENGTH + 1
    ensures forall op :: op in ops ==> 0.0 < op.alpha <= 1.0
  {
    if !s.isActive then []
    else
      var scaleCompensation := 1.0 / currentScale;
      var trailOps := TrailOps(s, 0, width, scaleCompensation, baseSize, hasSprite);
      var headOps :=
        if s.z > 0.0 then
          var k := width / s.z;
          var parallax := 1.0 - s.z / s.initialZ;
          Light(s.x * k, s.y * k, parallax * baseSize * scaleCompensation * 0.5, 1.0, 6.0, hasSprite)
        else [];
      trailOps + headOps
  }

  /** One pooled shooting star. */
  class ShootingStar {
    const width: real
    const height: real
    const simService: SimulationService
    var x: real
    var y: real
    var z: real
    var initialZ: real
    var isActive: bool
    var trail: seq<TrailPoint>

    function State(): ShootingState
      reads this
    {
      ShootingState(x, y, z, initialZ, isActive, trail)
    }

    ghost predicate Valid()
      reads this
    {
      width > 0.0 && height > 0.0 && Coherent(State())
    }

    /** Starts inactive with an empty trail. */
    constructor (width: real, height: real, simService: SimulationService)
      requires width > 0.0 && height > 0.0
      ensures Valid() && State() == Dormant
      ensures this.width == width && this.height == height && this.simService == simService
    {
      this.width := width;
      this.height := height;
      this.simService := simService;
      x, y, z, initialZ := 0.0, 0.0, 0.0, 0.0;
      isActive := false;
      trail := [];
    }

    method Spawn(rx: real, ry: real, rz: real)
      requires Valid() && Unit(rx) && Unit(ry) && Unit(rz)
      modifies this
      ensures Valid() && State() == Spawned(width, height, rx, ry, rz)
    {
      x := Centered(rx, width) * CENTER_SPAWN_RATIO;
      y := Centered(ry, height) * CENTER_SPAWN_RATIO;
      z := FarDepth(rz, width);
      initialZ := z;
      trail := [];
      isActive := true;
    }

    method Update()
      requires Valid()
      modifies this
      ensures Valid() && State() == Advance(old(State()), simService.shootingStarSpeed)
    {
      if !isActive {
        return;
      }
      trail := [TrailPoint(x, y, z)] + trail;
      if |trail| > TRAIL_LENGTH {
        trail := trail[..|trail| - 1];
      }
      var baseSpeed := simService.shootingStarSpeed;
      var speed := baseSpeed * SHOOTING_STAR_SPEED_MULTIPLIER;
      z := z - speed;
      if z <= DEACTIVATION_DEPTH {
        isActive := false;
        trail := [];
      }
    }
  }
}
