/**
 * Ambient stars of the simulator component (src/app/components/simulator/simulator.ts:250-309):
 * slow flickering particles that approach the camera and are re-sampled in place once they reach it.
 */
module AmbientStarModel {
  import opened SimulationModel
  import opened SimulationServiceModule

  /** The fields of one ambient star. */
  datatype AmbientState = AmbientState(
    x: real, y: real, z: real, initialZ: real, flickerOffset: real, flickerRate: real)

  /** The three `Math.random()` answers one `reset()` consumes. */
  datatype ResetSample = ResetSample(rx: real, ry: real, rz: real)

  predicate ValidSample(r: ResetSample) {
    Unit(r.rx) && Unit(r.ry) && Unit(r.rz)
  }

  /**
   * Where an ambient star always is: laterally inside the canvas centred on the origin, with a
   * starting depth in [0, width) and a depth that is never negative.
   */
  predicate InField(s: AmbientState, width: real, height: real) {
    && -width / 2.0 <= s.x < width / 2.0
    && -height / 2.0 <= s.y < height / 2.0
    && 0.0 <= s.initialZ < width
    && 0.0 <= s.z
  }

  /** `reset()`: a fresh uniform position and depth; the depth is also the new starting depth. */
  function Resampled(s: AmbientState, width: real, height: real, r: ResetSample): (t: AmbientState)
    requires width > 0.0 && height > 0.0 && ValidSample(r)
    ensures InField(t, width, height) && t.initialZ == t.z
    ensures t.flickerOffset == s.flickerOffset && t.flickerRate == s.flickerRate
  {
    var z := Scaled(r.rz, width);
    s.(x := Centered(r.rx, width), y := Centered(r.ry, height), z := z, initialZ := z)
  }

  /**
   * A new star: reset with sample `r`, then given a flicker brightness in [0.5, 1) and a flicker
   * rate in [0.01, 0.06).
   */
  function Created(width: real, height: real, r: ResetSample, rOffset: real, rRate: real): (t: AmbientState)
    requires width > 0.0 && height > 0.0 && ValidSample(r) && Unit(rOffset) && Unit(rRate)
    ensures InField(t, width, height) && t.z == t.initialZ
    ensures 0.5 <= t.flickerOffset < 1.0 && 0.01 <= t.flickerRate < 0.06
  {
    Resampled(AmbientState(0.0, 0.0, 0.0, 0.0, rOffset * 0.5 + 0.5, rRate * 0.05 + 0.01), width, height, r)
  }

  /** The flicker brightness `0.5 + 0.5 * sin(...)` for a sine value `wave`. */
  function FlickerOffset(wave: real): (f: real)
    requires Wave(wave)
    ensures 0.0 <= f <= 1.0
  {
    0.5 + 0.5 * wave
  }

  /**
   * `update()` with ambient speed `speed` read from the store, reset sample `r` and sine value
   * `wave`: the star moves nearer by `speed`, is reset exactly when that leaves it at or behind
   * the camera plane, and takes the new flicker brightness.
   */
  function Step(s: AmbientState, speed: real, width: real, height: real, r: ResetSample, wave: real): (t: AmbientState)
    requires width > 0.0 && height > 0.0 && ValidSample(r) && Wave(wave)
    ensures s.z - speed <= 0.0 ==> t == Resampled(s, width, height, r).(flickerOffset := FlickerOffset(wave))
    ensures s.z - speed > 0.0 ==> t == s.(z := s.z - speed, flickerOffset := FlickerOffset(wave))
    ensures t.flickerRate == s.flickerRate
  {
    var moved := s.(z := s.z - speed);
    var placed := if moved.z <= 0.0 then Resampled(moved, width, height, r) else moved;
    placed.(flickerOffset := FlickerOffset(wave))
  }

  /** One frame keeps a star in the field, and at non-negative speed it never recedes past its starting depth. */
  lemma StepKeepsInField(s: AmbientState, speed: real, width: real, height: real, r: ResetSample, wave: real)
    requires width > 0.0 && height > 0.0 && ValidSample(r) && Wave(wave)
    requires InField(s, width, height)
    ensures InField(Step(s, speed, width, height, r, wave), width, height)
    ensures speed >= 0.0 && s.z <= s.initialZ ==>
      Step(s, speed, width, height, r, wave).z <= Step(s, speed, width, height, r, wave).initialZ
  {
  }

  /** The inputs of one frame for one star. */
  datatype FrameInput = FrameInput(speed: real, sample: ResetSample, wave: real)

  predicate ValidInput(f: FrameInput) {
    ValidSample(f.sample) && Wave(f.wave)
  }

  /** A star after one `update()` per frame input, in order. */
  function StepAll(s: AmbientState, width: real, height: real, frames: seq<FrameInput>): AmbientState
    requires width > 0.0 && height > 0.0
    requires forall i :: 0 <= i < |frames| ==> ValidInput(frames[i])
    decreases |frames|
  {
    if frames == [] then s
    else
      var f := frames[0];
      assert ValidInput(f);
      StepAll(Step(s, f.speed, width, height, f.sample, f.wave), width, height, frames[1..])
  }

  /**
   * However many frames pass and whatever the speed setting, a star stays in the field; at
   * non-negative speeds it also stays no farther than its starting depth.
   */
  lemma {:induction false} InFieldForever(s: AmbientState, width: real, height: real, frames: seq<FrameInput>)
    requires width > 0.0 && height > 0.0
    requires forall i :: 0 <= i < |frames| ==> ValidInput(frames[i])
    requires InField(s, width, height)
    ensures InField(StepAll(s, width, height, frames), width, height)
    ensures (forall i :: 0 <= i < |frames| ==> frames[i].speed >= 0.0) && s.z <= s.initialZ ==>
      StepAll(s, width, height, frames).z <= StepAll(s, width, height, frames).initialZ
    decreases |frames|
  {
    if frames != [] {
      var f := frames[0];
      StepKeepsInField(s, f.speed, width, height, f.sample, f.wave);
      InFieldForever(Step(s, f.speed, width, height, f.sample, f.wave), width, height, frames[1..]);
    }
  }

  /** `1 - z / initialZ`: 0 at the starting depth, rising towards 1 as the star nears the camera. */
  function Parallax(z: real, initialZ: real): real
    requires initialZ != 0.0
  {
    1.0 - z / initialZ
  }

  /** The radius `draw()` computes. */
  function AmbientRadius(s: AmbientState, currentScale: real, baseSize: real): real
    requires s.initialZ != 0.0 && currentScale != 0.0
  {
    Parallax(s.z, s.initialZ) * baseSize * (1.0 / currentScale) * s.flickerOffset * 0.5
  }

  /** The alpha `draw()` computes: `min(1, parallax * flicker * 2.5)`. */
  function AmbientAlpha(s: AmbientState): (a: real)
    requires s.initialZ != 0.0
    ensures a <= 1.0
    ensures a == 1.0 || a == Parallax(s.z, s.initialZ) * s.flickerOffset * 2.5
    ensures Parallax(s.z, s.initialZ) * s.flickerOffset * 2.5 < 1.0 ==> a == Parallax(s.z, s.initialZ) * s.flickerOffset * 2.5
  {
    Min(1.0, Parallax(s.z, s.initialZ) * s.flickerOffset * 2.5)
  }

  /**
   * `draw()`: one additive glow (sprite of size `radius * 8`, or a circle when there is no
   * sprite) at the perspective-projected position, or nothing when the radius is at most 0.1.
   */
  function AmbientDraw(s: AmbientState, width: real, currentScale: real, baseSize: real, hasSprite: bool): (ops: seq<DrawOp>)
    requires s.z != 0.0 && s.initialZ != 0.0 && currentScale != 0.0
    ensures ops == [] <==> AmbientRadius(s, currentScale, baseSize) <= 0.1
    ensures |ops| <= 1
    ensures forall op :: op in ops ==> op.alpha <= 1.0
  {
    var k := width / s.z;
    var px := s.x * k;
    var py := s.y * k;
    var radius := AmbientRadius(s, currentScale, baseSize);
    var alpha := AmbientAlpha(s);
    if radius > 0.1 then
      if hasSprite then
        var size := radius * 8.0;
        [DrawSprite(px - size / 2.0, py - size / 2.0, size, alpha)]
      else [FillCircle(px, py, radius, alpha)]
    else []
  }

  /** One ambient star. */
  class AmbientStar {
    const width: real
    const height: real
    const simService: SimulationService
    var x: real
    var y: real
    var z: real
    var initialZ: real
    var flickerOffset: real
    var flickerRate: real

    function State(): AmbientState
      reads this
    {
      AmbientState(x, y, z, initialZ, flickerOffset, flickerRate)
    }

    ghost predicate Valid()
      reads this
    {
      width > 0.0 && height > 0.0 && InField(State(), width, height)
    }

    /**
     * Resets with sample `r`, then draws the flicker brightness from [0.5, 1) and the flicker
     * rate from [0.01, 0.06).
     */
    constructor (width: real, height: real, simService: SimulationService, r: ResetSample, rOffset: real, rRate: real)
      requires width > 0.0 && height > 0.0 && ValidSample(r) && Unit(rOffset) && Unit(rRate)
      ensures Valid() && z == initialZ
      ensures State() == Created(width, height, r, rOffset, rRate)
      ensures this.width == width && this.height == height && this.simService == simService
    {
      this.width := width;
      this.height := height;
      this.simService := simService;
      var z0 := Scaled(r.rz, width);
      x, y, z, initialZ := Centered(r.rx, width), Centered(r.ry, height), z0, z0;
      flickerOffset := rOffset * 0.5 + 0.5;
      flickerRate := rRate * 0.05 + 0.01;
    }

    method Reset(r: ResetSample)
      requires width > 0.0 && height > 0.0 && ValidSample(r)
      modifies this
      ensures Valid() && State() == Resampled(old(State()), width, height, r)
    {
      x := Centered(r.rx, width);
      y := Centered(r.ry, height);
      z := Scaled(r.rz, width);
      initialZ := z;
    }

    method Update(r: ResetSample, wave: real)
      requires Valid() && ValidSample(r) && Wave(wave)
      modifies this
      ensures Valid()
      ensures State() == Step(old(State()), simService.ambientStarSpeed, width, height, r, wave)
    {
      var speed := simService.ambientStarSpeed;
      z := z - speed;
      if z <= 0.0 {
        Reset(r);
      }
      flickerOffset := 0.5 + 0.5 * wave;
    }
  }
}
