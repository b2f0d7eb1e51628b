/**
 * The particles of the application shell (src/app/app.ts:439-512): one class for both kinds of
 * star, told apart by `isStreaking`. Every star moves and resets; only the non-streaking ones
 * flicker and are drawn.
 */
module AppStarModel {
  import opened SimulationModel
  import opened WindowGlobalsModule
  import AmbientStarModel

  const AMBIENT_STAR_GLOW_MULTIPLIER: real := 1.0
  /** The smallest radius a drawn star gets. */
  const MIN_RADIUS: real := 1.5
  /** The smallest opacity factor a drawn star gets, before the flicker. */
  const MIN_OPACITY: real := 0.3

  /** The fields of one star; `colorAlpha` is the alpha written into its (never read) colour string. */
  datatype StarState = StarState(
    x: real, y: real, z: real, initialZ: real, colorAlpha: real, flickerOffset: real, flickerRate: real)

  /** The four `Math.random()` answers one `reset()` consumes. */
  datatype StarSample = StarSample(rx: real, ry: real, rz: real, rColor: real)

  predicate ValidStarSample(r: StarSample) {
    Unit(r.rx) && Unit(r.ry) && Unit(r.rz) && Unit(r.rColor)
  }

  /**
   * Where a star always is: laterally inside the canvas it was made for, with a starting depth in
   * [0, width), a depth never negative, a colour alpha in [0.5, 1) and a flicker brightness in [0, 1].
   */
  predicate InField(s: StarState, width: real, height: real) {
    && -width / 2.0 <= s.x < width / 2.0
    && -height / 2.0 <= s.y < height / 2.0
    && 0.0 <= s.initialZ < width
    && 0.0 <= s.z
    && 0.5 <= s.colorAlpha < 1.0
    && 0.0 <= s.flickerOffset <= 1.0
  }

  /** `reset()`: fresh position, depth (also the new starting depth) and colour alpha. */
  function Redrawn(s: StarState, width: real, height: real, r: StarSample): (t: StarState)
    requires width > 0.0 && height > 0.0 && ValidStarSample(r)
    ensures -width / 2.0 <= t.x < width / 2.0 && -height / 2.0 <= t.y < height / 2.0
    ensures 0.0 <= t.z < width && t.initialZ == t.z
    ensures 0.5 <= t.colorAlpha < 1.0
    ensures t.flickerOffset == s.flickerOffset && t.flickerRate == s.flickerRate
  {
    var z := Scaled(r.rz, width);
    s.(x := Centered(r.rx, width), y := Centered(r.ry, height), z := z, initialZ := z,
       colorAlpha := r.rColor * 0.5 + 0.5)
  }

  /**
   * A new star: reset with sample `r`, then given a flicker brightness in [0.5, 1) and a flicker
   * rate in [0.01, 0.06).
   */
  function Created(width: real, height: real, r: StarSample, rOffset: real, rRate: real): (t: StarState)
    requires width > 0.0 && height > 0.0 && ValidStarSample(r) && Unit(rOffset) && Unit(rRate)
    ensures InField(t, width, height) && t.z == t.initialZ
    ensures 0.5 <= t.flickerOffset < 1.0 && 0.01 <= t.flickerRate < 0.06
  {
    Redrawn(StarState(0.0, 0.0, 0.0, 0.0, 0.0, rOffset * 0.5 + 0.5, rRate * 0.05 + 0.01), width, height, r)
  }

  /** The speed global a star reads: the streaking one or the non-streaking one. */
  function Speed(isStreaking: bool, streakingSpeed: real, nonStreakingSpeed: real): real {
    if isStreaking then streakingSpeed else nonStreakingSpeed
  }

  /**
   * `update()`: the star moves nearer by its kind's speed, is reset exactly when that leaves it at
   * or behind the camera plane, and, only when it is non-streaking, takes the new flicker brightness.
   */
  function StarStep(s: StarState, isStreaking: bool, streakingSpeed: real, nonStreakingSpeed: real,
                    width: real, height: real, r: StarSample, wave: real): (t: StarState)
    requires width > 0.0 && height > 0.0 && ValidStarSample(r) && Wave(wave)
    ensures var speed := Speed(isStreaking, streakingSpeed, nonStreakingSpeed);
      && (s.z - speed > 0.0 ==>
            t.x == s.x && t.y == s.y && t.z == s.z - speed && t.initialZ == s.initialZ && t.colorAlpha == s.colorAlpha)
      && (s.z - speed <= 0.0 && isStreaking ==> t == Redrawn(s, width, height, r))
      && (s.z - speed <= 0.0 && !isStreaking ==>
            t == Redrawn(s, width, height, r).(flickerOffset := AmbientStarModel.FlickerOffset(wave)))
    ensures isStreaking ==> t.flickerOffset == s.flickerOffset
    ensures !isStreaking ==> t.flickerOffset == AmbientStarModel.FlickerOffset(wave)
    ensures t.flickerRate == s.flickerRate
  {
    var moved := s.(z := s.z - Speed(isStreaking, streakingSpeed, nonStreakingSpeed));
    var placed := if moved.z <= 0.0 then Redrawn(moved, width, height, r) else moved;
    if isStreaking then placed else placed.(flickerOffset := AmbientStarModel.FlickerOffset(wave))
  }

  /** One frame keeps a star in the field, whatever the speed globals hold. */
  lemma StarStepKeepsInField(s: StarState, isStreaking: bool, streakingSpeed: real, nonStreakingSpeed: real,
                             width: real, height: real, r: StarSample, wave: real)
    requires width > 0.0 && height > 0.0 && ValidStarSample(r) && Wave(wave)
    requires InField(s, width, height)
    ensures InField(StarStep(s, isStreaking, streakingSpeed, nonStreakingSpeed, width, height, r, wave), width, height)
  {
  }

  /** The inputs of one frame for one star: the two speed globals, a reset sample and a sine value. */
  datatype StarFrame = StarFrame(streakingSpeed: real, nonStreakingSpeed: real, sample: StarSample, wave: real)

  predicate ValidStarFrame(f: StarFrame) {
    ValidStarSample(f.sample) && Wave(f.wave)
  }

  /** A star after one `update()` per frame, in order. */
  function StarStepAll(s: StarState, isStreaking: bool, width: real, height: real, frames: seq<StarFrame>): StarState
    requires width > 0.0 && height > 0.0
    requires forall i :: 0 <= i < |frames| ==> ValidStarFrame(frames[i])
    decreases |frames|
  {
    if frames == [] then s
    else
      var f := frames[0];
      assert ValidStarFrame(f);
      StarStepAll(StarStep(s, isStreaking, f.streakingSpeed, f.nonStreakingSpeed, width, height, f.sample, f.wave),
                  isStreaking, width, height, frames[1..])
  }

  /**
   * Over any run of frames a star stays in the field, keeps its flicker rate, and a streaking
   * star keeps its flicker brightness: it never flickers.
   */
  lemma {:induction false} StarStaysInFieldForever(s: StarState, isStreaking: bool, width: real, height: real, frames: seq<StarFrame>)
    requires width > 0.0 && height > 0.0
    requires forall i :: 0 <= i < |frames| ==> ValidStarFrame(frames[i])
    requires InField(s, width, height)
    ensures InField(StarStepAll(s, isStreaking, width, height, frames), width, height)
    ensures StarStepAll(s, isStreaking, width, height, frames).flickerRate == s.flickerRate
    ensures isStreaking ==> StarStepAll(s, isStreaking, width, height, frames).flickerOffset == s.flickerOffset
    decreases |frames|
  {
    if frames != [] {
      var f := frames[0];
      StarStepKeepsInField(s, isStreaking, f.streakingSpeed, f.nonStreakingSpeed, width, height, f.sample, f.wave);
      StarStaysInFieldForever(
        StarStep(s, isStreaking, f.streakingSpeed, f.nonStreakingSpeed, width, height, f.sample, f.wave),
        isStreaking, width, height, frames[1..]);
    }
  }

  /** The radius `draw()` uses: the perspective size, but never below MIN_RADIUS. */
  function StarRadius(s: StarState, currentScale: real, baseSize: real): (radius: real)
    requires s.initialZ != 0.0 && currentScale != 0.0
    ensures radius >= MIN_RADIUS
    ensures radius == MIN_RADIUS || radius == AmbientStarModel.Parallax(s.z, s.initialZ) * baseSize * (1.0 / currentScale) * s.flickerOffset * 0.5
  {
    Max(MIN_RADIUS, AmbientStarModel.Parallax(s.z, s.initialZ) * baseSize * (1.0 / currentScale) * s.flickerOffset * 0.5)
  }

  /** The alpha `draw()` uses: the parallax floored at MIN_OPACITY, times the flicker brightness. */
  function StarAlpha(s: StarState): real
    requires s.initialZ != 0.0
  {
    Max(MIN_OPACITY, AmbientStarModel.Parallax(s.z, s.initialZ)) * s.flickerOffset
  }

  /** A star in the field is drawn with an alpha in [0, 1], at least MIN_OPACITY times its flicker. */
  lemma StarAlphaBounded(s: StarState, width: real, height: real)
    requires InField(s, width, height) && s.initialZ != 0.0
    ensures MIN_OPACITY * s.flickerOffset <= StarAlpha(s)
    ensures StarAlpha(s) <= s.flickerOffset <= 1.0
    ensures 0.0 <= StarAlpha(s)
  {
    var p := AmbientStarModel.Parallax(s.z, s.initialZ);
    assert s.z / s.initialZ >= 0.0;
    var m := Max(MIN_OPACITY, p);
    var f := s.flickerOffset;
    var a := StarAlpha(s);
    assert a == m * f;
    assert 0.3 <= m <= 1.0 && 0.0 <= f <= 1.0;
    assert (1.0 - m) * f >= 0.0;
    assert (m - 0.3) * f >= 0.0 by {
      if f > 0.0 && m > 0.3 {
        assert (m - 0.3) * f > 0.0;
      }
    }
    assert a - 0.3 * f == (m - 0.3) * f;
  }

  /**
   * `draw()`: a streaking star draws nothing; a non-streaking one draws exactly one glowing circle
   * at the perspective-projected position, never smaller than MIN_RADIUS (so the `radius > 0.1`
   * test always passes), with the shadow blur compensated for the zoom.
   */
  function StarDraw(s: StarState, isStreaking: bool, width: real, currentScale: real, baseSize: real): (ops: seq<DrawOp>)
    requires s.z != 0.0 && s.initialZ != 0.0 && currentScale != 0.0
    ensures isStreaking ==> ops == []
    ensures !isStreaking ==>
      && |ops| == 1 && ops[0].GlowCircle?
      && ops[0].radius >= MIN_RADIUS && ops[0].alpha == StarAlpha(s)
      && ops[0].shadowBlur == AMBIENT_STAR_GLOW_MULTIPLIER / currentScale
  {
    var k := width / s.z;
    var px := s.x * k;
    var py := s.y * k;
    var scaleCompensation := 1.0 / currentScale;
    if isStreaking then []
    else
      var radius := StarRadius(s, currentScale, baseSize);
      if radius > 0.1 then [GlowCircle(px, py, radius, StarAlpha(s), AMBIENT_STAR_GLOW_MULTIPLIER * scaleCompensation)]
      else []
  }

  /** One star of the application shell. */
  class Star {
    const isStreaking: bool
    const width: real
    const height: real
    const globals: WindowGlobals
    var x: real
    var y: real
    var z: real
    var initialZ: real
    var colorAlpha: real
    var flickerOffset: real
    var flickerRate: real

    function State(): StarState
      reads this
    {
      StarState(x, y, z, initialZ, colorAlpha, flickerOffset, flickerRate)
    }

    ghost predicate Valid()
      reads this
    {
      width > 0.0 && height > 0.0 && InField(State(), width, height)
    }

    /**
     * Resets with sample `r`, then draws the flicker brightness from [0.5, 1) and the flicker
     * rate from [0.01, 0.06).
     */
    constructor (isStreaking: bool, width: real, height: real, globals: WindowGlobals, r: StarSample, rOffset: real, rRate: real)
      requires width > 0.0 && height > 0.0 && ValidStarSample(r) && Unit(rOffset) && Unit(rRate)
      ensures Valid() && z == initialZ
      ensures State() == Created(width, height, r, rOffset, rRate)
      ensures this.isStreaking == isStreaking && this.width == width && this.height == height && this.globals == globals
    {
      this.isStreaking := isStreaking;
      this.width := width;
      this.height := height;
      this.globals := globals;
      var z0 := Scaled(r.rz, width);
      x, y, z, initialZ := Centered(r.rx, width), Centered(r.ry, height), z0, z0;
      colorAlpha := r.rColor * 0.5 + 0.5;
      flickerOffset := rOffset * 0.5 + 0.5;
      flickerRate := rRate * 0.05 + 0.01;
    }

    /** The state one `update()` with sample `r` and sine value `wave` leads to, at the current speed settings. */
    function Next(r: StarSample, wave: real): StarState
      requires Valid() && ValidStarSample(r) && Wave(wave)
      reads this, globals
    {
      StarStep(State(), isStreaking, globals.streakingStarSpeed, globals.nonStreakingStarSpeed, width, height, r, wave)
    }

    method Reset(r: StarSample)
      requires width > 0.0 && height > 0.0 && ValidStarSample(r)
      modifies this
      ensures State() == Redrawn(old(State()), width, height, r)
    {
      x := Centered(r.rx, width);
      y := Centered(r.ry, height);
      z := Scaled(r.rz, width);
      initialZ := z;
      colorAlpha := r.rColor * 0.5 + 0.5;
    }

    method Update(r: StarSample, wave: real)
      requires Valid() && ValidStarSample(r) && Wave(wave)
      modifies this
      ensures Valid()
      ensures State() == StarStep(old(State()), isStreaking, globals.streakingStarSpeed, globals.nonStreakingStarSpeed, width, height, r, wave)
    {
      var speed := if isStreaking then globals.streakingStarSpeed else globals.nonStreakingStarSpeed;
      z := z - speed;
      if z <= 0.0 {
        Reset(r);
      }
      if !isStreaking {
        flickerOffset := 0.5 + 0.5 * wave;
      }
    }
  }
}
