/** The value types shared by the whole application (src/app/models/simulation.model.ts). */
module SimulationModel {

  /** The three states of the recording toggle. */
  datatype RecordingState = Idle | Recording | Processing

  /**
   * The five live-tunable parameters. These are the keys the CONTROLS table and the
   * service actually use (`ambientStarSpeed`, where the ControlKey type still says
   * `nonStreakingStarSpeed`).
   */
  datatype ControlKey = ZoomRate | RotationRate | ShootingStarSpeed | AmbientStarSpeed | BaseStarSize

  /** Static UI metadata of one parameter. */
  datatype ControlMetadata = ControlMetadata(
    caption: string,   // the `label` field (a reserved word in Dafny)
    min: real,
    max: real,
    step: real,
    initial: real,
    precision: nat)

  /** A value drawn by `Math.random()`: in [0, 1). */
  predicate Unit(r: real) {
    0.0 <= r < 1.0
  }

  /** A value of `Math.sin(...)`: in [-1, 1]. */
  predicate Wave(w: real) {
    -1.0 <= w <= 1.0
  }

  /** `(r - 0.5) * extent`: a uniform sample centred on 0. */
  function Centered(r: real, extent: real): (v: real)
    requires Unit(r) && extent > 0.0
    ensures -0.5 * extent <= v < 0.5 * extent
  {
    UnitScaled(r, extent);
    (r - 0.5) * extent
  }

  /** `r * extent`: a uniform sample in [0, extent). */
  function Scaled(r: real, extent: real): (v: real)
    requires Unit(r) && extent > 0.0
    ensures 0.0 <= v < extent
  {
    UnitScaled(r, extent);
    r * extent
  }

  lemma UnitScaled(r: real, extent: real)
    requires Unit(r) && extent > 0.0
    ensures 0.0 <= r * extent < extent
  {
    assert (1.0 - r) * extent > 0.0;
  }

  function Min(a: real, b: real): real {
    if a <= b then a else b
  }

  function Max(a: real, b: real): real {
    if a >= b then a else b
  }

  function MinNat(a: nat, b: nat): nat {
    if a <= b then a else b
  }

  /** No element occurs twice. */
  predicate Distinct<T(==)>(s: seq<T>) {
    forall i, j :: 0 <= i < j < |s| ==> s[i] != s[j]
  }

  /** One call into the canvas that puts light on the screen, with the numbers passed to it. */
  datatype DrawOp =
    | DrawSprite(left: real, top: real, size: real, alpha: real)   // drawImage(sprite, left, top, size, size) under globalAlpha
    | FillCircle(cx: real, cy: real, radius: real, alpha: real)    // arc(cx, cy, radius) filled with the given alpha
    | GlowCircle(cx: real, cy: real, radius: real, alpha: real, shadowBlur: real)   // the same, under a white shadow blur

  /**
   * The browser's MediaRecorder as the recording controllers see it: none yet, recording with a
   * MIME type, or asked to stop (state 'inactive') and waiting for its `onstop` event.
   */
  datatype Recorder = NoRecorder | Active(mimeType: string) | Stopping(mimeType: string)
}
