/** The CONTROLS metadata table (src/app/constants/simulation.constant.ts). */
module SimulationConstants {
  import opened SimulationModel

  /** Label, UI bounds, step, initial value and display precision of every parameter. */
  const CONTROLS: map<ControlKey, ControlMetadata> := map[
    ZoomRate := ControlMetadata("Galaxy Zoom Rate", 0.0001, 0.01, 0.0001, 0.0002, 4),
    RotationRate := ControlMetadata("Scene Rotation Rate", 0.0001, 0.005, 0.0001, 0.0001, 4),
    ShootingStarSpeed := ControlMetadata("Shooting Star Speed", 0.0, 10.0, 0.1, 0.7, 1),
    AmbientStarSpeed := ControlMetadata("Ambient Star Speed", 0.1, 5.0, 0.1, 0.8, 1),
    BaseStarSize := ControlMetadata("Base Star Size Multiplier", 1.0, 100.0, 0.5, 10.0, 1)
  ]

  /** `Object.keys(CONTROLS)`: the keys in declaration order, as the control panel lists them. */
  const CONTROL_NAMES: seq<ControlKey> := [ZoomRate, RotationRate, ShootingStarSpeed, AmbientStarSpeed, BaseStarSize]

  /** The table is total: every key has its entry, and that entry is well formed. */
  function Metadata(k: ControlKey): (m: ControlMetadata)
    ensures k in CONTROLS && m == CONTROLS[k]
    ensures m.min <= m.initial <= m.max
    ensures m.min < m.max && m.step > 0.0
    ensures m.precision == (if k == ZoomRate || k == RotationRate then 4 else 1)
  {
    KeyInTable(k);
    CONTROLS[k]
  }

  lemma KeyInTable(k: ControlKey)
    ensures k in CONTROLS && k in CONTROL_NAMES
  {
    match k
    case ZoomRate => assert CONTROL_NAMES[0] == k;
    case RotationRate => assert CONTROL_NAMES[1] == k;
    case ShootingStarSpeed => assert CONTROL_NAMES[2] == k;
    case AmbientStarSpeed => assert CONTROL_NAMES[3] == k;
    case BaseStarSize => assert CONTROL_NAMES[4] == k;
  }

  /** The table holds exactly the five keys. */
  lemma ControlTableShape()
    ensures forall k: ControlKey :: k in CONTROLS
    ensures |CONTROLS| == 5
  {
    forall k: ControlKey
      ensures k in CONTROLS
    {
      KeyInTable(k);
    }
    assert CONTROLS.Keys == {ZoomRate, RotationRate, ShootingStarSpeed, AmbientStarSpeed, BaseStarSize};
  }

  /** The control panel lists each of the five keys exactly once. */
  lemma ControlNamesListEachKeyOnce()
    ensures |CONTROL_NAMES| == 5
    ensures forall k: ControlKey :: k in CONTROL_NAMES
    ensures forall i, j :: 0 <= i < j < |CONTROL_NAMES| ==> CONTROL_NAMES[i] != CONTROL_NAMES[j]
  {
    forall k: ControlKey
      ensures k in CONTROL_NAMES
    {
      KeyInTable(k);
    }
  }
}
