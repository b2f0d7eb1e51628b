/** The shared parameter store (src/app/services/simulation.service.ts). */
module SimulationServiceModule {
  import opened SimulationModel
  import opened SimulationConstants

  /**
   * The injectable service: one writable cell per parameter, plus the recording state and the
   * loading-progress text. Values are stored as given: nothing is clamped to the metadata bounds.
   */
  class SimulationService {
    var zoomRate: real
    var rotationRate: real
    var shootingStarSpeed: real
    var ambientStarSpeed: real
    var baseStarSize: real
    var recordingState: RecordingState
    var loadingProgress: string

    /** The current value of the cell for `k` (`controls[k]()`). */
    function Control(k: ControlKey): real
      reads this
    {
      match k
      case ZoomRate => zoomRate
      case RotationRate => rotationRate
      case ShootingStarSpeed => shootingStarSpeed
      case AmbientStarSpeed => ambientStarSpeed
      case BaseStarSize => baseStarSize
    }

    /** Every cell starts at its table's initial value; recording is idle. */
    constructor ()
      ensures forall k :: Control(k) == Metadata(k).initial
      ensures recordingState == Idle && loadingProgress == "Initializing..."
    {
      zoomRate := CONTROLS[ZoomRate].initial;
      rotationRate := CONTROLS[RotationRate].initial;
      shootingStarSpeed := CONTROLS[ShootingStarSpeed].initial;
      ambientStarSpeed := CONTROLS[AmbientStarSpeed].initial;
      baseStarSize := CONTROLS[BaseStarSize].initial;
      recordingState := Idle;
      loadingProgress := "Initializing...";
    }

    /**
     * A plain read. It changes nothing (no modifies clause), so two reads with no update in
     * between return the same value.
     */
    method GetControlValue(k: ControlKey) returns (v: real)
      ensures v == Control(k)
    {
      v := Control(k);
    }

    /** Overwrites one cell with `value`, without clamping; every other cell and state is kept. */
    method UpdateControl(k: ControlKey, value: real)
      modifies this
      ensures Control(k) == value
      ensures forall k' :: k' != k ==> Control(k') == old(Control(k'))
      ensures recordingState == old(recordingState) && loadingProgress == old(loadingProgress)
    {
      match k
      case ZoomRate => zoomRate := value;
      case RotationRate => rotationRate := value;
      case ShootingStarSpeed => shootingStarSpeed := value;
      case AmbientStarSpeed => ambientStarSpeed := value;
      case BaseStarSize => baseStarSize := value;
    }
  }

  /** Reading a cell twice with no update in between gives the same value both times. */
  method ReadTwice(service: SimulationService, k: ControlKey) returns (first: real, second: real)
    ensures first == second == service.Control(k)
  {
    first := service.GetControlValue(k);
    second := service.GetControlValue(k);
  }
}
