/** The control panel component (src/app/components/control-panel/control-panel.ts). */
module ControlPanelComponent {
  import opened SimulationModel
  import opened Strings
  import opened SimulationServiceModule

  /** The transition `toggleRecording` applies: idle and recording swap, processing stays. */
  function ToggledState(s: RecordingState): (r: RecordingState)
    ensures r == Processing <==> s == Processing
  {
    match s
    case Idle => Recording
    case Recording => Idle
    case Processing => Processing
  }

  /** Toggling twice from idle or from recording comes back to where it started. */
  lemma ToggleTwiceReturns(s: RecordingState)
    requires s != Processing
    ensures ToggledState(ToggledState(s)) == s
    ensures ToggledState(s) != s
  {
  }

  /** Processing is the one fixed point of the toggle. */
  lemma ToggleFixedPoint(s: RecordingState)
    ensures ToggledState(s) == s <==> s == Processing
  {
  }

  /** The `buttonText` getter, as a function of the state. */
  function ButtonText(s: RecordingState): string {
    match s
    case Recording => "Recording... (30s max)"
    case Processing => "Processing..."
    case Idle => "Start Recording (Max 30s)"
  }

  /** The utility class that styles the button as not clickable. */
  const NOT_ALLOWED_CLASS: string := "cursor-not-allowed"

  /** The `buttonClass` getter, as a function of the state. */
  function ButtonClass(s: RecordingState): string {
    match s
    case Recording => "bg-red-600 animate-pulse"
    case Processing => "bg-gray-600 " + NOT_ALLOWED_CLASS + " opacity-50"
    case Idle => "bg-neon-pink/10 hover:bg-neon-pink/20"
  }

  /** The three states have three different labels. */
  lemma ButtonTextDistinct(s: RecordingState, t: RecordingState)
    ensures ButtonText(s) == ButtonText(t) <==> s == t
  {
  }

  /** Only the processing state is styled as not clickable. */
  lemma ButtonClassNotAllowedOnlyWhenProcessing(s: RecordingState)
    ensures Contains(ButtonClass(s), NOT_ALLOWED_CLASS) <==> s == Processing
  {
    match s
    case Recording =>
      NotContainsIfAbsent(ButtonClass(s), NOT_ALLOWED_CLASS, 0);
    case Idle =>
      NotContainsIfAbsent(ButtonClass(s), NOT_ALLOWED_CLASS, 0);
    case Processing =>
      ContainsMiddle("bg-gray-600 ", NOT_ALLOWED_CLASS, " opacity-50");
  }

  /** The panel: it owns no state of its own and forwards to the shared service. */
  class ControlPanel {
    const simService: SimulationService

    constructor (simService: SimulationService)
      ensures this.simService == simService
    {
      this.simService := simService;
    }

    /** Forwards the parsed input value to the store. */
    method UpdateControl(k: ControlKey, value: real)
      modifies simService
      ensures simService.Control(k) == value
      ensures forall k' :: k' != k ==> simService.Control(k') == old(simService.Control(k'))
      ensures simService.recordingState == old(simService.recordingState)
      ensures simService.loadingProgress == old(simService.loadingProgress)
    {
      simService.UpdateControl(k, value);
    }

    /** Reads one parameter from the store. */
    method GetControl(k: ControlKey) returns (v: real)
      ensures v == simService.Control(k)
    {
      v := simService.GetControlValue(k);
    }

    /** Flips idle and recording; leaves processing alone; touches no parameter. */
    method ToggleRecording()
      modifies simService
      ensures simService.recordingState == ToggledState(old(simService.recordingState))
      ensures forall k :: simService.Control(k) == old(simService.Control(k))
      ensures simService.loadingProgress == old(simService.loadingProgress)
    {
      var currentState := simService.recordingState;
      if currentState == Idle {
        simService.recordingState := Recording;
      } else if currentState == Recording {
        simService.recordingState := Idle;
      }
    }
  }
}
