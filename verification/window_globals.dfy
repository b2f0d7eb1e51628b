/**
 * The five scene parameters of the application shell, kept as globals on `window`
 * (src/app/app.ts:27-31) and bound to the slider controls by `setupControls` (src/app/app.ts:211-253).
 */
module WindowGlobalsModule {
  import opened SimulationModel
  import opened Strings
  import opened SimulationConstants

  /** The five globals, in the order `setupControls` lists them. */
  datatype GlobalName = ZOOM_RATE | ROTATION_RATE | STREAKING_STAR_SPEED | NON_STREAKING_STAR_SPEED | BASE_STAR_SIZE

  /** The property name under which the value lives on `window`. */
  function VarName(g: GlobalName): string {
    match g
    case ZOOM_RATE => "ZOOM_RATE"
    case ROTATION_RATE => "ROTATION_RATE"
    case STREAKING_STAR_SPEED => "STREAKING_STAR_SPEED"
    case NON_STREAKING_STAR_SPEED => "NON_STREAKING_STAR_SPEED"
    case BASE_STAR_SIZE => "BASE_STAR_SIZE"
  }

  /** The decimals a slider display shows: 4 when the name includes "RATE", otherwise 1. */
  function DisplayPrecision(g: GlobalName): nat {
    if Contains(VarName(g), "RATE") then 4
    else if VarName(g) == "BASE_STAR_SIZE" then 1
    else 1
  }

  /**
   * Exactly the two rate globals are shown with four decimals; and each global is shown with
   * the precision the CONTROLS table gives its counterpart in the store.
   */
  lemma PrecisionFollowsName(g: GlobalName)
    ensures DisplayPrecision(g) == 4 <==> g == ZOOM_RATE || g == ROTATION_RATE
    ensures DisplayPrecision(g) == 1 <==> !(g == ZOOM_RATE || g == ROTATION_RATE)
    ensures DisplayPrecision(g) == Metadata(Counterpart(g)).precision
  {
    if g == ZOOM_RATE || g == ROTATION_RATE {
      RateNameHasRate(g);
    } else {
      OtherNameLacksRate(g);
    }
  }

  /** The names of the two rate globals include "RATE". */
  lemma RateNameHasRate(g: GlobalName)
    requires g == ZOOM_RATE || g == ROTATION_RATE
    ensures Contains(VarName(g), "RATE")
  {
    var s := VarName(g);
    if g == ZOOM_RATE {
      assert s[5] == 'R' && s[6] == 'A' && s[7] == 'T' && s[8] == 'E';
      assert s[5..9] == "RATE";
      assert OccursAt(s, "RATE", 5);
    } else {
      assert s[9] == 'R' && s[10] == 'A' && s[11] == 'T' && s[12] == 'E';
      assert s[9..13] == "RATE";
      assert OccursAt(s, "RATE", 9);
    }
  }

  /** No other global's name includes "RATE". */
  lemma OtherNameLacksRate(g: GlobalName)
    requires !(g == ZOOM_RATE || g == ROTATION_RATE)
    ensures !Contains(VarName(g), "RATE")
  {
    match g
    case STREAKING_STAR_SPEED => NoRateWithoutRA(VarName(g));
    case NON_STREAKING_STAR_SPEED => NoRateWithoutRA(VarName(g));
    case BASE_STAR_SIZE => NoRateWithoutRA(VarName(g));
  }

  /** A name in which no 'R' comes right before an 'A' does not include "RATE". */
  lemma NoRateWithoutRA(s: string)
    requires forall i :: 0 <= i < |s| - 1 ==> !(s[i] == 'R' && s[i + 1] == 'A')
    ensures !Contains(s, "RATE")
  {
    forall i: nat | i + 4 <= |s|
      ensures !OccursAt(s, "RATE", i)
    {
      assert s[i..i + 4][0] == s[i] && s[i..i + 4][1] == s[i + 1];
    }
  }

  /** The store parameter that plays the same part in the simulator component. */
  function Counterpart(g: GlobalName): ControlKey {
    match g
    case ZOOM_RATE => ZoomRate
    case ROTATION_RATE => RotationRate
    case STREAKING_STAR_SPEED => ShootingStarSpeed
    case NON_STREAKING_STAR_SPEED => AmbientStarSpeed
    case BASE_STAR_SIZE => BaseStarSize
  }

  /** The `window` object's five scene globals. */
  class WindowGlobals {
    var zoomRate: real
    var rotationRate: real
    var streakingStarSpeed: real
    var nonStreakingStarSpeed: real
    var baseStarSize: real

    function Get(g: GlobalName): real
      reads this
    {
      match g
      case ZOOM_RATE => zoomRate
      case ROTATION_RATE => rotationRate
      case STREAKING_STAR_SPEED => streakingStarSpeed
      case NON_STREAKING_STAR_SPEED => nonStreakingStarSpeed
      case BASE_STAR_SIZE => baseStarSize
    }

    /** The values the module assigns when it loads. */
    constructor ()
      ensures Get(ZOOM_RATE) == 0.0009 && Get(ROTATION_RATE) == 0.0003
      ensures Get(STREAKING_STAR_SPEED) == 1.0 && Get(NON_STREAKING_STAR_SPEED) == 1.0
      ensures Get(BASE_STAR_SIZE) == 35.0
    {
      zoomRate := 0.0009;
      rotationRate := 0.0003;
      streakingStarSpeed := 1.0;
      nonStreakingStarSpeed := 1.0;
      baseStarSize := 35.0;
    }

    /**
     * A slider's input handler: the parsed value replaces one global and no other, whatever the
     * value (the handler does no range check of its own).
     */
    method Set(g: GlobalName, value: real)
      modifies this
      ensures Get(g) == value
      ensures forall h :: h != g ==> Get(h) == old(Get(h))
    {
      match g
      case ZOOM_RATE => zoomRate := value;
      case ROTATION_RATE => rotationRate := value;
      case STREAKING_STAR_SPEED => streakingStarSpeed := value;
      case NON_STREAKING_STAR_SPEED => nonStreakingStarSpeed := value;
      case BASE_STAR_SIZE => baseStarSize := value;
    }
  }
}
