/**
 * The application shell (src/app/app.ts:17-437): one pool of stars of two kinds driven by the
 * `window` globals, the same-frame sawtooth zoom, the batched population build, the two-asset
 * loading counter and the recording button's flag logic.
 */
module AppComponent {
  import opened SimulationModel
  import opened Strings
  import opened WindowGlobalsModule
  import opened AppStarModel

  const TARGET_SCALE: real := 8.0
  const NUM_STREAKING_STARS: nat := 500
  const NUM_NON_STREAKING_STARS: nat := 1000
  const TOTAL_STAR_COUNT: nat := NUM_STREAKING_STARS + NUM_NON_STREAKING_STARS
  const BATCH_SIZE: nat := 50
  const MAX_RECORDING_SECONDS: nat := 15
  /** The galaxy image and the star sprite. */
  const ASSETS_TO_LOAD: nat := 2

  // ---------------------------------------------------------------- camera

  /**
   * The zoom half of a frame: below the target the scale grows by `zoomRate`, and a scale that
   * reaches or passes the target snaps back to 1.0 in the same frame, so the target itself is
   * never shown.
   */
  function ScaleStep(scale: real, zoomRate: real): (r: real)
    ensures r < TARGET_SCALE
    ensures scale < TARGET_SCALE && scale + zoomRate < TARGET_SCALE ==> r == scale + zoomRate
    ensures scale >= TARGET_SCALE || scale + zoomRate >= TARGET_SCALE ==> r == 1.0
  {
    var grown := if scale < TARGET_SCALE then scale + zoomRate else scale;
    if grown >= TARGET_SCALE then 1.0 else grown
  }

  /** The scale after `n` frames at a fixed zoom rate. */
  function ScaleAfter(n: nat, scale: real, zoomRate: real): real
  {
    if n == 0 then scale else ScaleStep(ScaleAfter(n - 1, scale, zoomRate), zoomRate)
  }

  /** From 1.0 the scale climbs linearly for as long as the climb stays below the target. */
  lemma {:induction false} ScaleRamp(n: nat, zoomRate: real)
    requires zoomRate >= 0.0
    requires 1.0 + (n as real) * zoomRate < TARGET_SCALE
    ensures ScaleAfter(n, 1.0, zoomRate) == 1.0 + (n as real) * zoomRate
  {
    if n > 0 {
      var before := 1.0 + ((n - 1) as real) * zoomRate;
      assert (n as real) * zoomRate == ((n - 1) as real) * zoomRate + zoomRate;
      assert before + zoomRate < TARGET_SCALE;
      ScaleRamp(n - 1, zoomRate);
      var prev := ScaleAfter(n - 1, 1.0, zoomRate);
      assert ScaleAfter(n, 1.0, zoomRate) == ScaleStep(prev, zoomRate);
      assert prev == before;
    }
  }

  /** With a non-negative zoom rate the scale stays within [1.0, TARGET_SCALE) forever. */
  lemma {:induction false} ScaleBounded(n: nat, zoomRate: real)
    requires zoomRate >= 0.0
    ensures 1.0 <= ScaleAfter(n, 1.0, zoomRate) < TARGET_SCALE
  {
    if n > 0 {
      ScaleBounded(n - 1, zoomRate);
    }
  }

  /**
   * At the default zoom rate 0.0009 the scale climbs for 7777 frames to 7.9993, and the frame
   * that would take it to 8.0002 shows 1.0 instead.
   */
  lemma SawtoothPeriod()
    ensures ScaleAfter(7777, 1.0, 0.0009) == 7.9993
    ensures ScaleAfter(7778, 1.0, 0.0009) == 1.0
  {
    ScaleRamp(7777, 0.0009);
  }

  // ------------------------------------------------------ population build

  /** The whole percentage of stars generated so far. */
  function ProgressPercent(generated: nat): nat {
    generated * 100 / TOTAL_STAR_COUNT
  }

  /** The progress text a batch shows. */
  function ProgressText(generated: nat): string {
    "Generating Stars: " + Decimal(ProgressPercent(generated)) + "%"
  }

  /** The percentage never exceeds 100 and is 100 exactly once every star exists. */
  lemma ProgressCompleteOnlyAtEnd(generated: nat)
    requires generated <= TOTAL_STAR_COUNT
    ensures ProgressPercent(generated) <= 100
    ensures ProgressPercent(generated) == 100 <==> generated == TOTAL_STAR_COUNT
  {
    if generated < TOTAL_STAR_COUNT {
      assert generated * 100 < TOTAL_STAR_COUNT * 100;
    }
  }

  /** Once every star exists the text reads "Generating Stars: 100%". */
  lemma ProgressTextAtEnd()
    ensures ProgressText(TOTAL_STAR_COUNT) == "Generating Stars: 100%"
  {
    assert Decimal(100) == "100" by {
      assert Decimal(10) == "10";
    }
  }

  /** The inputs one new star draws from `Math.random()`. */
  datatype StarSeed = StarSeed(reset: StarSample, rOffset: real, rRate: real)

  predicate ValidSeed(s: StarSeed) {
    ValidStarSample(s.reset) && Unit(s.rOffset) && Unit(s.rRate)
  }

  // ---------------------------------------------------------- asset counter

  /** The four events the two images can raise. */
  datatype AssetEvent = GalaxyLoaded | GalaxyFailed | SpriteLoaded | SpriteFailed

  function AssetName(e: AssetEvent): string {
    match e
    case GalaxyLoaded => "Galaxy"
    case GalaxyFailed => "Galaxy (Failed)"
    case SpriteLoaded => "Star Sprite"
    case SpriteFailed => "Star Sprite (Failed)"
  }

  /** The progress text after an asset event: the asset's name and the count of settled assets. */
  function AssetText(name: string, loaded: nat): string {
    "Loading Assets: " + name + " complete (" + Decimal(loaded) + "/" + Decimal(ASSETS_TO_LOAD) + ")"
  }

  /** The count in the progress text is the number of settled assets, out of two. */
  lemma AssetTextCounts(name: string, loaded: nat)
    requires 1 <= loaded <= ASSETS_TO_LOAD
    ensures AssetText(name, loaded) ==
      "Loading Assets: " + name + " complete (" + (if loaded == 1 then "1" else "2") + "/2)"
  {
  }

  // -------------------------------------------------------------- recording

  /**
   * What the record button shows: the page's own markup until a state is first applied, then
   * one of the four looks `updateRecordButton` and `startRecording` give it.
   */
  datatype RecordButton = Untouched | ButtonIdle | ButtonRecording | ButtonProcessing | ButtonUnsupported

  function ButtonLabel(b: RecordButton): string
    requires b != Untouched
  {
    match b
    case ButtonIdle => "Start Recording (Max " + Decimal(MAX_RECORDING_SECONDS) + "s)"
    case ButtonRecording => "Recording... (" + Decimal(MAX_RECORDING_SECONDS) + "s max)"
    case ButtonProcessing => "Processing Video..."
    case ButtonUnsupported => "Recording Not Supported"
  }

  predicate ButtonDisabled(b: RecordButton)
    requires b != Untouched
  {
    b == ButtonProcessing || b == ButtonUnsupported
  }

  /**
   * The four looks have four different texts, and the button is disabled exactly while a video
   * is processed or when recording is unsupported.
   */
  lemma ButtonLooksDistinct(a: RecordButton, b: RecordButton)
    requires a != Untouched && b != Untouched
    ensures ButtonLabel(a) == ButtonLabel(b) <==> a == b
    ensures !ButtonDisabled(a) <==> a == ButtonIdle || a == ButtonRecording
  {
    if a != b {
      assert ButtonLabel(a)[0] != ButtonLabel(b)[0] || |ButtonLabel(a)| != |ButtonLabel(b)|;
    }
  }

  /**
   * The MIME preference of `startRecording`: mp4, then webm with vp9, then webm with vp8, else
   * plain webm, given the `MediaRecorder.isTypeSupported` answers.
   */
  function MimeType(mp4Supported: bool, vp9Supported: bool, vp8Supported: bool): string {
    if mp4Supported then "video/mp4"
    else if vp9Supported then "video/webm; codecs=vp9"
    else if vp8Supported then "video/webm; codecs=vp8"
    else "video/webm"
  }

  /** The download name: `galaxy-approach-simulation` with `.mp4` when the MIME type mentions mp4, else `.webm`. */
  function DownloadName(mimeType: string): string {
    "galaxy-approach-simulation" + if Contains(mimeType, "mp4") then ".mp4" else ".webm"
  }

  /** The file is an `.mp4` exactly when mp4 is supported; every fallback yields a `.webm`. */
  lemma DownloadNameFollowsSupport(mp4Supported: bool, vp9Supported: bool, vp8Supported: bool)
    ensures Contains(MimeType(mp4Supported, vp9Supported, vp8Supported), "mp4") <==> mp4Supported
    ensures DownloadName(MimeType(mp4Supported, vp9Supported, vp8Supported)) ==
      if mp4Supported then "galaxy-approach-simulation.mp4" else "galaxy-approach-simulation.webm"
  {
    var m := MimeType(mp4Supported, vp9Supported, vp8Supported);
    if mp4Supported {
      assert m[6] == 'm' && m[7] == 'p' && m[8] == '4';
      assert m[6..9] == "mp4";
      assert OccursAt(m, "mp4", 6);
    } else {
      NotContainsIfAbsent(m, "mp4", 2);
    }
  }

  // ------------------------------------------------------------- drawing

  /** The indices below `n` of the non-streaking stars, in increasing order: those a frame draws. */
  function DrawnIndices(streaking: seq<bool>, n: nat): seq<nat>
    requires n <= |streaking|
  {
    if n == 0 then []
    else DrawnIndices(streaking, n - 1) + (if streaking[n - 1] then [] else [n - 1])
  }

  /** Moving the bound past one more star adds that star's index exactly when it is not streaking. */
  lemma DrawnIndicesStep(streaking: seq<bool>, n: nat)
    requires n < |streaking|
    ensures streaking[n] ==> DrawnIndices(streaking, n + 1) == DrawnIndices(streaking, n)
    ensures !streaking[n] ==> DrawnIndices(streaking, n + 1) == DrawnIndices(streaking, n) + [n]
  {
    if streaking[n] {
      assert DrawnIndices(streaking, n) + [] == DrawnIndices(streaking, n);
    }
  }

  /** A frame draws each non-streaking star below `n` once, in index order, and no streaking star. */
  lemma {:induction false} DrawnExactlyNonStreaking(streaking: seq<bool>, n: nat)
    requires n <= |streaking|
    ensures forall i: nat :: i in DrawnIndices(streaking, n) <==> i < n && !streaking[i]
    ensures forall a, b :: 0 <= a < b < |DrawnIndices(streaking, n)| ==>
      DrawnIndices(streaking, n)[a] < DrawnIndices(streaking, n)[b]
  {
    if n > 0 {
      DrawnExactlyNonStreaking(streaking, n - 1);
      var prefix := DrawnIndices(streaking, n - 1);
      var tail: seq<nat> := if streaking[n - 1] then [] else [n - 1];
      assert DrawnIndices(streaking, n) == prefix + tail;
      forall i: nat
        ensures i in prefix + tail <==> i < n && !streaking[i]
      {
        assert i in prefix + tail <==> i in prefix || i in tail;
      }
      forall a, b | 0 <= a < b < |prefix + tail|
        ensures (prefix + tail)[a] < (prefix + tail)[b]
      {
        if b >= |prefix| {
          assert a < |prefix| && (prefix + tail)[a] == prefix[a] && prefix[a] in prefix;
          assert (prefix + tail)[b] == n - 1;
          assert prefix[a] < n - 1;
        } else {
          assert (prefix + tail)[a] == prefix[a] && (prefix + tail)[b] == prefix[b];
          assert prefix[a] < prefix[b];
        }
      }
    }
  }

  // -------------------------------------------------------------- component

  class App {
    const globals: WindowGlobals
    var hasCanvas: bool
    var hasWrapper: bool
    var hasContext: bool
    var hasProgress: bool
    var hasRecordButton: bool
    var width: real
    var height: real
    var centerX: real
    var centerY: real
    var currentScale: real
    var currentRotation: real
    var stars: seq<Star>
    var progressText: string
    var assetsLoaded: nat
    var hasSprite: bool
    /** How many times `finalizeSetup` has run, and with it the animation loop been started. */
    var finalizeCount: nat
    var isRecording: bool
    var recorder: Recorder
    var videoChunks: seq<nat>
    var downloads: seq<string>
    var button: RecordButton

    /** The pool holds distinct valid stars that all read this page's globals. */
    ghost predicate Valid()
      reads this`stars, set s | s in stars
    {
      Distinct(stars) && forall i :: 0 <= i < |stars| ==> Member(stars[i])
    }

    ghost predicate Member(s: Star)
      reads s
    {
      s.Valid() && s.globals == globals
    }

    /** Which stars of the pool are streaking, index by index. */
    function Kinds(): (k: seq<bool>)
      reads this`stars
      ensures |k| == |stars| && forall i :: 0 <= i < |stars| ==> k[i] == stars[i].isStreaking
    {
      var st := stars;
      seq(|st|, i requires 0 <= i < |st| => st[i].isStreaking)
    }

    /** The record button shows the recording look exactly while a recording is under way. */
    predicate RecordingShown()
      reads this
    {
      hasRecordButton ==> (isRecording <==> button == ButtonRecording)
    }

    constructor (globals: WindowGlobals)
      ensures Valid() && RecordingShown() && this.globals == globals
      ensures !hasCanvas && !hasWrapper && !hasContext && !hasProgress && !hasRecordButton
      ensures width == 0.0 && height == 0.0 && currentScale == 1.0 && currentRotation == 0.0
      ensures stars == [] && assetsLoaded == 0 && finalizeCount == 0 && !hasSprite
      ensures !isRecording && recorder == NoRecorder && videoChunks == [] && downloads == [] && button == Untouched
    {
      this.globals := globals;
      hasCanvas, hasWrapper, hasContext, hasProgress, hasRecordButton := false, false, false, false, false;
      width, height, centerX, centerY := 0.0, 0.0, 0.0, 0.0;
      currentScale, currentRotation := 1.0, 0.0;
      stars := [];
      progressText := "";
      assetsLoaded, finalizeCount := 0, 0;
      hasSprite := false;
      isRecording := false;
      recorder := NoRecorder;
      videoChunks, downloads := [], [];
      button := Untouched;
    }

    /**
     * `init`: records which page elements exist; without the canvas or the wrapper it stops
     * there. Otherwise it keeps whether a 2D context was obtained, sizes the canvas and, when the
     * loading overlay is there, shows the initial progress text.
     */
    method Init(canvasFound: bool, wrapperFound: bool, overlayFound: bool, progressFound: bool, buttonFound: bool,
                contextAvailable: bool, clientWidth: nat, clientHeight: nat)
      modifies this`hasCanvas, this`hasWrapper, this`hasProgress, this`hasRecordButton, this`hasContext
      modifies this`width, this`height, this`centerX, this`centerY, this`progressText
      ensures hasCanvas == canvasFound && hasWrapper == wrapperFound
      ensures hasProgress == progressFound && hasRecordButton == buttonFound
      ensures !(canvasFound && wrapperFound) ==>
        && hasContext == old(hasContext) && width == old(width) && height == old(height)
        && centerX == old(centerX) && centerY == old(centerY) && progressText == old(progressText)
      ensures canvasFound && wrapperFound ==>
        && hasContext == contextAvailable
        && width == clientWidth as real && height == clientHeight as real
        && centerX == width / 2.0 && centerY == height / 2.0
        && progressText == if overlayFound && progressFound then "Initializing..." else old(progressText)
    {
      hasWrapper, hasCanvas, hasProgress, hasRecordButton := wrapperFound, canvasFound, progressFound, buttonFound;
      if !canvasFound || !wrapperFound {
        return;
      }
      hasContext := contextAvailable;
      SetupCanvasDimensions(clientWidth, clientHeight);
      if overlayFound && progressFound {
        progressText := "Initializing...";
      }
    }

    /** `setupCanvasDimensions` (also the resize handler): the canvas takes the wrapper's size. */
    method SetupCanvasDimensions(clientWidth: nat, clientHeight: nat)
      modifies this`width, this`height, this`centerX, this`centerY
      ensures hasWrapper && hasCanvas ==>
        width == clientWidth as real && height == clientHeight as real && centerX == width / 2.0 && centerY == height / 2.0
      ensures !(hasWrapper && hasCanvas) ==>
        width == old(width) && height == old(height) && centerX == old(centerX) && centerY == old(centerY)
    {
      if !hasWrapper || !hasCanvas {
        return;
      }
      width := clientWidth as real;
      height := clientHeight as real;
      centerX := width / 2.0;
      centerY := height / 2.0;
    }

    /** `star` is a star of this canvas in the state `new Star(...)` leaves with the random draws `seed`. */
    ghost predicate CreatedFrom(star: Star, seed: StarSeed)
      reads this`width, this`height, star
    {
      && width > 0.0 && height > 0.0 && ValidSeed(seed)
      && star.width == width && star.height == height
      && star.State() == Created(width, height, seed.reset, seed.rOffset, seed.rRate)
    }

    /**
     * One batch of `loadStarsAsync`: adds stars up to the next multiple of BATCH_SIZE (capped at
     * TOTAL_STAR_COUNT); the star with index `k` is streaking exactly when `k < NUM_STREAKING_STARS`.
     */
    method GenerateBatch(starsGenerated: nat, seeds: seq<StarSeed>) returns (generated: nat)
      requires Valid() && starsGenerated == |stars| && width > 0.0 && height > 0.0
      requires |seeds| >= TOTAL_STAR_COUNT && forall i :: 0 <= i < |seeds| ==> ValidSeed(seeds[i])
      modifies this`stars, this`progressText
      ensures Valid()
      ensures starsGenerated < TOTAL_STAR_COUNT ==> generated == MinNat(TOTAL_STAR_COUNT, starsGenerated + BATCH_SIZE)
      ensures starsGenerated >= TOTAL_STAR_COUNT ==> generated == starsGenerated
      ensures generated - starsGenerated <= BATCH_SIZE
      ensures generated <= TOTAL_STAR_COUNT || generated == starsGenerated
      ensures |stars| == generated && old(stars) <= stars
      ensures forall k :: starsGenerated <= k < |stars| ==>
        && fresh(stars[k])
        && (stars[k].isStreaking <==> k < NUM_STREAKING_STARS)
        && CreatedFrom(stars[k], seeds[k])
      ensures hasProgress ==> progressText == ProgressText(generated)
      ensures !hasProgress ==> progressText == old(progressText)
    {
      var targetCount := MinNat(TOTAL_STAR_COUNT, starsGenerated + BATCH_SIZE);
      generated := starsGenerated;
      while generated < targetCount
        invariant starsGenerated <= generated
        invariant starsGenerated < TOTAL_STAR_COUNT ==> generated <= targetCount
        invariant starsGenerated >= TOTAL_STAR_COUNT ==> generated == starsGenerated
        invariant generated <= TOTAL_STAR_COUNT || generated == starsGenerated
        invariant Valid()
        invariant |stars| == generated && old(stars) <= stars
        invariant forall k :: starsGenerated <= k < |stars| ==>
          && fresh(stars[k])
          && (stars[k].isStreaking <==> k < NUM_STREAKING_STARS)
          && CreatedFrom(stars[k], seeds[k])
        invariant progressText == old(progressText)
      {
        AddStar(generated < NUM_STREAKING_STARS, seeds[generated]);
        generated := generated + 1;
      }
      if hasProgress {
        progressText := ProgressText(generated);
      }
    }

    /** Appends one new star, created from `seed`, to the pool. */
    method AddStar(isStreaking: bool, seed: StarSeed)
      requires Valid() && width > 0.0 && height > 0.0 && ValidSeed(seed)
      modifies this`stars
      ensures Valid() && |stars| == |old(stars)| + 1 && old(stars) <= stars
      ensures fresh(stars[|old(stars)|]) && stars[|old(stars)|].isStreaking == isStreaking
      ensures stars[|old(stars)|].width == width && stars[|old(stars)|].height == height
      ensures stars[|old(stars)|].State() == Created(width, height, seed.reset, seed.rOffset, seed.rRate)
    {
      var star := new Star(isStreaking, width, height, globals, seed.reset, seed.rOffset, seed.rRate);
      stars := stars + [star];
    }

    /**
     * `loadStarsAsync`, with the chain of animation-frame callbacks run to completion: starting
     * from the stars already there, batches fill the pool up to TOTAL_STAR_COUNT stars (30
     * batches from an empty pool), the first NUM_STREAKING_STARS of them streaking. The
     * completion callback is StartImageLoading.
     */
    method LoadStarsAsync(seeds: seq<StarSeed>) returns (batches: nat)
      requires Valid() && width > 0.0 && height > 0.0
      requires |seeds| >= TOTAL_STAR_COUNT && forall i :: 0 <= i < |seeds| ==> ValidSeed(seeds[i])
      modifies this`stars, this`progressText
      ensures Valid()
      ensures old(|stars|) <= TOTAL_STAR_COUNT ==> |stars| == TOTAL_STAR_COUNT
      ensures old(|stars|) > TOTAL_STAR_COUNT ==> stars == old(stars) && batches == 1
      ensures old(|stars|) == 0 ==> batches == TOTAL_STAR_COUNT / BATCH_SIZE
      ensures old(stars) <= stars
      ensures forall k :: old(|stars|) <= k < |stars| ==>
        (stars[k].isStreaking <==> k < NUM_STREAKING_STARS)
      ensures forall k :: old(|stars|) <= k < |stars| ==> fresh(stars[k]) && CreatedFrom(stars[k], seeds[k])
      ensures hasProgress && old(|stars|) <= TOTAL_STAR_COUNT ==> progressText == "Generating Stars: 100%"
    {
      var initial := |stars|;
      var starsGenerated := GenerateBatch(initial, seeds);
      batches := 1;
      if TOTAL_STAR_COUNT < initial {
        // A pool already past the total gets one batch that adds nothing, and no further batch.
        assert stars == old(stars);
        return;
      }
      while starsGenerated < TOTAL_STAR_COUNT
        invariant old(|stars|) <= starsGenerated == |stars| <= TOTAL_STAR_COUNT
        invariant old(|stars|) == 0 ==> starsGenerated == batches * BATCH_SIZE
        invariant Valid()
        invariant old(stars) <= stars
        invariant forall k :: old(|stars|) <= k < |stars| ==>
          (stars[k].isStreaking <==> k < NUM_STREAKING_STARS)
        invariant forall k :: old(|stars|) <= k < |stars| ==> fresh(stars[k]) && CreatedFrom(stars[k], seeds[k])
        invariant hasProgress ==> progressText == ProgressText(starsGenerated)
        decreases TOTAL_STAR_COUNT - starsGenerated
      {
        ghost var before := stars;
        starsGenerated := GenerateBatch(starsGenerated, seeds);
        forall k | old(|stars|) <= k < |stars|
          ensures (stars[k].isStreaking <==> k < NUM_STREAKING_STARS)
          ensures fresh(stars[k]) && CreatedFrom(stars[k], seeds[k])
        {
          if k < |before| {
            assert stars[k] == before[k];
          }
        }
        batches := batches + 1;
      }
      ProgressTextAtEnd();
    }

    /** `startImageLoading`: the asset counter starts at zero and both images are requested. */
    method StartImageLoading()
      modifies this`progressText, this`assetsLoaded, this`hasSprite
      ensures assetsLoaded == 0 && hasSprite
      ensures hasProgress ==> progressText == "Loading Assets..."
      ensures !hasProgress ==> progressText == old(progressText)
    {
      if hasProgress {
        progressText := "Loading Assets...";
      }
      assetsLoaded := 0;
      hasSprite := true;
    }

    /**
     * The load or error handler of one image: a failed sprite is dropped, the counter goes up, the
     * progress text names the asset and the count, and the event that settles the second asset
     * runs `finalizeSetup`.
     */
    method OnAsset(e: AssetEvent)
      modifies this`assetsLoaded, this`progressText, this`hasSprite, this`finalizeCount
      modifies this`currentScale, this`currentRotation, this`button
      ensures assetsLoaded == old(assetsLoaded) + 1
      ensures hasSprite == (old(hasSprite) && e != SpriteFailed)
      ensures hasProgress ==> progressText == AssetText(AssetName(e), assetsLoaded)
      ensures !hasProgress ==> progressText == old(progressText)
      ensures assetsLoaded == ASSETS_TO_LOAD ==>
        && finalizeCount == old(finalizeCount) + 1
        && currentScale == 1.0 && currentRotation == globals.rotationRate
        && button == (if hasRecordButton then ButtonIdle else old(button))
      ensures assetsLoaded != ASSETS_TO_LOAD ==>
        && finalizeCount == old(finalizeCount)
        && currentScale == old(currentScale) && currentRotation == old(currentRotation) && button == old(button)
    {
      if e == SpriteFailed {
        hasSprite := false;
      }
      assetsLoaded := assetsLoaded + 1;
      if hasProgress {
        progressText := AssetText(AssetName(e), assetsLoaded);
      }
      if assetsLoaded == ASSETS_TO_LOAD {
        FinalizeSetup();
      }
    }

    /**
     * `startImageLoading` followed by its two events, one per image, in either order:
     * `finalizeSetup` runs exactly once, the sprite survives only if it loaded, and the last text
     * reports two of two.
     */
    method LoadAssets(first: AssetEvent, second: AssetEvent)
      requires (first.GalaxyLoaded? || first.GalaxyFailed?) != (second.GalaxyLoaded? || second.GalaxyFailed?)
      modifies this`assetsLoaded, this`progressText, this`hasSprite, this`finalizeCount
      modifies this`currentScale, this`currentRotation, this`button
      ensures finalizeCount == old(finalizeCount) + 1 && assetsLoaded == ASSETS_TO_LOAD
      ensures hasSprite <==> first != SpriteFailed && second != SpriteFailed
      ensures hasProgress ==> progressText == "Loading Assets: " + AssetName(second) + " complete (2/2)"
      ensures currentScale == 1.0 && currentRotation == globals.rotationRate
    {
      StartImageLoading();
      OnAsset(first);
      OnAsset(second);
      AssetTextCounts(AssetName(second), 2);
    }

    /**
     * `finalizeSetup`: the controls are bound (which leaves every global as it was) and reset the
     * camera, the record button is put in its idle look, and the animation loop starts.
     */
    method FinalizeSetup()
      modifies this`finalizeCount, this`currentScale, this`currentRotation, this`button
      ensures finalizeCount == old(finalizeCount) + 1
      ensures currentScale == 1.0 && currentRotation == globals.rotationRate
      ensures button == if hasRecordButton then ButtonIdle else old(button)
    {
      SetupControls();
      UpdateRecordButton(ButtonIdle);
      finalizeCount := finalizeCount + 1;
    }

    /**
     * The camera part of `setupControls`: the rotation starts at one step of the rotation rate
     * and the scale at 1.0.
     */
    method SetupControls()
      modifies this`currentScale, this`currentRotation
      ensures currentRotation == globals.rotationRate && currentScale == 1.0
    {
      currentRotation := globals.rotationRate;
      currentScale := 1.0;
    }

    /** `updateRecordButton`: applies a look when the button exists. */
    method UpdateRecordButton(b: RecordButton)
      modifies this`button
      ensures button == if hasRecordButton then b else old(button)
    {
      if hasRecordButton {
        button := b;
      }
    }

    /**
     * `startRecording`: nothing without a canvas; without canvas capture or MediaRecorder the
     * button says so and nothing else changes; otherwise the flag goes up and the chunks are
     * cleared, and then either the recorder runs with the preferred MIME type or, when setting it
     * up throws, the flag goes down again.
     */
    method StartRecording(captureSupported: bool, recorderSupported: bool, setupThrows: bool,
                          mp4Supported: bool, vp9Supported: bool, vp8Supported: bool)
      modifies this`isRecording, this`videoChunks, this`recorder, this`button
      ensures !hasCanvas ==>
        isRecording == old(isRecording) && videoChunks == old(videoChunks) && recorder == old(recorder) && button == old(button)
      ensures hasCanvas && !(captureSupported && recorderSupported) ==>
        && isRecording == old(isRecording) && videoChunks == old(videoChunks) && recorder == old(recorder)
        && button == if hasRecordButton then ButtonUnsupported else old(button)
      ensures hasCanvas && captureSupported && recorderSupported ==>
        && videoChunks == []
        && (setupThrows ==> !isRecording && recorder == old(recorder) && button == if hasRecordButton then ButtonIdle else old(button))
        && (!setupThrows ==> isRecording && recorder == Active(MimeType(mp4Supported, vp9Supported, vp8Supported))
                             && button == if hasRecordButton then ButtonRecording else old(button))
      ensures old(RecordingShown()) && !old(isRecording) ==> RecordingShown()
    {
      if !hasCanvas {
        return;
      }
      if !captureSupported || !recorderSupported {
        if hasRecordButton {
          button := ButtonUnsupported;
        }
        return;
      }
      isRecording := true;
      videoChunks := [];
      if setupThrows {
        isRecording := false;
        UpdateRecordButton(ButtonIdle);
        return;
      }
      recorder := Active(MimeType(mp4Supported, vp9Supported, vp8Supported));
      UpdateRecordButton(ButtonRecording);
    }

    /** `stopRecording` (the button or the 15 s timeout): only a recorder still running is asked to stop. */
    method StopRecording()
      modifies this`recorder
      ensures old(recorder).Active? ==> recorder == Stopping(old(recorder).mimeType)
      ensures !old(recorder).Active? ==> recorder == old(recorder)
    {
      if recorder.Active? {
        recorder := Stopping(recorder.mimeType);
      }
    }

    /** The record button's click handler: stop while recording, start otherwise. */
    method OnRecordClick(captureSupported: bool, recorderSupported: bool, setupThrows: bool,
                         mp4Supported: bool, vp9Supported: bool, vp8Supported: bool)
      modifies this`isRecording, this`videoChunks, this`recorder, this`button
      ensures old(isRecording) ==>
        && isRecording && videoChunks == old(videoChunks) && button == old(button)
        && recorder == if old(recorder).Active? then Stopping(old(recorder).mimeType) else old(recorder)
      ensures !old(isRecording) && hasCanvas && captureSupported && recorderSupported ==>
        isRecording == !setupThrows && videoChunks == []
      ensures old(RecordingShown()) ==> RecordingShown()
    {
      if isRecording {
        StopRecording();
      } else {
        StartRecording(captureSupported, recorderSupported, setupThrows, mp4Supported, vp9Supported, vp8Supported);
      }
    }

    /** The recording timeout: stops a recording still under way. */
    method OnRecordingTimeout()
      modifies this`recorder
      ensures isRecording && old(recorder).Active? ==> recorder == Stopping(old(recorder).mimeType)
      ensures !isRecording || !old(recorder).Active? ==> recorder == old(recorder)
    {
      if isRecording {
        StopRecording();
      }
    }

    /** A non-empty chunk from the encoder is appended; empty ones are dropped. */
    method OnDataAvailable(size: nat)
      modifies this`videoChunks
      ensures videoChunks == if size > 0 then old(videoChunks) + [size] else old(videoChunks)
    {
      if size > 0 {
        videoChunks := videoChunks + [size];
      }
    }

    /** The recorder's `onerror`: the flag goes down and the button returns to idle. */
    method OnError()
      modifies this`isRecording, this`button
      ensures !isRecording && button == if hasRecordButton then ButtonIdle else old(button)
      ensures RecordingShown()
    {
      isRecording := false;
      UpdateRecordButton(ButtonIdle);
    }

    /**
     * The recorder's `onstop`: the flag goes down, one file is saved under the name its MIME type
     * picks, and the button passes through processing back to idle. The stopped recorder is kept.
     */
    method OnStop()
      requires recorder != NoRecorder
      modifies this`isRecording, this`button, this`downloads, this`recorder
      ensures !isRecording && RecordingShown()
      ensures downloads == old(downloads) + [DownloadName(old(recorder).mimeType)]
      ensures button == if hasRecordButton then ButtonIdle else old(button)
      ensures recorder == Stopping(old(recorder).mimeType)
    {
      isRecording := false;
      UpdateRecordButton(ButtonProcessing);
      var mimeType := recorder.mimeType;
      downloads := downloads + [DownloadName(mimeType)];
      UpdateRecordButton(ButtonIdle);
      recorder := Stopping(mimeType);
    }

    /** The camera part of `animate`: rotation accumulates, the scale follows the same-frame sawtooth. */
    method StepCamera()
      modifies this`currentRotation, this`currentScale
      ensures currentRotation == old(currentRotation) + globals.rotationRate
      ensures currentScale == ScaleStep(old(currentScale), globals.zoomRate)
    {
      currentRotation := currentRotation + globals.rotationRate;
      if currentScale < TARGET_SCALE {
        currentScale := currentScale + globals.zoomRate;
      }
      if currentScale >= TARGET_SCALE {
        currentScale := 1.0;
      }
    }

    /**
     * The star loop of `animate` over the first `n` stars: each takes its `update()` and the
     * non-streaking ones are then drawn, in index order; `drawn` lists the stars drawn.
     */
    method UpdateAndDrawStars(samples: seq<StarSample>, waves: seq<real>, n: nat) returns (drawn: seq<nat>)
      requires Valid() && n <= |stars|
      requires |samples| == |waves| == |stars|
      requires forall i :: 0 <= i < |samples| ==> ValidStarSample(samples[i]) && Wave(waves[i])
      modifies set s | s in stars
      ensures Valid()
      ensures drawn == DrawnIndices(Kinds(), n)
      ensures forall i :: 0 <= i < n ==> stars[i].State() == old(stars[i].Next(samples[i], waves[i]))
      ensures forall i :: n <= i < |stars| ==> unchanged(stars[i])
    {
      drawn := [];
      var kinds := Kinds();
      for i := 0 to n
        invariant Valid()
        invariant drawn == DrawnIndices(kinds, i)
        invariant forall j :: 0 <= j < i ==> stars[j].State() == old(stars[j].Next(samples[j], waves[j]))
        invariant forall j :: i <= j < |stars| ==> unchanged(stars[j])
      {
        var streaking := kinds[i];
        DrawnIndicesStep(kinds, i);
        label BeforeStar:
        UpdateStar(i, samples[i], waves[i]);
        forall j | 0 <= j < i
          ensures stars[j].State() == old(stars[j].Next(samples[j], waves[j]))
        {
          assert unchanged@BeforeStar(stars[j]);
        }
        if !streaking {
          drawn := drawn + [i];
        }
      }
    }

    /** One star's `update()`; the rest of the pool is untouched. */
    method UpdateStar(i: nat, sample: StarSample, wave: real)
      requires Valid() && i < |stars| && ValidStarSample(sample) && Wave(wave)
      modifies stars[i]
      ensures Valid()
      ensures stars[i].State() == old(stars[i].Next(sample, wave))
      ensures forall j :: 0 <= j < |stars| && j != i ==> unchanged(stars[j])
    {
      var star := stars[i];
      star.Update(sample, wave);
      assert forall j :: 0 <= j < |stars| && j != i ==> stars[j] != star;
    }

    /**
     * One frame of `animate`: nothing without a 2D context; otherwise the camera step, then the
     * star loop.
     */
    method Animate(samples: seq<StarSample>, waves: seq<real>) returns (drawn: seq<nat>)
      requires Valid()
      requires |samples| == |waves| == |stars|
      requires forall i :: 0 <= i < |samples| ==> ValidStarSample(samples[i]) && Wave(waves[i])
      modifies this`currentRotation, this`currentScale, set s | s in stars
      ensures Valid()
      ensures !(hasContext && hasCanvas) ==>
        && drawn == [] && currentRotation == old(currentRotation) && currentScale == old(currentScale)
        && forall k :: 0 <= k < |stars| ==> unchanged(stars[k])
      ensures hasContext && hasCanvas ==>
        && currentRotation == old(currentRotation) + globals.rotationRate
        && currentScale == ScaleStep(old(currentScale), globals.zoomRate)
        && drawn == DrawnIndices(Kinds(), MinNat(|stars|, TOTAL_STAR_COUNT))
        && (forall i :: 0 <= i < |stars| && i < TOTAL_STAR_COUNT ==>
              stars[i].State() == old(stars[i].Next(samples[i], waves[i])))
        && (forall i :: TOTAL_STAR_COUNT <= i < |stars| ==> unchanged(stars[i]))
    {
      drawn := [];
      if !hasContext || !hasCanvas {
        return;
      }
      StepCamera();
      // `animate` counts to TOTAL_STAR_COUNT and skips indices holding no star: the same stars as stopping at the pool's end.
      drawn := UpdateAndDrawStars(samples, waves, MinNat(|stars|, TOTAL_STAR_COUNT));
    }
  }
}
