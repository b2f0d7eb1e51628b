/**
 * The simulator component (src/app/components/simulator/simulator.ts:1-248): the per-frame
 * camera, the shooting-star spawn scheduler, the star updates, the batched population build and
 * the recording controller's MIME choice.
 */
module SimulatorComponent {
  import opened SimulationModel
  import opened Strings
  import opened SimulationServiceModule
  import opened ShootingStarModel
  import opened AmbientStarModel

  const TARGET_SCALE: real := 2.5
  const NUM_SHOOTING_STARS: nat := 10
  const NUM_AMBIENT_STARS: nat := 1000
  const SHOOTING_STAR_SPAWN_RATE: real := 1.5
  const BATCH_SIZE: nat := 50
  /** The fixed logical canvas size `setupCanvasDimensions` sets. */
  const CANVAS_WIDTH: real := 1080.0
  const CANVAS_HEIGHT: real := 1920.0

  // ---------------------------------------------------------------- camera

  /**
   * The zoom half of a camera step: below the target the scale grows by `zoomRate`; a scale
   * that has reached the target snaps back to 1.0 on the following frame.
   */
  function ScaleStep(scale: real, zoomRate: real): (r: real)
    ensures scale < TARGET_SCALE ==> r == scale + zoomRate
    ensures scale >= TARGET_SCALE ==> r == 1.0
    ensures zoomRate >= 0.0 && 1.0 <= scale < TARGET_SCALE + zoomRate ==> 1.0 <= r < TARGET_SCALE + zoomRate
  {
    if scale < TARGET_SCALE then scale + zoomRate else 1.0
  }

  /** The scale after `n` frames at a fixed zoom rate. */
  function ScaleAfter(n: nat, scale: real, zoomRate: real): real
  {
    if n == 0 then scale else ScaleStep(ScaleAfter(n - 1, scale, zoomRate), zoomRate)
  }

  /** From 1.0 the scale climbs linearly for as long as the previous frame was below the target. */
  lemma {:induction false} ScaleRamp(n: nat, zoomRate: real)
    requires zoomRate >= 0.0
    requires n > 0 ==> 1.0 + ((n - 1) as real) * zoomRate < TARGET_SCALE
    ensures ScaleAfter(n, 1.0, zoomRate) == 1.0 + (n as real) * zoomRate
  {
    if n > 0 {
      if n > 1 {
        assert ((n - 2) as real) * zoomRate <= ((n - 1) as real) * zoomRate by {
          assert ((n - 1) as real) * zoomRate == ((n - 2) as real) * zoomRate + zoomRate;
        }
      }
      ScaleRamp(n - 1, zoomRate);
      assert (n as real) * zoomRate == ((n - 1) as real) * zoomRate + zoomRate;
    }
  }

  /**
   * At rate 0.0004 the scale reaches exactly 2.5 after 3750 frames and is reset
   * on frame 3751, one frame later than in the application shell.
   */
  lemma SawtoothPeriod()
    ensures ScaleAfter(3750, 1.0, 0.0004) == 2.5
    ensures ScaleAfter(3751, 1.0, 0.0004) == 1.0
  {
    ScaleRamp(3750, 0.0004);
    var before := ScaleAfter(3750, 1.0, 0.0004);
    assert ScaleAfter(3751, 1.0, 0.0004) == ScaleStep(before, 0.0004);
  }

  /** With a non-negative zoom rate the scale stays within [1.0, TARGET_SCALE + zoomRate) forever. */
  lemma {:induction false} ScaleBounded(n: nat, zoomRate: real)
    requires zoomRate >= 0.0
    ensures 1.0 <= ScaleAfter(n, 1.0, zoomRate) < TARGET_SCALE + zoomRate
  {
    if n > 0 {
      ScaleBounded(n - 1, zoomRate);
    }
  }

  // ------------------------------------------------------- spawn scheduler

  /** More than `1 / SHOOTING_STAR_SPAWN_RATE` seconds have passed since the last spawn. */
  predicate SpawnDue(now: int, lastSpawn: int) {
    ((now - lastSpawn) as real) / 1000.0 > 1.0 / SHOOTING_STAR_SPAWN_RATE
  }

  /** The index of the first inactive star of the pool, or `|pool|` when every star is active. */
  function FirstInactive(pool: seq<ShootingState>): (i: nat)
    ensures i <= |pool|
    ensures i < |pool| ==> !pool[i].isActive
    ensures forall j :: 0 <= j < i ==> pool[j].isActive
  {
    if pool == [] then 0
    else if !pool[0].isActive then 0
    else 1 + FirstInactive(pool[1..])
  }

  /**
   * The scheduler's effect on the pool and the spawn timestamp: when a spawn is due, the first
   * inactive star is spawned and the timestamp becomes `now`; otherwise nothing changes.
   */
  function Schedule(pool: seq<ShootingState>, lastSpawn: int, now: int, rx: real, ry: real, rz: real): (r: (seq<ShootingState>, int))
    requires Unit(rx) && Unit(ry) && Unit(rz)
    ensures |r.0| == |pool|
  {
    if SpawnDue(now, lastSpawn) then
      var i := FirstInactive(pool);
      if i < |pool| then (pool[i := Spawned(CANVAS_WIDTH, CANVAS_HEIGHT, rx, ry, rz)], now)
      else (pool, lastSpawn)
    else (pool, lastSpawn)
  }

  /**
   * What one scheduler pass guarantees: at most one star changes; the one that changes was
   * inactive, every star before it is active, and it is now freshly spawned; the timestamp moves
   * to `now` exactly when a star was spawned; a full pool or a spawn not yet due changes nothing;
   * and coherent stars stay coherent.
   */
  lemma ScheduleSpawnsAtMostOne(pool: seq<ShootingState>, lastSpawn: int, now: int, rx: real, ry: real, rz: real)
    requires Unit(rx) && Unit(ry) && Unit(rz)
    ensures var r := Schedule(pool, lastSpawn, now, rx, ry, rz);
      && (forall i, j :: 0 <= i < j < |pool| ==> r.0[i] == pool[i] || r.0[j] == pool[j])
      && (forall i :: 0 <= i < |pool| && r.0[i] != pool[i] ==>
            && !pool[i].isActive
            && (forall j :: 0 <= j < i ==> pool[j].isActive)
            && r.0[i] == Spawned(CANVAS_WIDTH, CANVAS_HEIGHT, rx, ry, rz))
      && (r.1 == now <==> r.0 != pool || lastSpawn == now)
      && ((forall i :: 0 <= i < |pool| ==> pool[i].isActive) ==> r == (pool, lastSpawn))
      && (!SpawnDue(now, lastSpawn) ==> r == (pool, lastSpawn))
      && (SpawnDue(now, lastSpawn) && (exists i :: 0 <= i < |pool| && !pool[i].isActive) ==> r.1 == now && r.0 != pool)
      && ((forall i :: 0 <= i < |pool| ==> Coherent(pool[i])) ==> forall i :: 0 <= i < |pool| ==> Coherent(r.0[i]))
  {
    var i := FirstInactive(pool);
    if SpawnDue(now, lastSpawn) && i < |pool| {
      assert Schedule(pool, lastSpawn, now, rx, ry, rz).0[i] != pool[i];
    }
  }

  // ------------------------------------------------------ population build

  /** The whole percentage of ambient stars generated so far. */
  function ProgressPercent(generated: nat): nat {
    generated * 100 / NUM_AMBIENT_STARS
  }

  /** The progress text a batch shows. */
  function ProgressText(generated: nat): string {
    "Generating Stars: " + Decimal(ProgressPercent(generated)) + "%"
  }

  /**
   * The percentage never exceeds 100, is 100 exactly once every ambient star exists, and a batch
   * of BATCH_SIZE stars raises it by exactly 5.
   */
  lemma ProgressCompleteOnlyAtEnd(generated: nat)
    requires generated <= NUM_AMBIENT_STARS
    ensures ProgressPercent(generated) <= 100
    ensures ProgressPercent(generated) == 100 <==> generated == NUM_AMBIENT_STARS
    ensures generated + BATCH_SIZE <= NUM_AMBIENT_STARS && generated % BATCH_SIZE == 0 ==>
      ProgressPercent(generated + BATCH_SIZE) == ProgressPercent(generated) + 5
  {
    if generated < NUM_AMBIENT_STARS {
      assert generated * 100 < NUM_AMBIENT_STARS * 100;
    }
  }

  /** Once every star exists the text reads "Generating Stars: 100%". */
  lemma ProgressTextAtEnd()
    ensures ProgressText(NUM_AMBIENT_STARS) == "Generating Stars: 100%"
  {
    assert Decimal(100) == "100" by {
      assert Decimal(10) == "10";
    }
  }

  // -------------------------------------------------------------- recording

  /**
   * The MIME preference of `startRecording`: mp4 with the H.264/AAC codec string, then plain mp4,
   * else webm, given the `MediaRecorder.isTypeSupported` answers for the two mp4 types.
   */
  function MimeType(mp4CodecsSupported: bool, mp4Supported: bool): string {
    if mp4CodecsSupported then "video/mp4; codecs=\"avc1.42E01E, mp4a.40.2\""
    else if mp4Supported then "video/mp4"
    else "video/webm"
  }

  /** The download name: `starfield-simulation` with `.mp4` when the MIME type mentions mp4, else `.webm`. */
  function DownloadName(mimeType: string): string {
    "starfield-simulation" + if Contains(mimeType, "mp4") then ".mp4" else ".webm"
  }

  /** The file is an `.mp4` exactly when one of the two mp4 types is supported. */
  lemma DownloadNameFollowsSupport(mp4CodecsSupported: bool, mp4Supported: bool)
    ensures Contains(MimeType(mp4CodecsSupported, mp4Supported), "mp4") <==> mp4CodecsSupported || mp4Supported
    ensures DownloadName(MimeType(mp4CodecsSupported, mp4Supported)) ==
      if mp4CodecsSupported || mp4Supported then "starfield-simulation.mp4" else "starfield-simulation.webm"
  {
    if mp4CodecsSupported {
      var m := MimeType(true, mp4Supported);
      assert m[6] == 'm' && m[7] == 'p' && m[8] == '4';
      assert m[6..9] == "mp4";
      assert OccursAt(m, "mp4", 6);
    } else if mp4Supported {
      var m := MimeType(false, true);
      assert m[6] == 'm' && m[7] == 'p' && m[8] == '4';
      assert m[6..9] == "mp4";
      assert OccursAt(m, "mp4", 6);
    } else {
      NotContainsIfAbsent("video/webm", "mp4", 2);
    }
  }

  // -------------------------------------------------------------- component

  /** The inputs one new ambient star draws from `Math.random()`. */
  datatype AmbientSeed = AmbientSeed(reset: ResetSample, rOffset: real, rRate: real)

  predicate ValidSeed(s: AmbientSeed) {
    ValidSample(s.reset) && Unit(s.rOffset) && Unit(s.rRate)
  }

  /** `star` is in the state `new AmbientStar(...)` leaves on the canvas with the random draws `seed`. */
  ghost predicate CreatedFrom(star: AmbientStar, seed: AmbientSeed)
    reads star
  {
    ValidSeed(seed) && star.State() == Created(CANVAS_WIDTH, CANVAS_HEIGHT, seed.reset, seed.rOffset, seed.rRate)
  }

  /** The states of the stars of a pool, index by index. */
  function ShootingStates(stars: seq<ShootingStar>): (r: seq<ShootingState>)
    reads set s | s in stars
    ensures |r| == |stars|
    ensures forall i :: 0 <= i < |stars| ==> r[i] == stars[i].State()
  {
    seq(|stars|, i requires 0 <= i < |stars| reads stars => stars[i].State())
  }

  /** After the scheduler spawns star `i` of a pool of distinct stars, only that star's state differs. */
  lemma SpawnedPool(stars: seq<ShootingStar>, pool: seq<ShootingState>, i: nat, spawned: ShootingState)
    requires i < |stars| && |pool| == |stars|
    requires stars[i].State() == spawned
    requires forall j :: 0 <= j < |stars| && j != i ==> stars[j].State() == pool[j]
    ensures ShootingStates(stars) == pool[i := spawned]
  {
  }

  /** When a spawn is due, the scheduler spawns the first inactive star. */
  lemma ScheduleSpawnsAt(pool: seq<ShootingState>, lastSpawn: int, now: int, rx: real, ry: real, rz: real, i: nat)
    requires Unit(rx) && Unit(ry) && Unit(rz) && SpawnDue(now, lastSpawn)
    requires i < |pool| && !pool[i].isActive && forall j :: 0 <= j < i ==> pool[j].isActive
    ensures Schedule(pool, lastSpawn, now, rx, ry, rz) == (pool[i := Spawned(CANVAS_WIDTH, CANVAS_HEIGHT, rx, ry, rz)], now)
  {
    var k := FirstInactive(pool);
    assert k == i;
  }

  /** With every star active the scheduler changes nothing. */
  lemma ScheduleWithFullPool(pool: seq<ShootingState>, lastSpawn: int, now: int, rx: real, ry: real, rz: real)
    requires Unit(rx) && Unit(ry) && Unit(rz)
    requires forall j :: 0 <= j < |pool| ==> pool[j].isActive
    ensures Schedule(pool, lastSpawn, now, rx, ry, rz) == (pool, lastSpawn)
  {
  }

  class Simulator {
    const simService: SimulationService
    const width: real
    const height: real
    var hasContext: bool
    var currentScale: real
    var currentRotation: real
    var ambientStars: seq<AmbientStar>
    var shootingStars: seq<ShootingStar>
    var lastShootingStarSpawn: int
    var recorder: Recorder
    var videoChunks: seq<nat>
    var downloads: seq<string>

    ghost function Stars(): set<object>
      reads this`ambientStars, this`shootingStars
    {
      (set a | a in ambientStars) + (set s | s in shootingStars)
    }

    /**
     * The component's invariant: the two pools hold distinct stars of the canvas size that read
     * the component's service, and every star is itself valid.
     */
    ghost predicate Valid()
      reads this`ambientStars, this`shootingStars, Stars()
    {
      width == CANVAS_WIDTH && height == CANVAS_HEIGHT && AmbientPoolValid() && ShootingPoolValid()
    }

    ghost predicate AmbientPoolValid()
      reads this`ambientStars, set a | a in ambientStars
    {
      Distinct(ambientStars) && forall i :: 0 <= i < |ambientStars| ==> AmbientMember(ambientStars[i])
    }

    ghost predicate ShootingPoolValid()
      reads this`shootingStars, set s | s in shootingStars
    {
      Distinct(shootingStars) && forall i :: 0 <= i < |shootingStars| ==> ShootingMember(shootingStars[i])
    }

    ghost predicate AmbientMember(a: AmbientStar)
      reads a
    {
      a.Valid() && a.simService == simService && a.width == CANVAS_WIDTH && a.height == CANVAS_HEIGHT
    }

    ghost predicate ShootingMember(s: ShootingStar)
      reads s
    {
      s.Valid() && s.simService == simService && s.width == CANVAS_WIDTH && s.height == CANVAS_HEIGHT
    }

    constructor (simService: SimulationService)
      ensures Valid() && this.simService == simService && !hasContext
      ensures currentScale == 1.0 && currentRotation == 0.0
      ensures ambientStars == [] && shootingStars == [] && lastShootingStarSpawn == 0
      ensures recorder == NoRecorder && videoChunks == [] && downloads == []
    {
      this.simService := simService;
      width, height := CANVAS_WIDTH, CANVAS_HEIGHT;
      hasContext := false;
      currentScale, currentRotation := 1.0, 0.0;
      ambientStars, shootingStars := [], [];
      lastShootingStarSpawn := 0;
      recorder := NoRecorder;
      videoChunks, downloads := [], [];
    }

    /** `init`: keeps whether a 2D context was obtained and shows the initial progress text. */
    method Init(contextAvailable: bool)
      modifies this`hasContext, simService`loadingProgress
      ensures hasContext == contextAvailable && simService.loadingProgress == "Initializing..."
    {
      hasContext := contextAvailable;
      simService.loadingProgress := "Initializing...";
    }

    /** `startImageLoading`: the progress text while the galaxy image loads. */
    method StartImageLoading()
      modifies simService`loadingProgress
      ensures simService.loadingProgress == "Loading Assets..."
    {
      simService.loadingProgress := "Loading Assets...";
    }

    /**
     * `finalizeSetup`, run once the galaxy image has loaded or failed to: the scene is ready and
     * the spawn clock starts at `now`, so the first shooting star waits a full spawn interval.
     */
    method FinalizeSetup(now: int)
      modifies this`lastShootingStarSpawn, simService`loadingProgress
      ensures simService.loadingProgress == "Ready" && lastShootingStarSpawn == now
    {
      simService.loadingProgress := "Ready";
      lastShootingStarSpawn := now;
    }

    /** The camera half of `animate`: rotation accumulates, the scale follows the sawtooth. */
    method StepCamera()
      requires Valid()
      modifies this`currentRotation, this`currentScale
      ensures Valid()
      ensures currentRotation == old(currentRotation) + simService.rotationRate
      ensures currentScale == ScaleStep(old(currentScale), simService.zoomRate)
    {
      currentRotation := currentRotation + simService.rotationRate;
      if currentScale < TARGET_SCALE {
        currentScale := currentScale + simService.zoomRate;
      } else {
        currentScale := 1.0;
      }
    }

    method SpawnAt(i: nat, rx: real, ry: real, rz: real)
      requires Valid() && i < |shootingStars| && Unit(rx) && Unit(ry) && Unit(rz)
      modifies shootingStars[i]
      ensures Valid()
      ensures ShootingStates(shootingStars) == old(ShootingStates(shootingStars))[i := Spawned(CANVAS_WIDTH, CANVAS_HEIGHT, rx, ry, rz)]
      ensures forall k :: 0 <= k < |ambientStars| ==> unchanged(ambientStars[k])
    {
      ghost var pool := ShootingStates(shootingStars);
      var star := shootingStars[i];
      star.Spawn(rx, ry, rz);
      assert forall j :: 0 <= j < |shootingStars| && j != i ==> shootingStars[j].State() == pool[j];
      SpawnedPool(shootingStars, pool, i, star.State());
    }

    /** The spawn scheduler of `animate`: scans the pool in order and spawns the first inactive star. */
    method SpawnShootingStars(now: int, rx: real, ry: real, rz: real)
      requires Valid() && Unit(rx) && Unit(ry) && Unit(rz)
      modifies this`lastShootingStarSpawn, set s | s in shootingStars
      ensures Valid()
      ensures ShootingStates(shootingStars) == Schedule(old(ShootingStates(shootingStars)), old(lastShootingStarSpawn), now, rx, ry, rz).0
      ensures lastShootingStarSpawn == Schedule(old(ShootingStates(shootingStars)), old(lastShootingStarSpawn), now, rx, ry, rz).1
      ensures forall k :: 0 <= k < |ambientStars| ==> unchanged(ambientStars[k])
    {
      ghost var pool := ShootingStates(shootingStars);
      var timeSinceLastSpawn := ((now - lastShootingStarSpawn) as real) / 1000.0;
      if timeSinceLastSpawn > 1.0 / SHOOTING_STAR_SPAWN_RATE {
        var i := 0;
        while i < |shootingStars| && shootingStars[i].isActive
          invariant 0 <= i <= |shootingStars|
          invariant forall j :: 0 <= j < i ==> pool[j].isActive
        {
          i := i + 1;
        }
        if i < |shootingStars| {
          ScheduleSpawnsAt(pool, lastShootingStarSpawn, now, rx, ry, rz, i);
          SpawnAt(i, rx, ry, rz);
          lastShootingStarSpawn := now;
        } else {
          ScheduleWithFullPool(pool, lastShootingStarSpawn, now, rx, ry, rz);
        }
      }
    }

    /** Every ambient star, in order, takes its `update()` with its own random and flicker inputs. */
    method UpdateAmbientStars(samples: seq<ResetSample>, waves: seq<real>)
      requires Valid()
      requires |samples| == |waves| == |ambientStars|
      requires forall i :: 0 <= i < |samples| ==> ValidSample(samples[i]) && Wave(waves[i])
      modifies set a | a in ambientStars
      ensures Valid()
      ensures forall k :: 0 <= k < |shootingStars| ==> unchanged(shootingStars[k])
      ensures forall i :: 0 <= i < |ambientStars| ==>
        ambientStars[i].State() ==
        Step(old(ambientStars[i].State()), simService.ambientStarSpeed, width, height, samples[i], waves[i])
    {
      for i := 0 to |ambientStars|
        invariant Valid()
        invariant forall j :: 0 <= j < i ==>
          ambientStars[j].State() ==
          Step(old(ambientStars[j].State()), simService.ambientStarSpeed, width, height, samples[j], waves[j])
        invariant forall j :: i <= j < |ambientStars| ==> ambientStars[j].State() == old(ambientStars[j].State())
      {
        ambientStars[i].Update(samples[i], waves[i]);
      }
    }

    /** Every shooting star, in order, takes its `update()`. */
    method UpdateShootingStars()
      requires Valid()
      modifies set s | s in shootingStars
      ensures Valid()
      ensures forall k :: 0 <= k < |ambientStars| ==> unchanged(ambientStars[k])
      ensures forall i :: 0 <= i < |shootingStars| ==>
        shootingStars[i].State() == Advance(old(shootingStars[i].State()), simService.shootingStarSpeed)
    {
      for i := 0 to |shootingStars|
        invariant Valid()
        invariant forall j :: 0 <= j < i ==>
          shootingStars[j].State() == Advance(old(shootingStars[j].State()), simService.shootingStarSpeed)
        invariant forall j :: i <= j < |shootingStars| ==> shootingStars[j].State() == old(shootingStars[j].State())
      {
        shootingStars[i].Update();
      }
    }

    /**
     * One frame of `animate` (drawing aside): nothing without a 2D context; otherwise the camera
     * step, the spawn scheduler, then the ambient and shooting-star updates.
     */
    method Animate(now: int, samples: seq<ResetSample>, waves: seq<real>, rx: real, ry: real, rz: real)
      requires Valid()
      requires |samples| == |waves| == |ambientStars|
      requires forall i :: 0 <= i < |samples| ==> ValidSample(samples[i]) && Wave(waves[i])
      requires Unit(rx) && Unit(ry) && Unit(rz)
      modifies this`currentRotation, this`currentScale, this`lastShootingStarSpawn, Stars()
      ensures Valid()
      ensures !hasContext ==> unchanged(this) && unchanged(Stars())
      ensures hasContext ==> currentRotation == old(currentRotation) + simService.rotationRate
      ensures hasContext ==> currentScale == ScaleStep(old(currentScale), simService.zoomRate)
      ensures hasContext ==> forall i :: 0 <= i < |ambientStars| ==>
        ambientStars[i].State() ==
        Step(old(ambientStars[i].State()), simService.ambientStarSpeed, width, height, samples[i], waves[i])
      ensures hasContext ==>
        var (pool, last) := Schedule(old(ShootingStates(shootingStars)), old(lastShootingStarSpawn), now, rx, ry, rz);
        lastShootingStarSpawn == last &&
        forall i :: 0 <= i < |shootingStars| ==>
          shootingStars[i].State() == Advance(pool[i], simService.shootingStarSpeed)
    {
      if !hasContext {
        return;
      }
      StepCamera();
      SpawnShootingStars(now, rx, ry, rz);
      UpdateAmbientStars(samples, waves);
      UpdateShootingStars();
    }

    /**
     * One batch of `loadStarsAsync`: adds ambient stars up to the next multiple of BATCH_SIZE
     * (capped at NUM_AMBIENT_STARS), and after the last batch adds the pool of inactive shooting
     * stars.
     */
    method GenerateBatch(starsGenerated: nat, seeds: seq<AmbientSeed>) returns (generated: nat)
      requires Valid() && starsGenerated <= NUM_AMBIENT_STARS
      requires |seeds| == NUM_AMBIENT_STARS && forall i :: 0 <= i < |seeds| ==> ValidSeed(seeds[i])
      modifies this`ambientStars, this`shootingStars, simService`loadingProgress
      ensures Valid()
      ensures simService.loadingProgress == ProgressText(generated)
      ensures generated == MinNat(NUM_AMBIENT_STARS, starsGenerated + BATCH_SIZE)
      ensures generated - starsGenerated <= BATCH_SIZE
      ensures |ambientStars| == old(|ambientStars|) + (generated - starsGenerated)
      ensures ambientStars[..old(|ambientStars|)] == old(ambientStars)
      ensures forall k :: old(|ambientStars|) <= k < |ambientStars| ==>
        fresh(ambientStars[k]) && CreatedFrom(ambientStars[k], seeds[starsGenerated + k - old(|ambientStars|)])
      ensures generated < NUM_AMBIENT_STARS ==> shootingStars == old(shootingStars)
      ensures generated == NUM_AMBIENT_STARS ==>
        && |shootingStars| == old(|shootingStars|) + NUM_SHOOTING_STARS
        && shootingStars[..old(|shootingStars|)] == old(shootingStars)
        && forall k :: old(|shootingStars|) <= k < |shootingStars| ==>
             fresh(shootingStars[k]) && shootingStars[k].State() == Dormant
    {
      var targetCount := MinNat(NUM_AMBIENT_STARS, starsGenerated + BATCH_SIZE);
      generated := starsGenerated;
      while generated < targetCount
        invariant starsGenerated <= generated <= targetCount
        invariant Valid()
        invariant |ambientStars| == old(|ambientStars|) + (generated - starsGenerated)
        invariant ambientStars[..old(|ambientStars|)] == old(ambientStars)
        invariant forall k :: old(|ambientStars|) <= k < |ambientStars| ==>
          fresh(ambientStars[k]) && CreatedFrom(ambientStars[k], seeds[starsGenerated + k - old(|ambientStars|)])
        invariant shootingStars == old(shootingStars)
      {
        AddAmbientStar(seeds[generated]);
        generated := generated + 1;
      }
      simService.loadingProgress := ProgressText(generated);
      if generated == NUM_AMBIENT_STARS {
        AddShootingPool();
      }
    }

    /** Appends one new ambient star, created from `seed`, to the pool. */
    method AddAmbientStar(seed: AmbientSeed)
      requires Valid() && ValidSeed(seed)
      modifies this`ambientStars
      ensures Valid()
      ensures |ambientStars| == |old(ambientStars)| + 1 && ambientStars[..|old(ambientStars)|] == old(ambientStars)
      ensures fresh(ambientStars[|old(ambientStars)|])
      ensures CreatedFrom(ambientStars[|old(ambientStars)|], seed)
    {
      var star := new AmbientStar(width, height, simService, seed.reset, seed.rOffset, seed.rRate);
      ambientStars := ambientStars + [star];
      assert ambientStars[..|old(ambientStars)|] == old(ambientStars);
    }

    /** The tail of the last batch: NUM_SHOOTING_STARS inactive shooting stars join the pool. */
    method AddShootingPool()
      requires Valid()
      modifies this`shootingStars
      ensures Valid()
      ensures |shootingStars| == old(|shootingStars|) + NUM_SHOOTING_STARS
      ensures shootingStars[..old(|shootingStars|)] == old(shootingStars)
      ensures forall k :: old(|shootingStars|) <= k < |shootingStars| ==>
        fresh(shootingStars[k]) && shootingStars[k].State() == Dormant
    {
      for i := 0 to NUM_SHOOTING_STARS
        invariant Valid()
        invariant |shootingStars| == old(|shootingStars|) + i
        invariant shootingStars[..old(|shootingStars|)] == old(shootingStars)
        invariant forall k :: old(|shootingStars|) <= k < |shootingStars| ==>
          fresh(shootingStars[k]) && shootingStars[k].State() == Dormant
      {
        var star := new ShootingStar(width, height, simService);
        shootingStars := shootingStars + [star];
      }
    }

    /**
     * `loadStarsAsync`, with the chain of animation-frame callbacks run to completion: 20 batches
     * add exactly NUM_AMBIENT_STARS ambient stars, followed by NUM_SHOOTING_STARS inactive shooting stars.
     */
    method LoadStarsAsync(seeds: seq<AmbientSeed>) returns (batches: nat)
      requires Valid()
      requires |seeds| == NUM_AMBIENT_STARS && forall i :: 0 <= i < |seeds| ==> ValidSeed(seeds[i])
      modifies this`ambientStars, this`shootingStars, simService`loadingProgress
      ensures Valid()
      ensures simService.loadingProgress == "Generating Stars: 100%"
      ensures batches == NUM_AMBIENT_STARS / BATCH_SIZE
      ensures |ambientStars| == old(|ambientStars|) + NUM_AMBIENT_STARS
      ensures |shootingStars| == old(|shootingStars|) + NUM_SHOOTING_STARS
      ensures ambientStars[..old(|ambientStars|)] == old(ambientStars)
      ensures shootingStars[..old(|shootingStars|)] == old(shootingStars)
      ensures forall k :: old(|shootingStars|) <= k < |shootingStars| ==> shootingStars[k].State() == Dormant
      ensures forall k :: old(|ambientStars|) <= k < |ambientStars| ==>
        fresh(ambientStars[k]) && CreatedFrom(ambientStars[k], seeds[k - old(|ambientStars|)])
    {
      var starsGenerated := 0;
      batches := 0;
      starsGenerated := GenerateBatch(starsGenerated, seeds);
      batches := 1;
      while starsGenerated < NUM_AMBIENT_STARS
        invariant 0 < starsGenerated <= NUM_AMBIENT_STARS
        invariant starsGenerated == batches * BATCH_SIZE
        invariant Valid()
        invariant |ambientStars| == old(|ambientStars|) + starsGenerated
        invariant ambientStars[..old(|ambientStars|)] == old(ambientStars)
        invariant forall k :: old(|ambientStars|) <= k < |ambientStars| ==>
          fresh(ambientStars[k]) && CreatedFrom(ambientStars[k], seeds[k - old(|ambientStars|)])
        invariant starsGenerated < NUM_AMBIENT_STARS ==> shootingStars == old(shootingStars)
        invariant simService.loadingProgress == ProgressText(starsGenerated)
        invariant starsGenerated == NUM_AMBIENT_STARS ==>
          && |shootingStars| == old(|shootingStars|) + NUM_SHOOTING_STARS
          && shootingStars[..old(|shootingStars|)] == old(shootingStars)
          && forall k :: old(|shootingStars|) <= k < |shootingStars| ==> shootingStars[k].State() == Dormant
        decreases NUM_AMBIENT_STARS - starsGenerated
      {
        ghost var before := ambientStars;
        starsGenerated := GenerateBatch(starsGenerated, seeds);
        assert ambientStars[..old(|ambientStars|)] == before[..old(|ambientStars|)];
        batches := batches + 1;
      }
      ProgressTextAtEnd();
    }

    /**
     * `startRecording`: clears the chunk buffer, then either sets the recorder up with the
     * preferred MIME type or, when capture or recorder set-up throws, puts the shared state back to idle.
     */
    method StartRecording(setupThrows: bool, mp4CodecsSupported: bool, mp4Supported: bool)
      modifies this`recorder, this`videoChunks, simService`recordingState
      ensures videoChunks == []
      ensures setupThrows ==> recorder == old(recorder) && simService.recordingState == Idle
      ensures !setupThrows ==> recorder == Active(MimeType(mp4CodecsSupported, mp4Supported))
      ensures !setupThrows ==> simService.recordingState == old(simService.recordingState)
    {
      videoChunks := [];
      if setupThrows {
        simService.recordingState := Idle;
        return;
      }
      var mimeType := MimeType(mp4CodecsSupported, mp4Supported);
      recorder := Active(mimeType);
    }

    /**
     * The component's reaction to a change of the shared recording state: a request to record
     * starts a recorder only when none exists, and a return to idle stops a recorder that is still
     * recording; any other combination leaves everything as it was.
     */
    method OnRecordingStateChange(setupThrows: bool, mp4CodecsSupported: bool, mp4Supported: bool)
      modifies this`recorder, this`videoChunks, simService`recordingState
      ensures old(simService.recordingState) == Recording && old(recorder) == NoRecorder ==>
        && videoChunks == []
        && (setupThrows ==> recorder == NoRecorder && simService.recordingState == Idle)
        && (!setupThrows ==> recorder == Active(MimeType(mp4CodecsSupported, mp4Supported))
                             && simService.recordingState == Recording)
      ensures old(simService.recordingState) == Idle && old(recorder).Active? ==>
        recorder == Stopping(old(recorder).mimeType) && videoChunks == old(videoChunks)
        && simService.recordingState == Idle
      ensures !(old(simService.recordingState) == Recording && old(recorder) == NoRecorder) &&
              !(old(simService.recordingState) == Idle && old(recorder).Active?) ==>
        recorder == old(recorder) && videoChunks == old(videoChunks)
        && simService.recordingState == old(simService.recordingState)
    {
      var state := simService.recordingState;
      if state == Recording && recorder == NoRecorder {
        StartRecording(setupThrows, mp4CodecsSupported, mp4Supported);
      } else if state == Idle && recorder.Active? {
        StopRecording();
      }
    }

    /** A non-empty chunk from the encoder is appended; empty ones are dropped. */
    method OnDataAvailable(size: nat)
      modifies this`videoChunks
      ensures videoChunks == if size > 0 then old(videoChunks) + [size] else old(videoChunks)
    {
      if size > 0 {
        videoChunks := videoChunks + [size];
      }
    }

    /** `stopRecording` (explicit or at the 30 s timeout): only a recorder still running is asked to stop. */
    method StopRecording()
      modifies this`recorder
      ensures old(recorder).Active? ==> recorder == Stopping(old(recorder).mimeType)
      ensures !old(recorder).Active? ==> recorder == old(recorder)
    {
      if recorder.Active? {
        recorder := Stopping(recorder.mimeType);
      }
    }

    /** The recorder's `onstop`: one file is saved under the name its MIME type picks, and the state returns to idle. */
    method OnStop()
      requires recorder != NoRecorder
      modifies this`recorder, this`downloads, simService`recordingState
      ensures downloads == old(downloads) + [DownloadName(old(recorder).mimeType)]
      ensures recorder == NoRecorder && simService.recordingState == Idle
    {
      var mimeType := recorder.mimeType;
      downloads := downloads + [DownloadName(mimeType)];
      simService.recordingState := Idle;
      recorder := NoRecorder;
    }
  }
}
