/**
 * Adaptive graphics quality: the tier classifier, the settings table derived
 * from a tier, the fallback rules of the WebGL probe, the frame-time monitor
 * that moves the tier one step at a time, and the controller glue that keeps
 * the settings in step with the tier and the display.
 */
module DeviceCapabilities {
  import opened Wrappers

  // ---------------------------------------------------------------------------
  // Data model
  // ---------------------------------------------------------------------------

  datatype Tier = Low | Medium | High | Ultra

  /** Position of a tier in the order low < medium < high < ultra. */
  function Rank(t: Tier): nat {
    match t
    case Low => 0
    case Medium => 1
    case High => 2
    case Ultra => 3
  }

  /** Two tiers one step apart. */
  predicate Adjacent(a: Tier, b: Tier) {
    Rank(a) == Rank(b) + 1 || Rank(b) == Rank(a) + 1
  }

  datatype DeviceFeatures = DeviceFeatures(
    webgl2: bool,
    instancing: bool,
    floatTextures: bool,
    maxTextureSize: int)

  datatype DisplayInfo = DisplayInfo(
    width: int,
    height: int,
    pixelRatio: real,
    isRetina: bool,
    isMobile: bool)

  datatype GraphicsSettings = GraphicsSettings(
    pixelRatio: real,
    shadowMapSize: int,
    antialias: bool,
    planetSegments: int,
    planetTextureSize: int,
    enableBumpMap: bool,
    enableAtmosphere: bool,
    enableRings: bool,
    enableMoons: bool,
    enableBloom: bool,
    enableSSAO: bool,
    bloomIntensity: real,
    enableLensFlare: bool,
    enableVolumetricLighting: bool,
    starCount: int,
    asteroidCount: int,
    debrisCount: int,
    cometCount: int,
    shootingStarCount: int,
    enablePixelation: bool,
    pixelationLevel: int,
    enableChromaticAberration: bool,
    enableNoise: bool,
    noiseIntensity: real,
    enableSmoothCamera: bool,
    cameraLerpSpeed: real,
    enableParticleTrails: bool,
    maxLodDistance: int,
    frustumCulling: bool,
    instancedRendering: bool)

  datatype DeviceCapabilities = DeviceCapabilities(
    tier: Tier,
    features: DeviceFeatures,
    display: DisplayInfo,
    settings: GraphicsSettings)

  // ---------------------------------------------------------------------------
  // Settings deriver
  // ---------------------------------------------------------------------------

  /** `Math.min(max, Math.max(min, value))` */
  function Clamp(value: real, lo: real, hi: real): (r: real)
    ensures r <= hi
    ensures lo <= hi ==> lo <= r
    ensures lo <= value <= hi ==> r == value
    ensures hi <= value ==> r == hi
    ensures value <= lo <= hi ==> r == lo
  {
    var m := if lo < value then value else lo;
    if hi < m then hi else m
  }

  /** Device-pixel-ratio cap of a tier. */
  function DprCap(tier: Tier): real {
    match tier
    case Ultra => 2.0
    case High => 1.75
    case Medium => 1.35
    case Low => 1.1
  }

  /** Planet texture size a tier asks for before the hardware limit. */
  function TextureBase(tier: Tier): int {
    match tier
    case Ultra => 512
    case High => 384
    case Medium => 256
    case Low => 192
  }

  /** Picks the value for `tier` out of the four per-tier constants. */
  function ByTier<T>(tier: Tier, ultra: T, high: T, medium: T, low: T): T {
    match tier
    case Ultra => ultra
    case High => high
    case Medium => medium
    case Low => low
  }

  predicate HighOrUltra(tier: Tier) {
    tier == High || tier == Ultra
  }

  function GetSettingsForTier(tier: Tier, features: DeviceFeatures, display: DisplayInfo): (s: GraphicsSettings)
    // resolution scale: at least 1, never above the tier cap, the display's own ratio when it fits
    ensures 1.0 <= s.pixelRatio <= DprCap(tier)
    ensures 1.0 <= display.pixelRatio <= DprCap(tier) ==> s.pixelRatio == display.pixelRatio
    ensures display.pixelRatio >= 1.0 ==> s.pixelRatio <= display.pixelRatio
    ensures display.pixelRatio >= DprCap(tier) ==> s.pixelRatio == DprCap(tier)
    ensures display.pixelRatio <= 1.0 ==> s.pixelRatio == 1.0
    // texture resolution never exceeds what the hardware supports
    ensures s.planetTextureSize <= features.maxTextureSize
    ensures s.planetTextureSize <= TextureBase(tier)
    ensures s.planetTextureSize == TextureBase(tier) || s.planetTextureSize == features.maxTextureSize
    // effect toggles gated by tier
    ensures s.enableBloom <==> HighOrUltra(tier)
    ensures s.enableBumpMap <==> HighOrUltra(tier)
    ensures s.enableParticleTrails <==> HighOrUltra(tier)
    ensures s.antialias <==> tier == Ultra
    ensures s.enableMoons <==> tier != Low
    ensures s.enableChromaticAberration <==> tier != Low
    ensures s.enableNoise <==> tier != Low
    ensures s.bloomIntensity == 0.0 <==> !s.enableBloom
    ensures s.noiseIntensity == 0.0 <==> !s.enableNoise
    // always on / always off
    ensures s.enableAtmosphere && s.enableRings && s.enablePixelation && s.enableSmoothCamera && s.frustumCulling
    ensures !s.enableSSAO && !s.enableLensFlare && !s.enableVolumetricLighting
    ensures s.instancedRendering == features.instancing
  {
    var dprCap := DprCap(tier);
    var pixelRatio := Clamp(display.pixelRatio, 1.0, dprCap);
    var maxTex := features.maxTextureSize;
    var texBase := TextureBase(tier);
    var planetTextureSize := if maxTex < texBase then maxTex else texBase;
    var enableBloom := tier == Ultra || tier == High;
    GraphicsSettings(
      pixelRatio := pixelRatio,
      shadowMapSize := ByTier(tier, 2048, 1024, 512, 256),
      antialias := tier == Ultra,
      planetSegments := ByTier(tier, 64, 56, 44, 32),
      planetTextureSize := planetTextureSize,
      enableBumpMap := tier == Ultra || tier == High,
      enableAtmosphere := true,
      enableRings := true,
      enableMoons := tier != Low,
      enableBloom := enableBloom,
      enableSSAO := false,
      bloomIntensity := if enableBloom then (if tier == Ultra then 0.85 else 0.65) else 0.0,
      enableLensFlare := false,
      enableVolumetricLighting := false,
      starCount := ByTier(tier, 5000, 3800, 2400, 1400),
      asteroidCount := ByTier(tier, 220, 140, 85, 50),
      debrisCount := ByTier(tier, 90, 60, 35, 20),
      cometCount := ByTier(tier, 5, 3, 2, 1),
      shootingStarCount := ByTier(tier, 14, 10, 6, 4),
      enablePixelation := true,
      pixelationLevel := ByTier(tier, 4, 5, 6, 7),
      enableChromaticAberration := tier != Low,
      enableNoise := tier != Low,
      noiseIntensity := ByTier(tier, 0.045, 0.05, 0.055, 0.0),
      enableSmoothCamera := true,
      cameraLerpSpeed := ByTier(tier, 0.07, 0.06, 0.055, 0.05),
      enableParticleTrails := tier == Ultra || tier == High,
      maxLodDistance := ByTier(tier, 360, 320, 280, 240),
      frustumCulling := true,
      instancedRendering := features.instancing)
  }

  /** A higher tier never gets a smaller budget, and never a coarser pixelation. */
  lemma SettingsMonotoneInTier(a: Tier, b: Tier, features: DeviceFeatures, display: DisplayInfo)
    requires Rank(a) <= Rank(b)
    ensures var sa, sb := GetSettingsForTier(a, features, display), GetSettingsForTier(b, features, display);
      && sa.shadowMapSize <= sb.shadowMapSize
      && sa.planetSegments <= sb.planetSegments
      && sa.planetTextureSize <= sb.planetTextureSize
      && sa.starCount <= sb.starCount
      && sa.asteroidCount <= sb.asteroidCount
      && sa.debrisCount <= sb.debrisCount
      && sa.cometCount <= sb.cometCount
      && sa.shootingStarCount <= sb.shootingStarCount
      && sa.maxLodDistance <= sb.maxLodDistance
      && sa.pixelRatio <= sb.pixelRatio
      && sa.pixelationLevel >= sb.pixelationLevel
      && sa.cameraLerpSpeed <= sb.cameraLerpSpeed
  {
    match a
    case Low =>
    case Medium =>
    case High =>
    case Ultra =>
  }

  /**
   * The settings see the display only through its pixel ratio, and the
   * features only through the texture limit and instancing support.
   */
  lemma SettingsInputDependence(tier: Tier, f1: DeviceFeatures, f2: DeviceFeatures, d1: DisplayInfo, d2: DisplayInfo)
    requires d1.pixelRatio == d2.pixelRatio
    requires f1.maxTextureSize == f2.maxTextureSize && f1.instancing == f2.instancing
    ensures GetSettingsForTier(tier, f1, d1) == GetSettingsForTier(tier, f2, d2)
  {
  }

  /** A display ratio below 1 is raised to 1: the scale can exceed the display's own ratio. */
  lemma PixelRatioFloorIsOne(tier: Tier, features: DeviceFeatures, display: DisplayInfo)
    requires display.pixelRatio < 1.0
    ensures GetSettingsForTier(tier, features, display).pixelRatio == 1.0
    ensures GetSettingsForTier(tier, features, display).pixelRatio > display.pixelRatio
  {
  }

  // ---------------------------------------------------------------------------
  // Feature probe fallbacks
  // ---------------------------------------------------------------------------

  /**
   * What probing the host's graphics API found. The probe itself (creating a
   * canvas, asking for contexts, parameters and extensions) happens outside the
   * model; only its answers are inputs here.
   */
  datatype Probe =
    | NoDocument                        // rendering outside a browser
    | NoContext                         // neither webgl2 nor webgl available
    | Context(isWebgl2: bool,           // the webgl2 context was obtained
              maxTextureParam: int,     // MAX_TEXTURE_SIZE, 0 when falsy
              angleInstancedArrays: bool,
              textureFloat: bool,
              textureHalfFloat: bool)

  function GetWebGLCaps(probe: Probe): (f: DeviceFeatures)
    ensures probe.NoDocument? ==> f == DeviceFeatures(false, false, false, 2048)
    ensures probe.NoContext? ==> f == DeviceFeatures(false, false, false, 1024)
    ensures f.webgl2 <==> probe.Context? && probe.isWebgl2
    ensures f.webgl2 ==> f.instancing && f.floatTextures
    ensures probe.Context? && !probe.isWebgl2 ==>
      (f.instancing <==> probe.angleInstancedArrays) &&
      (f.floatTextures <==> probe.textureFloat || probe.textureHalfFloat)
    ensures probe.Context? ==> f.maxTextureSize == (if probe.maxTextureParam == 0 then 2048 else probe.maxTextureParam)
    ensures f.maxTextureSize != 0
  {
    match probe
    case NoDocument => DeviceFeatures(false, false, false, 2048)
    case NoContext => DeviceFeatures(false, false, false, 1024)
    case Context(gl2, maxParam, angle, texFloat, texHalf) =>
      var maxTextureSize := if maxParam == 0 then 2048 else maxParam;
      var instancing := gl2 || angle;
      var floatTextures := if gl2 then true else texFloat || texHalf;
      DeviceFeatures(gl2, instancing, floatTextures, maxTextureSize)
  }

  // ---------------------------------------------------------------------------
  // Tier classifier
  // ---------------------------------------------------------------------------

  /** Memory is known (non-zero) and at most 4 GB. */
  predicate LowMemory(memGB: real) {
    memGB > 0.0 && memGB <= 4.0
  }

  predicate QualifiesForUltra(isMobile: bool, webgl2: bool, cores: int, memGB: real, maxTextureSize: int) {
    !isMobile && webgl2 && cores >= 10 && (memGB >= 8.0 || memGB == 0.0) && maxTextureSize >= 4096
  }

  /**
   * The heuristic of the capability detector, lifted out as a pure function.
   * The rules run in order and each later rule may overwrite the tier an
   * earlier one chose.
   */
  function ClassifyTier(isMobile: bool, webgl2: bool, cores: int, memGB: real, maxTextureSize: int): (tier: Tier)
    // forced-low cases
    ensures LowMemory(memGB) ==> tier == Low
    ensures isMobile ==> tier == Low
    ensures !webgl2 ==> tier == Low
    // what each outcome requires
    ensures tier == Ultra <==> QualifiesForUltra(isMobile, webgl2, cores, memGB, maxTextureSize) && !LowMemory(memGB)
    ensures tier == High <==>
      !isMobile && webgl2 && cores >= 8 && !LowMemory(memGB) &&
      !QualifiesForUltra(isMobile, webgl2, cores, memGB, maxTextureSize)
    ensures tier == Medium <==> !isMobile && webgl2 && cores < 8 && !LowMemory(memGB)
  {
    var t0 := Medium;
    var t1 := if isMobile then Low else t0;
    var t2 := if !webgl2 then Low else t1;
    var t3 := if !isMobile && webgl2 && cores >= 8 then High else t2;
    var t4 := if QualifiesForUltra(isMobile, webgl2, cores, memGB, maxTextureSize) then Ultra else t3;
    if LowMemory(memGB) then Low else t4
  }

  /** A mobile device never gets a higher tier than the same device on the desktop. */
  lemma MobileNeverHigher(webgl2: bool, cores: int, memGB: real, maxTextureSize: int)
    ensures Rank(ClassifyTier(true, webgl2, cores, memGB, maxTextureSize))
         <= Rank(ClassifyTier(false, webgl2, cores, memGB, maxTextureSize))
  {
  }

  /**
   * Unknown memory (0) is the most permissive reading: any known amount gives
   * the same tier or a lower one.
   */
  lemma UnknownMemoryNeverDowngrades(isMobile: bool, webgl2: bool, cores: int, memGB: real, maxTextureSize: int)
    ensures Rank(ClassifyTier(isMobile, webgl2, cores, memGB, maxTextureSize))
         <= Rank(ClassifyTier(isMobile, webgl2, cores, 0.0, maxTextureSize))
  {
  }

  lemma ClassifierScenarios()
    ensures ClassifyTier(false, true, 12, 16.0, 8192) == Ultra
    ensures ClassifyTier(false, true, 12, 3.0, 8192) == Low
    ensures ClassifyTier(true, true, 12, 16.0, 8192) == Low
  {
  }

  // ---------------------------------------------------------------------------
  // Capability detection
  // ---------------------------------------------------------------------------

  /** Host window metrics; `devicePixelRatio` is 0 when the host reports none. */
  datatype HostWindow = HostWindow(innerWidth: int, innerHeight: int, devicePixelRatio: real)

  /**
   * Host navigator metadata. `userAgentMobile` is the outcome of the
   * user-agent pattern test; `hardwareConcurrency` is 0 when not reported.
   */
  datatype HostNavigator = HostNavigator(userAgentMobile: bool, deviceMemory: Option<real>, hardwareConcurrency: int)

  datatype Environment = Environment(probe: Probe, window: Option<HostWindow>, navigator: Option<HostNavigator>)

  /** `devicePixelRatio || 1` */
  function PixelRatioOf(w: HostWindow): (r: real)
    ensures r != 0.0
    ensures w.devicePixelRatio != 0.0 ==> r == w.devicePixelRatio
    ensures w.devicePixelRatio == 0.0 ==> r == 1.0
  {
    if w.devicePixelRatio == 0.0 then 1.0 else w.devicePixelRatio
  }

  function DisplayOf(env: Environment): (d: DisplayInfo)
    ensures env.window.None? ==> d == DisplayInfo(1280, 720, 1.0, false, false)
    ensures env.window.Some? ==>
      && d.width == env.window.value.innerWidth
      && d.height == env.window.value.innerHeight
      && d.pixelRatio == PixelRatioOf(env.window.value)
    ensures d.pixelRatio != 0.0
    ensures d.isRetina <==> d.pixelRatio > 1.0
    ensures env.window.Some? ==>
      (d.isMobile <==> env.window.value.innerWidth < 768 || (env.navigator.Some? && env.navigator.value.userAgentMobile))
  {
    match env.window
    case None => DisplayInfo(1280, 720, 1.0, false, false)
    case Some(w) =>
      var pixelRatio := PixelRatioOf(w);
      var uaMobile := env.navigator.Some? && env.navigator.value.userAgentMobile;
      DisplayInfo(w.innerWidth, w.innerHeight, pixelRatio, pixelRatio > 1.0, uaMobile || w.innerWidth < 768)
  }

  /** Device memory in GB; 0 stands for unknown. */
  function MemoryOf(env: Environment): (m: real)
    ensures env.navigator.None? ==> m == 0.0
    ensures env.navigator.Some? ==> m == env.navigator.value.deviceMemory.GetOr(0.0)
  {
    match env.navigator
    case None => 0.0
    case Some(n) => n.deviceMemory.GetOr(0.0)
  }

  /** Logical core count; 4 when not reported. */
  function CoresOf(env: Environment): (c: int)
    ensures c != 0
    ensures c == (if env.navigator.None? || env.navigator.value.hardwareConcurrency == 0 then 4
                  else env.navigator.value.hardwareConcurrency)
  {
    match env.navigator
    case None => 4
    case Some(n) => if n.hardwareConcurrency == 0 then 4 else n.hardwareConcurrency
  }

  function DetectDeviceCapabilities(env: Environment): (caps: DeviceCapabilities)
    ensures caps.features == GetWebGLCaps(env.probe)
    ensures caps.display == DisplayOf(env)
    ensures caps.tier == ClassifyTier(caps.display.isMobile, caps.features.webgl2, CoresOf(env), MemoryOf(env), caps.features.maxTextureSize)
    ensures caps.settings == GetSettingsForTier(caps.tier, caps.features, caps.display)
    ensures env.probe.NoDocument? || env.probe.NoContext? ==> caps.tier == Low
  {
    var features := GetWebGLCaps(env.probe);
    var display := DisplayOf(env);
    var tier := ClassifyTier(display.isMobile, features.webgl2, CoresOf(env), MemoryOf(env), features.maxTextureSize);
    DeviceCapabilities(tier, features, display, GetSettingsForTier(tier, features, display))
  }

  // ---------------------------------------------------------------------------
  // Frame monitor: specification
  // ---------------------------------------------------------------------------

  const WINDOW_MS: int := 4000
  const MIN_CHANGE_INTERVAL_MS: int := 9000

  datatype Sample = Sample(t: int, dt: int)

  /** The monitor's fields, as one value. */
  datatype MonitorState = MonitorState(samples: seq<Sample>, lastFrameTime: int, currentTier: Tier, lastChangeAt: int)

  function InitialState(initialTier: Tier): MonitorState {
    MonitorState([], 0, initialTier, 0)
  }

  /** Shifts samples off the front while the front one is older than `cutoff`. */
  function DropBefore(s: seq<Sample>, cutoff: int): (r: seq<Sample>)
    ensures |r| <= |s|
    ensures r != [] ==> r[0].t >= cutoff
    decreases |s|
  {
    if |s| > 0 && s[0].t < cutoff then DropBefore(s[1..], cutoff) else s
  }

  /** Trimming removes a prefix, and everything it removes is older than the cutoff. */
  lemma {:induction false} DropBeforeIsSuffix(s: seq<Sample>, cutoff: int)
    ensures var r := DropBefore(s, cutoff);
      && r == s[|s| - |r|..]
      && forall i :: 0 <= i < |s| - |r| ==> s[i].t < cutoff
    decreases |s|
  {
    if |s| > 0 && s[0].t < cutoff {
      DropBeforeIsSuffix(s[1..], cutoff);
    }
  }

  function SumDt(s: seq<Sample>): int {
    if s == [] then 0 else s[0].dt + SumDt(s[1..])
  }

  function Max1(n: int): int {
    if n < 1 then 1 else n
  }

  /**
   * The average frame rate over the window is below `k`. With
   * avg = sum / max(1, count) and fps = 1000 / avg (60 when avg <= 0), the
   * comparison is exact over integers after cross-multiplying.
   */
  predicate FpsBelow(sum: int, count: int, k: int) {
    if sum > 0 then 1000 * Max1(count) < k * sum else 60 < k
  }

  predicate FpsAbove(sum: int, count: int, k: int) {
    if sum > 0 then 1000 * Max1(count) > k * sum else 60 > k
  }

  predicate Downgrades(tier: Tier, sum: int, count: int) {
    (FpsBelow(sum, count, 38) && (tier == Ultra || tier == High)) ||
    (FpsBelow(sum, count, 30) && tier == Medium)
  }

  predicate Upgrades(tier: Tier, sum: int, count: int) {
    (FpsAbove(sum, count, 56) && tier == Medium) ||
    (FpsAbove(sum, count, 58) && tier == High)
  }

  /** The tier the decision rules ask for, if any. */
  function Decide(tier: Tier, sum: int, count: int): (r: Option<Tier>)
    ensures r.Some? ==> Adjacent(tier, r.value)
    ensures r.Some? && Rank(r.value) < Rank(tier) <==> Downgrades(tier, sum, count)
    ensures r.Some? && Rank(r.value) > Rank(tier) <==> Upgrades(tier, sum, count) && !Downgrades(tier, sum, count)
    ensures r.None? <==> !Downgrades(tier, sum, count) && !Upgrades(tier, sum, count)
    ensures tier == Low ==> r.None?
  {
    if FpsBelow(sum, count, 38) && (tier == Ultra || tier == High) then Some(if tier == Ultra then High else Medium)
    else if FpsBelow(sum, count, 30) && tier == Medium then Some(Low)
    else if FpsAbove(sum, count, 56) && tier == Medium then Some(High)
    else if FpsAbove(sum, count, 58) && tier == High then Some(Ultra)
    else None
  }

  /** `setTier`: only a real change moves the tier and restarts the cooldown. */
  function SetTierState(st: MonitorState, next: Tier, nowMs: int): MonitorState {
    if next == st.currentTier then st else st.(currentTier := next, lastChangeAt := nowMs)
  }

  /** The sample buffer after pushing the frame at `nowMs` and trimming to the last four seconds. */
  function NewWindow(st: MonitorState, nowMs: int): seq<Sample> {
    DropBefore(st.samples + [Sample(nowMs, nowMs - st.lastFrameTime)], nowMs - WINDOW_MS)
  }

  /** Records the frame delta and trims the window. */
  function PushAndTrim(st: MonitorState, nowMs: int): MonitorState {
    st.(samples := NewWindow(st, nowMs), lastFrameTime := nowMs)
  }

  /** Applies the decision rules to the current window. */
  function Evaluate(st: MonitorState, nowMs: int): MonitorState {
    match Decide(st.currentTier, SumDt(st.samples), |st.samples|)
    case None => st
    case Some(next) => SetTierState(st, next, nowMs)
  }

  /** One `recordFrame(nowMs)` call. */
  function Step(st: MonitorState, nowMs: int): MonitorState {
    if st.lastFrameTime == 0 then st.(lastFrameTime := nowMs)
    else
      var st1 := PushAndTrim(st, nowMs);
      if nowMs - st.lastChangeAt < MIN_CHANGE_INTERVAL_MS then st1 else Evaluate(st1, nowMs)
  }

  predicate Changed(before: MonitorState, after: MonitorState) {
    after.currentTier != before.currentTier
  }

  // ---------------------------------------------------------------------------
  // Frame monitor: properties of one call
  // ---------------------------------------------------------------------------

  /** The very first frame only records its timestamp. */
  lemma FirstFrameOnlyStoresTime(st: MonitorState, nowMs: int)
    requires st.lastFrameTime == 0
    ensures Step(st, nowMs) == st.(lastFrameTime := nowMs)
  {
  }

  /** During the cooldown nothing about the tier changes. */
  lemma HysteresisGate(st: MonitorState, nowMs: int)
    requires nowMs - st.lastChangeAt < MIN_CHANGE_INTERVAL_MS
    ensures Step(st, nowMs).currentTier == st.currentTier
    ensures Step(st, nowMs).lastChangeAt == st.lastChangeAt
  {
  }

  /**
   * A change moves exactly one step, happens only after the cooldown, and
   * restarts it; without a change the cooldown start stays put.
   */
  lemma StepMovesOneTier(st: MonitorState, nowMs: int)
    ensures var r := Step(st, nowMs);
      && (Changed(st, r) ==> Adjacent(st.currentTier, r.currentTier))
      && (Changed(st, r) ==> nowMs - st.lastChangeAt >= MIN_CHANGE_INTERVAL_MS && st.lastFrameTime != 0)
      && r.lastChangeAt == (if Changed(st, r) then nowMs else st.lastChangeAt)
  {
  }

  /** The monitor never upgrades from low. */
  lemma LowIsNeverUpgraded(st: MonitorState, nowMs: int)
    requires st.currentTier == Low
    ensures Step(st, nowMs).currentTier == Low
  {
  }

  lemma EvaluateKeepsWindow(st: MonitorState, nowMs: int)
    ensures Evaluate(st, nowMs).samples == st.samples
    ensures Evaluate(st, nowMs).lastFrameTime == st.lastFrameTime
  {
  }

  /** Whatever the decision, a later call leaves the pushed-and-trimmed window. */
  lemma StepWindow(st: MonitorState, nowMs: int)
    requires st.lastFrameTime != 0
    ensures Step(st, nowMs).samples == NewWindow(st, nowMs)
    ensures Step(st, nowMs).lastFrameTime == nowMs
  {
    EvaluateKeepsWindow(PushAndTrim(st, nowMs), nowMs);
  }

  predicate SortedByTime(s: seq<Sample>) {
    forall i, j :: 0 <= i < j < |s| ==> s[i].t <= s[j].t
  }

  /** Samples are in time order and none is newer than the last frame. */
  predicate Ordered(st: MonitorState) {
    SortedByTime(st.samples) && forall i :: 0 <= i < |st.samples| ==> st.samples[i].t <= st.lastFrameTime
  }

  /** Trimming never removes the sample just pushed, which is not older than the cutoff. */
  lemma TrimKeepsNewest(s: seq<Sample>, x: Sample, cutoff: int)
    requires x.t >= cutoff
    ensures var w := DropBefore(s + [x], cutoff); w != [] && w[|w| - 1] == x
  {
    var p := s + [x];
    DropBeforeIsSuffix(p, cutoff);
    assert p[|p| - 1] == x;
  }

  /** Trimming a time-ordered buffer leaves a time-ordered buffer of recent samples only. */
  lemma {:induction false} TrimSorted(s: seq<Sample>, cutoff: int, newest: int)
    requires SortedByTime(s)
    requires forall i :: 0 <= i < |s| ==> s[i].t <= newest
    ensures var w := DropBefore(s, cutoff);
      SortedByTime(w) && forall i :: 0 <= i < |w| ==> cutoff <= w[i].t <= newest
    decreases |s|
  {
    if |s| > 0 && s[0].t < cutoff {
      var tail := s[1..];
      assert forall i :: 0 <= i < |tail| ==> tail[i] == s[i + 1];
      TrimSorted(tail, cutoff, newest);
    } else if |s| > 0 {
      assert forall i :: 0 <= i < |s| ==> s[0].t <= s[i].t;
    }
  }

  lemma PushKeepsSorted(s: seq<Sample>, x: Sample)
    requires SortedByTime(s)
    requires forall i :: 0 <= i < |s| ==> s[i].t <= x.t
    ensures SortedByTime(s + [x])
    ensures forall i :: 0 <= i < |s| + 1 ==> (s + [x])[i].t <= x.t
  {
  }

  lemma TrimPushed(s: seq<Sample>, x: Sample, cutoff: int)
    requires SortedByTime(s)
    requires forall i :: 0 <= i < |s| ==> s[i].t <= x.t
    ensures var w := DropBefore(s + [x], cutoff);
      SortedByTime(w) && forall i :: 0 <= i < |w| ==> cutoff <= w[i].t <= x.t
  {
    PushKeepsSorted(s, x);
    TrimSorted(s + [x], cutoff, x.t);
  }

  /** The new sample survives the trim, and the window starts inside the last four seconds. */
  lemma PushAndTrimNewest(st: MonitorState, nowMs: int)
    ensures var w := NewWindow(st, nowMs);
      && w != []
      && w[|w| - 1] == Sample(nowMs, nowMs - st.lastFrameTime)
      && w[0].t >= nowMs - WINDOW_MS
  {
    var x := Sample(nowMs, nowMs - st.lastFrameTime);
    TrimKeepsNewest(st.samples, x, nowMs - WINDOW_MS);
  }

  /** With timestamps that do not go backwards, the trimmed window is ordered and recent. */
  lemma PushAndTrimOrdered(st: MonitorState, nowMs: int)
    requires Ordered(st) && nowMs >= st.lastFrameTime
    ensures var w := NewWindow(st, nowMs);
      SortedByTime(w) && forall i :: 0 <= i < |w| ==> nowMs - WINDOW_MS <= w[i].t <= nowMs
  {
    var x := Sample(nowMs, nowMs - st.lastFrameTime);
    TrimPushed(st.samples, x, nowMs - WINDOW_MS);
  }

  /**
   * After any call but the first, the window holds the new sample last; with
   * timestamps that do not go backwards it stays ordered and holds only
   * samples from the last four seconds.
   */
  lemma StepKeepsWindow(st: MonitorState, nowMs: int)
    requires st.lastFrameTime != 0
    ensures var r := Step(st, nowMs);
      && r.samples != []
      && r.samples[|r.samples| - 1] == Sample(nowMs, nowMs - st.lastFrameTime)
      && r.samples[0].t >= nowMs - WINDOW_MS
      && r.lastFrameTime == nowMs
    ensures Ordered(st) && nowMs >= st.lastFrameTime ==>
      var r := Step(st, nowMs);
      Ordered(r) && forall i :: 0 <= i < |r.samples| ==> r.samples[i].t >= nowMs - WINDOW_MS
  {
    StepWindow(st, nowMs);
    PushAndTrimNewest(st, nowMs);
    if Ordered(st) && nowMs >= st.lastFrameTime {
      PushAndTrimOrdered(st, nowMs);
    }
  }

  /**
   * A recorded frame, past the cooldown, whose trimmed window averages 40 ms
   * per frame moves a medium monitor to low and restarts the cooldown.
   */
  lemma TwentyFiveFpsStepsMediumToLow(st: MonitorState, nowMs: int)
    requires st.currentTier == Medium && st.lastFrameTime != 0
    requires nowMs - st.lastChangeAt >= MIN_CHANGE_INTERVAL_MS
    requires SumDt(NewWindow(st, nowMs)) == 40 * |NewWindow(st, nowMs)|
    ensures Step(st, nowMs).currentTier == Low
    ensures Step(st, nowMs).lastChangeAt == nowMs
    ensures Step(st, nowMs).samples == NewWindow(st, nowMs)
  {
    PushAndTrimNewest(st, nowMs);
    var n := |NewWindow(st, nowMs)|;
    assert Decide(Medium, 40 * n, n) == Some(Low);
  }

  // ---------------------------------------------------------------------------
  // Frame monitor: runs of calls
  // ---------------------------------------------------------------------------

  /** The state after feeding the frames in order. */
  function Run(st: MonitorState, frames: seq<int>): MonitorState
    decreases |frames|
  {
    if frames == [] then st else Run(Step(st, frames[0]), frames[1..])
  }

  /** How many of the calls changed the tier (fired the callback). */
  function ChangeCount(st: MonitorState, frames: seq<int>): nat
    decreases |frames|
  {
    if frames == [] then 0
    else
      var next := Step(st, frames[0]);
      (if Changed(st, next) then 1 else 0) + ChangeCount(next, frames[1..])
  }

  lemma {:induction false} NoChangeDuringCooldown(st: MonitorState, frames: seq<int>)
    requires forall k :: 0 <= k < |frames| ==> frames[k] - st.lastChangeAt < MIN_CHANGE_INTERVAL_MS
    ensures ChangeCount(st, frames) == 0
    ensures Run(st, frames).currentTier == st.currentTier
    decreases |frames|
  {
    if frames != [] {
      HysteresisGate(st, frames[0]);
      var next := Step(st, frames[0]);
      assert forall k :: 0 <= k < |frames[1..]| ==> frames[1..][k] == frames[k + 1];
      NoChangeDuringCooldown(next, frames[1..]);
    }
  }

  /**
   * Frames that all fall within one 9-second span trigger at most one tier
   * change, however the frame rate moves across the thresholds.
   */
  lemma {:induction false} AtMostOneChangePerCooldown(st: MonitorState, frames: seq<int>, start: int)
    requires forall k :: 0 <= k < |frames| ==> start <= frames[k] < start + MIN_CHANGE_INTERVAL_MS
    ensures ChangeCount(st, frames) <= 1
    decreases |frames|
  {
    if frames != [] {
      var next := Step(st, frames[0]);
      var rest := frames[1..];
      assert forall k :: 0 <= k < |rest| ==> rest[k] == frames[k + 1];
      if Changed(st, next) {
        StepMovesOneTier(st, frames[0]);
        NoChangeDuringCooldown(next, rest);
      } else {
        AtMostOneChangePerCooldown(next, rest, start);
      }
    }
  }

  // ---------------------------------------------------------------------------
  // Frame monitor: the object
  // ---------------------------------------------------------------------------

  class PerformanceMonitor {
    var samples: seq<Sample>
    var lastFrameTime: int
    var currentTier: Tier
    var lastChangeAt: int
    /** The tiers passed to the `onTierChange` callback, oldest first. */
    var notified: seq<Tier>

    function State(): MonitorState
      reads this
    {
      MonitorState(samples, lastFrameTime, currentTier, lastChangeAt)
    }

    constructor(initialTier: Tier)
      ensures State() == InitialState(initialTier)
      ensures notified == []
    {
      samples := [];
      lastFrameTime := 0;
      currentTier := initialTier;
      lastChangeAt := 0;
      notified := [];
    }

    method SetTier(next: Tier, nowMs: int)
      modifies this
      ensures State() == SetTierState(old(State()), next, nowMs)
      ensures notified == if next == old(currentTier) then old(notified) else old(notified) + [next]
    {
      if next == currentTier {
        return;
      }
      currentTier := next;
      lastChangeAt := nowMs;
      notified := notified + [next];
    }

    method RecordFrame(nowMs: int)
      modifies this
      ensures State() == Step(old(State()), nowMs)
      ensures notified == if currentTier != old(currentTier) then old(notified) + [currentTier] else old(notified)
    {
      if lastFrameTime == 0 {
        lastFrameTime := nowMs;
        return;
      }

      var dt := nowMs - lastFrameTime;
      lastFrameTime := nowMs;

      var window := samples + [Sample(nowMs, dt)];

      // keep window
      var cutoff := nowMs - WINDOW_MS;
      ghost var pushed := window;
      while |window| > 0 && window[0].t < cutoff
        invariant DropBefore(window, cutoff) == DropBefore(pushed, cutoff)
        decreases |window|
      {
        window := window[1..];
      }
      samples := window;
      assert State() == PushAndTrim(old(State()), nowMs);

      if nowMs - lastChangeAt < MIN_CHANGE_INTERVAL_MS {
        return;
      }

      var sum := SumDt(samples);
      var count := |samples|;

      if FpsBelow(sum, count, 38) && (currentTier == Ultra || currentTier == High) {
        SetTier(if currentTier == Ultra then High else Medium, nowMs);
        return;
      }
      if FpsBelow(sum, count, 30) && currentTier == Medium {
        SetTier(Low, nowMs);
        return;
      }
      if FpsAbove(sum, count, 56) && currentTier == Medium {
        SetTier(High, nowMs);
        return;
      }
      if FpsAbove(sum, count, 58) && currentTier == High {
        SetTier(Ultra, nowMs);
        return;
      }
    }
  }

  // ---------------------------------------------------------------------------
  // Controller glue in the scene: settings always re-derived, never patched
  // ---------------------------------------------------------------------------

  class QualityController {
    var caps: DeviceCapabilities

    ghost predicate Valid()
      reads this
    {
      caps.settings == GetSettingsForTier(caps.tier, caps.features, caps.display)
    }

    constructor(env: Environment)
      ensures Valid()
      ensures caps == DetectDeviceCapabilities(env)
    {
      caps := DetectDeviceCapabilities(env);
    }

    /** Reaction to the monitor's callback. */
    method OnTierChange(newTier: Tier)
      modifies this
      ensures Valid()
      ensures caps.tier == newTier
      ensures caps.features == old(caps.features) && caps.display == old(caps.display)
    {
      caps := caps.(tier := newTier, settings := GetSettingsForTier(newTier, caps.features, caps.display));
    }

    /** Reaction to a window resize: new size and ratio, same mobile flag, tier and features. */
    method OnResize(w: HostWindow)
      modifies this
      ensures Valid()
      ensures caps.tier == old(caps.tier) && caps.features == old(caps.features)
      ensures caps.display == old(caps.display).(width := w.innerWidth, height := w.innerHeight,
                                                 pixelRatio := PixelRatioOf(w), isRetina := PixelRatioOf(w) > 1.0)
    {
      var display := caps.display.(width := w.innerWidth, height := w.innerHeight,
                                    pixelRatio := PixelRatioOf(w), isRetina := PixelRatioOf(w) > 1.0);
      caps := caps.(display := display, settings := GetSettingsForTier(caps.tier, caps.features, display));
    }
  }
}
