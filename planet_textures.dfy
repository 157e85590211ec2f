/**
 * Deterministic planet texture seeding: FNV-1a over a planet's name seeds a
 * xorshift32 stream, whose draws pick palette entries for the pixel-noise and
 * band patterns. Canvas drawing itself is outside the model; what is kept is
 * which palette and seed a planet gets, which draws happen in which order, and
 * which palette indices they produce.
 */
module PlanetTextures {
  import opened Wrappers
  import opened Arithmetic

  // ---------------------------------------------------------------------------
  // Small helpers
  // ---------------------------------------------------------------------------

  /** `Math.min(1, Math.max(0, v))` */
  function Clamp01(v: real): (r: real)
    ensures 0.0 <= r <= 1.0
    ensures 0.0 <= v <= 1.0 ==> r == v
    ensures v < 0.0 ==> r == 0.0
    ensures v > 1.0 ==> r == 1.0
  {
    var m := if 0.0 < v then v else 0.0;
    if 1.0 < m then 1.0 else m
  }

  /** JavaScript's `%` on integers: the remainder takes the sign of the dividend. */
  function JsRem(i: int, n: int): (r: int)
    requires n > 0
    ensures i >= 0 ==> r == i % n
    ensures -n < r < n
  {
    if i >= 0 then i % n else -((-i) % n)
  }

  /**
   * `arr[i % arr.length]`: undefined (None) for an empty array and for a
   * negative remainder; a remainder of -0 reads index 0.
   */
  function Pick<T>(arr: seq<T>, i: int): (r: Option<T>)
    ensures |arr| > 0 && i >= 0 ==> r == Some(arr[i % |arr|])
    ensures |arr| == 0 ==> r == None
    ensures |arr| > 0 && i < 0 && (-i) % |arr| == 0 ==> r == Some(arr[0])
    ensures |arr| > 0 && i < 0 && (-i) % |arr| != 0 ==> r == None
  {
    if |arr| == 0 then None
    else
      var k := JsRem(i, |arr|);
      if 0 <= k then Some(arr[k]) else None
  }

  /** `pick` repeats with period `arr.length`. */
  lemma PickPeriodic<T>(arr: seq<T>, i: int)
    requires |arr| > 0 && i >= 0
    ensures Pick(arr, i + |arr|) == Pick(arr, i)
    ensures Pick(arr, i).Some?
  {
    ModShift(i, |arr|);
  }

  // ---------------------------------------------------------------------------
  // xorshift32
  // ---------------------------------------------------------------------------

  /** One state update: `x ^= x << 13; x ^= x >>> 17; x ^= x << 5` on 32 bits. */
  function XorShift32(x: bv32): bv32 {
    var a := x ^ (x << 13);
    var b := a ^ (a >> 17);
    b ^ (b << 5)
  }

  /** `seed | 0`, as a bit pattern, for an integral seed. */
  function SeedBits(seed: int): bv32 {
    (seed % 0x1_0000_0000) as bv32
  }

  /** `(x >>> 0) % 10000`: the numerator of a draw. */
  function DrawNumerator(x: bv32): (k: nat)
    ensures k < 10000
  {
    (x as int) % 10000
  }

  /** The value a draw returns, `numerator / 10000`. */
  function DrawValue(x: bv32): (v: real)
    ensures 0.0 <= v < 1.0
  {
    DrawNumerator(x) as real / 10000.0
  }

  /** `Math.floor(v * m)` for a draw `v` of `a` ten-thousandths is integer floor division. */
  lemma FloorOfScaledDraw(v: real, a: int, m: int)
    requires v == a as real / 10000.0
    ensures (v * m as real).Floor == (a * m) / 10000
  {
    var q, r := (a * m) / 10000, (a * m) % 10000;
    assert (a * m) as real == a as real * m as real;
    assert v * m as real == q as real + r as real / 10000.0;
  }

  /** The generator state after `n` draws. */
  function StateAfter(x: bv32, n: nat): bv32 {
    if n == 0 then x else XorShift32(StateAfter(x, n - 1))
  }

  /** The numerators of the first `n` draws from state `x`. */
  function Draws(x: bv32, n: nat): (ks: seq<nat>)
    ensures |ks| == n
  {
    if n == 0 then [] else Draws(x, n - 1) + [DrawNumerator(StateAfter(x, n))]
  }

  /** Zero is a fixed point of the update. */
  lemma ZeroIsFixedPoint()
    ensures XorShift32(0) == 0
  {
  }

  /** A non-zero state never reaches zero: each of the three xor-shifts is injective. */
  lemma NonZeroStaysNonZero(x: bv32)
    requires x != 0
    ensures XorShift32(x) != 0
  {
    var a := x ^ (x << 13);
    assert a != 0;
    var b := a ^ (a >> 17);
    assert b != 0;
  }

  lemma {:induction false} NonZeroSeedNeverStalls(x: bv32, n: nat)
    requires x != 0
    ensures StateAfter(x, n) != 0
  {
    if n > 0 {
      NonZeroSeedNeverStalls(x, n - 1);
      NonZeroStaysNonZero(StateAfter(x, n - 1));
    }
  }

  /** Seed 0 yields 0 forever. */
  lemma {:induction false} ZeroSeedDrawsZeros(n: nat)
    ensures StateAfter(0, n) == 0
    ensures forall k :: 0 <= k < n ==> Draws(0, n)[k] == 0
  {
    if n > 0 {
      ZeroSeedDrawsZeros(n - 1);
    }
  }

  /** The closure returned by `rng(seed)`. */
  class Rng {
    var x: bv32

    constructor(seed: int)
      ensures x == SeedBits(seed)
    {
      x := SeedBits(seed);
    }

    method Next() returns (v: real)
      modifies this
      ensures x == XorShift32(old(x))
      ensures v == DrawValue(x)
    {
      x := XorShift32(x);
      v := DrawNumerator(x) as real / 10000.0;
    }

    /** A draw used as a palette index: `Math.floor(random() * len)`. */
    method NextIndex(len: nat) returns (k: nat)
      modifies this
      ensures x == XorShift32(old(x))
      ensures k == PaletteIndex(x, len)
    {
      var _ := Next();
      k := (DrawNumerator(x) * len) / 10000;
    }
  }

  // ---------------------------------------------------------------------------
  // FNV-1a name seed
  // ---------------------------------------------------------------------------

  const FNV_OFFSET_BASIS: bv32 := 2166136261
  const FNV_PRIME: bv32 := 16777619

  /** Every character lies below U+10000, as in every planet name. */
  predicate BasicPlane(s: string) {
    forall i | 0 <= i < |s| :: s[i] as int < 0x1_0000
  }

  /** A UTF-16 code unit, as `charCodeAt` returns it. */
  type CodeUnit = v: int | 0 <= v < 0x1_0000

  /** The code units of one character: itself below U+10000, else a surrogate pair. */
  function CodeUnits(c: char): (units: seq<CodeUnit>)
    ensures c as int < 0x1_0000 ==> units == [c as int]
    ensures c as int >= 0x1_0000 ==>
      && |units| == 2
      && 0xD800 <= units[0] < 0xDC00
      && 0xDC00 <= units[1] < 0xE000
      && 0x1_0000 + (units[0] as int - 0xD800) * 0x400 + (units[1] as int - 0xDC00) == c as int
  {
    var v := c as int;
    if v < 0x1_0000 then [v]
    else [0xD800 + (v - 0x1_0000) / 0x400, 0xDC00 + (v - 0x1_0000) % 0x400]
  }

  /** JavaScript strings are sequences of UTF-16 code units, encoded character by character. */
  function Utf16(s: string): (units: seq<CodeUnit>)
    ensures |units| >= |s|
    ensures BasicPlane(s) ==> |units| == |s| && forall i | 0 <= i < |s| :: units[i] == s[i] as int
  {
    if s == [] then []
    else
      assert BasicPlane(s) ==> BasicPlane(s[1..]);
      CodeUnits(s[0]) + Utf16(s[1..])
  }

  /** Encoding works character by character. */
  lemma {:induction false} Utf16Append(s: string, t: string)
    ensures Utf16(s + t) == Utf16(s) + Utf16(t)
    decreases |s|
  {
    if s != [] {
      assert (s + t)[0] == s[0];
      assert (s + t)[1..] == s[1..] + t;
      Utf16Append(s[1..], t);
      calc {
        Utf16(s + t);
        CodeUnits(s[0]) + Utf16(s[1..] + t);
        CodeUnits(s[0]) + (Utf16(s[1..]) + Utf16(t));
        (CodeUnits(s[0]) + Utf16(s[1..])) + Utf16(t);
      }
    } else {
      assert s + t == t;
    }
  }

  /**
   * A character from U+10000 up becomes a high surrogate followed by a low
   * surrogate, and the pair decodes back to the character.
   */
  lemma Utf16SurrogatePair(c: char)
    requires c as int >= 0x1_0000
    ensures var units := Utf16([c]);
      && |units| == 2
      && 0xD800 <= units[0] < 0xDC00
      && 0xDC00 <= units[1] < 0xE000
      && 0x1_0000 + (units[0] as int - 0xD800) * 0x400 + (units[1] as int - 0xDC00) == c as int
  {
    assert [c][1..] == [];
    assert Utf16([c]) == CodeUnits(c);
  }

  /** One FNV-1a round: xor in a code unit, then multiply by the prime modulo 2^32. */
  function FnvRound(h: bv32, unit: CodeUnit): bv32 {
    (h ^ (unit as bv32)) * FNV_PRIME
  }

  /** 32-bit FNV-1a over code units, in order. */
  function Fnv1a(units: seq<CodeUnit>): bv32 {
    if units == [] then FNV_OFFSET_BASIS
    else FnvRound(Fnv1a(units[..|units| - 1]), units[|units| - 1])
  }

  lemma BitsRange(h: bv32)
    ensures 0 <= h as int < 0x1_0000_0000
  {
  }

  lemma BitsRoundTrip(h: bv32)
    ensures (h as int) as bv32 == h
  {
  }

  /** An unsigned 32-bit value read as a signed int32. */
  function Signed32(v: int): (n: int)
    requires 0 <= v < 0x1_0000_0000
    ensures -0x8000_0000 <= n < 0x8000_0000
    ensures n % 0x1_0000_0000 == v
    ensures 0 <= n ==> n == v
  {
    if v < 0x8000_0000 then v else v - 0x1_0000_0000
  }

  /** A 32-bit pattern read as a signed int32 (`h | 0`). */
  function ToInt32(h: bv32): (n: int)
    ensures -0x8000_0000 <= n < 0x8000_0000
  {
    BitsRange(h);
    Signed32(h as int)
  }

  /** Seeding the generator with the signed seed restores the hash's bits. */
  lemma SeedRoundTrip(h: bv32)
    ensures SeedBits(ToInt32(h)) == h
  {
    BitsRange(h);
    BitsRoundTrip(h);
  }

  method NameSeed(name: string) returns (seed: int)
    ensures seed == ToInt32(Fnv1a(Utf16(name)))
  {
    var units := Utf16(name);
    var h: bv32 := FNV_OFFSET_BASIS;
    for i := 0 to |units|
      invariant h == Fnv1a(units[..i])
    {
      Fnv1aStep(units, i);
      h := FnvRound(h, units[i]);
    }
    assert units[..|units|] == units;
    seed := ToInt32(h);
  }

  /** Hashing one more code unit is one more round. */
  lemma Fnv1aStep(units: seq<CodeUnit>, i: nat)
    requires i < |units|
    ensures Fnv1a(units[..i + 1]) == FnvRound(Fnv1a(units[..i]), units[i])
  {
    assert units[..i + 1][..i] == units[..i];
  }

  /** The empty name hashes to the offset basis, read as a signed int32. */
  lemma EmptyNameSeed()
    ensures ToInt32(Fnv1a(Utf16(""))) == -2128831035
  {
  }

  // ---------------------------------------------------------------------------
  // Palettes and palette indices
  // ---------------------------------------------------------------------------

  const PLANET_PALETTES: map<string, seq<string>> := map[
    "Sun" := ["#FDB813", "#FF8C00", "#FFD27D"],
    "Mercury" := ["#6E5C4A", "#8C7853", "#A08E79"],
    "Venus" := ["#E3C38B", "#FFC649", "#D9A441"],
    "Earth" := ["#1E3A8A", "#2563EB", "#22C55E", "#14532D", "#F8FAFC"],
    "Moon" := ["#A3A3A3", "#737373", "#D4D4D4"],
    "Mars" := ["#7F2D1D", "#CD5C5C", "#A43B2B"],
    "Jupiter" := ["#D8CA9D", "#C9B483", "#A67C52", "#8B5E3C"],
    "Saturn" := ["#FAD5A5", "#E6C48A", "#D3A76F"],
    "Uranus" := ["#4FD0E7", "#22D3EE", "#0EA5E9"],
    "Neptune" := ["#1D4ED8", "#4B70DD", "#1E40AF"],
    "Pluto" := ["#A16207", "#C4A484", "#B45309"]
  ]

  const FALLBACK_PALETTE: seq<string> := ["#888888", "#AAAAAA", "#666666"]

  /** `PLANET_PALETTES[name]?.base ?? grey` */
  function PaletteFor(name: string): (p: seq<string>)
    ensures |p| > 0
    ensures name !in PLANET_PALETTES ==> p == FALLBACK_PALETTE
    ensures name in PLANET_PALETTES ==> p == PLANET_PALETTES[name]
  {
    if name in PLANET_PALETTES then PLANET_PALETTES[name] else FALLBACK_PALETTE
  }

  /** `Math.floor(random() * len)` for the draw that left the state at `x`. */
  function PaletteIndex(x: bv32, len: nat): (k: nat)
    ensures len > 0 ==> k < len
    ensures len == 0 ==> k == 0
  {
    var n := DrawNumerator(x);
    IndexBelowLength(n, len);
    (n * len) / 10000
  }

  lemma IndexBelowLength(n: nat, len: nat)
    requires n < 10000
    ensures len > 0 ==> (n * len) / 10000 < len
    ensures len == 0 ==> (n * len) / 10000 == 0
  {
    if len > 0 {
      assert n * len <= 9999 * len;
      assert (n * len) / 10000 * 10000 <= n * len;
    }
  }

  /** The integer formula is `Math.floor(random() * len)` on the exact draw. */
  lemma PaletteIndexIsFloorOfDraw(x: bv32, len: nat)
    ensures PaletteIndex(x, len) == (DrawValue(x) * len as real).Floor
  {
    FloorOfScaledDraw(DrawValue(x), DrawNumerator(x), len);
  }

  /** The palette indices drawn by `n` consecutive draws from state `x`. */
  function IndicesDrawn(x: bv32, n: nat, len: nat): (ks: seq<nat>)
    ensures |ks| == n
    ensures len > 0 ==> forall i :: 0 <= i < n ==> ks[i] < len
  {
    if n == 0 then [] else IndicesDrawn(x, n - 1, len) + [PaletteIndex(StateAfter(x, n), len)]
  }

  /** How many times `for (v = from; v < size; v += step)` runs. */
  function Steps(from: int, size: int, step: int): nat
    requires step > 0
    decreases size - from
  {
    if from >= size then 0 else 1 + Steps(from + step, size, step)
  }

  /**
   * `drawPixelNoise`: one palette draw per block, row by row. Returns the
   * palette indices in drawing order.
   */
  method DrawPixelNoise(size: int, paletteLen: nat, block: int, random: Rng) returns (cells: seq<nat>)
    requires block > 0
    modifies random
    ensures |cells| == Steps(0, size, block) * Steps(0, size, block)
    ensures cells == IndicesDrawn(old(random.x), |cells|, paletteLen)
    ensures random.x == StateAfter(old(random.x), |cells|)
  {
    var side := Steps(0, size, block);
    cells := [];
    var rows := 0;
    var y := 0;
    while y < size
      invariant rows + Steps(y, size, block) == side
      invariant |cells| == rows * side
      invariant cells == IndicesDrawn(old(random.x), |cells|, paletteLen)
      invariant random.x == StateAfter(old(random.x), |cells|)
      decreases size - y
    {
      var cols := 0;
      var x := 0;
      while x < size
        invariant cols + Steps(x, size, block) == side
        invariant |cells| == rows * side + cols
        invariant cells == IndicesDrawn(old(random.x), |cells|, paletteLen)
        invariant random.x == StateAfter(old(random.x), |cells|)
        decreases size - x
      {
        var c := random.NextIndex(paletteLen);
        assert IndicesDrawn(old(random.x), |cells| + 1, paletteLen) == cells + [c];
        cells := cells + [c];
        cols := cols + 1;
        x := x + block;
      }
      assert cols == side;
      assert |cells| == (rows + 1) * side;
      rows := rows + 1;
      y := y + block;
    }
  }

  /** `random() - 0.5` for the draw that left the state at `x`. */
  function CenteredDraw(x: bv32): (c: real)
    ensures -0.5 <= c < 0.5
  {
    DrawValue(x) - 0.5
  }

  /** The integer formula is `Math.floor((random() - 0.5) * jitter)` on the exact draw. */
  lemma BandOffsetIsFloorOfDraw(x: bv32, jitter: int)
    ensures BandOffset(x, jitter) == (CenteredDraw(x) * jitter as real).Floor
  {
    FloorOfScaledDraw(CenteredDraw(x), DrawNumerator(x) - 5000, jitter);
  }

  datatype Band = Band(paletteIndex: nat, offset: int)

  /** `Math.floor((random() - 0.5) * jitter)` for the draw that left the state at `x`. */
  function BandOffset(x: bv32, jitter: int): int {
    ((DrawNumerator(x) - 5000) * jitter) / 10000
  }

  /** `drawBands`: two draws per band, the palette index first, then the offset. */
  method DrawBands(size: int, paletteLen: nat, bandHeight: int, jitter: int, random: Rng) returns (bands: seq<Band>)
    requires bandHeight > 0
    modifies random
    ensures |bands| == Steps(0, size, bandHeight)
    ensures random.x == StateAfter(old(random.x), 2 * |bands|)
    ensures forall i :: 0 <= i < |bands| ==>
      bands[i] == Band(PaletteIndex(StateAfter(old(random.x), 2 * i + 1), paletteLen),
                       BandOffset(StateAfter(old(random.x), 2 * i + 2), jitter))
    ensures paletteLen > 0 ==> forall i :: 0 <= i < |bands| ==> bands[i].paletteIndex < paletteLen
  {
    bands := [];
    var y := 0;
    while y < size
      invariant |bands| + Steps(y, size, bandHeight) == Steps(0, size, bandHeight)
      invariant random.x == StateAfter(old(random.x), 2 * |bands|)
      invariant forall i :: 0 <= i < |bands| ==>
        bands[i] == Band(PaletteIndex(StateAfter(old(random.x), 2 * i + 1), paletteLen),
                         BandOffset(StateAfter(old(random.x), 2 * i + 2), jitter))
      decreases size - y
    {
      var c := random.NextIndex(paletteLen);
      var _ := random.Next();
      var offset := ((DrawNumerator(random.x) - 5000) * jitter) / 10000;
      bands := bands + [Band(c, offset)];
      y := y + bandHeight;
    }
  }

  // ---------------------------------------------------------------------------
  // Texture plan of a planet
  // ---------------------------------------------------------------------------

  /** Which drawing routine fills the diffuse map. */
  datatype Surface =
    | EarthLike
    | Banded(baseFill: Option<string>, bandHeight: int, jitter: int)
    | Cratered(block: int)
    | SunCells(block: int)
    | Noise(block: int)

  datatype TexturePlan =
    | Placeholder   // outside a browser: one white pixel, diffuse only
    | Plan(palette: seq<string>, seed: bv32, surface: Surface, bump: bool, emissive: bool, earthSpecular: bool)

  function Max(a: int, b: int): (m: int)
    ensures m >= a && m >= b && (m == a || m == b)
  {
    if a < b then b else a
  }

  /** The diffuse routine chosen by name, with its block sizes derived from the texture size. */
  function SurfaceFor(planetName: string, palette: seq<string>, size: int): (surface: Surface)
    ensures surface.EarthLike? <==> planetName == "Earth"
    ensures surface.Banded? <==> planetName == "Jupiter" || planetName == "Saturn"
    ensures surface.Cratered? <==> planetName == "Moon" || planetName == "Mercury"
    ensures surface.SunCells? <==> planetName == "Sun"
    ensures surface.Banded? ==>
      surface.baseFill == Pick(palette, 0) && surface.bandHeight >= 3 && surface.jitter >= 2
    ensures surface.Cratered? || surface.SunCells? || surface.Noise? ==> surface.block >= 2
  {
    if planetName == "Earth" then EarthLike
    else if planetName == "Jupiter" || planetName == "Saturn" then Banded(Pick(palette, 0), Max(3, size / 24), Max(2, size / 28))
    else if planetName == "Moon" || planetName == "Mercury" then Cratered(Max(2, size / 56))
    else if planetName == "Sun" then SunCells(Max(2, size / 48))
    else Noise(Max(2, size / 52))
  }

  /** The decisions `generatePlanetTextures` takes before any drawing. */
  function PlanTextures(hasDocument: bool, planetName: string, size: int, enableBumpMap: bool): (plan: TexturePlan)
    ensures !hasDocument <==> plan.Placeholder?
    ensures plan.Plan? ==>
      && plan.palette == PaletteFor(planetName)
      && |plan.palette| > 0
      && plan.seed == Fnv1a(Utf16(planetName))
      && plan.surface == SurfaceFor(planetName, plan.palette, size)
      && plan.bump == enableBumpMap
      && (plan.emissive <==> planetName == "Sun" || planetName == "Earth")
      && (plan.earthSpecular <==> planetName == "Earth")
    ensures plan.Plan? && planetName !in PLANET_PALETTES ==> plan.palette == FALLBACK_PALETTE
  {
    if !hasDocument then Placeholder
    else
      var palette := PaletteFor(planetName);
      Plan(palette, Fnv1a(Utf16(planetName)), SurfaceFor(planetName, palette, size), enableBumpMap,
           planetName == "Sun" || planetName == "Earth", planetName == "Earth")
  }

  /** Banded planets paint the first palette colour underneath the bands. */
  lemma BandedBaseIsFirstColour(planetName: string, size: int, bump: bool)
    requires PlanTextures(true, planetName, size, bump).surface.Banded?
    ensures PlanTextures(true, planetName, size, bump).surface.baseFill ==
            Some(PlanTextures(true, planetName, size, bump).palette[0])
  {
  }

  /**
   * `rng(nameSeed(name))` starts from the plan's seed, so the draws of a
   * planet's textures are a function of its name alone.
   */
  lemma StreamSeededByName(planetName: string, size: int, bump: bool)
    ensures SeedBits(ToInt32(Fnv1a(Utf16(planetName)))) == PlanTextures(true, planetName, size, bump).seed
  {
    SeedRoundTrip(Fnv1a(Utf16(planetName)));
  }
}
