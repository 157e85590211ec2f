# Pixel portfolio core, modelled in Dafny

This project models the logic behind a pixel-art developer portfolio built with Next.js and three.js:

- **Adaptive graphics quality for the solar-system scene.**
  - A tier classifier turns what the browser reports into one of four tiers: low, medium, high, ultra.
  - A settings table is derived from the tier.
  - The WebGL probe falls back to fixed answers when it cannot ask the browser.
  - A frame-time monitor moves the tier one step at a time, with a nine-second cooldown.
- **Deterministic planet textures.**
  - A planet's name is hashed with FNV-1a.
  - The hash seeds a xorshift32 generator.
  - The generator's draws pick palette colours for pixel noise and bands.
- **The project detail modal.**
  - Video-URL detection and YouTube/Vimeo embedding.
  - Thumbnails.
  - The media list and its video/image split.
  - Link de-duplication.
  - Quick facts, the QR target and badge classes.
- **The experience timeline card:** its icon, marker colour, end date and expand toggle.
- **The testimonials marquee:** the repeated track, alt text and attribution.
- **The animated loading ellipsis.**

Modules and files:

| module | file |
|---|---|
| `Wrappers`, `Strings`, `Arithmetic` | `wrappers.dfy` |
| `DeviceCapabilities` | `device_capabilities.dfy` |
| `PlanetTextures` | `planet_textures.dfy` |
| `ProjectModal` | `project_modal.dfy` |
| `WorkExperience` | `work_experience.dfy` |
| `TestimonialsMarquee` | `testimonials_marquee.dfy` |
| `Loading` | `loading.dfy` |

The shared modules hold `Option`, JavaScript truthiness, substring search, ASCII lower-casing and a few lemmas about `%`.

Pure computations are functions. The stateful parts are classes whose methods are proved against specification functions:

- the frame monitor;
- the scene's quality glue;
- the seeded random generator;
- the modal's active indices;
- the card's `open` flag;
- the loading indicator.

Loops in the source are methods with loop invariants:

- trimming the frame window;
- the FNV-1a hash;
- the pixel-noise and band draws;
- link de-duplication.

Where the source uses floating point for a decision, the model uses exact integer arithmetic:

- The monitor's average-fps comparisons cross-multiply instead of dividing.
- A random draw is represented by its numerator `k` in `k / 10000`.

## Model

| member | source | states |
|---|---|---|
| DeviceCapabilities.Clamp | src/helpers/deviceCapabilities.ts:60-62 | The result never exceeds the upper bound. It is at least the lower bound when the bounds are ordered. It equals the value inside the range and the nearer bound outside it. |
| DeviceCapabilities.GetSettingsForTier | src/helpers/deviceCapabilities.ts:114-162 | The pixel ratio lies in [1, tier cap]. It is the display's own ratio whenever that fits, the cap when the display's ratio reaches it, and 1 when the display's ratio is at most 1. The texture size is the minimum of the tier's size and the hardware limit. Each effect toggle holds exactly for the tiers that enable it. Bloom and noise intensities are 0 exactly when the effect is off. SSAO, lens flare and volumetric light are always off. Instancing follows the hardware. |
| DeviceCapabilities.SettingsMonotoneInTier | src/helpers/deviceCapabilities.ts:114-162 | A higher tier never gets fewer shadows, segments, texels, stars, asteroids, debris, comets, shooting stars or LOD distance. It never gets a smaller pixel ratio or camera speed, and never a coarser pixelation. |
| DeviceCapabilities.SettingsInputDependence | src/helpers/deviceCapabilities.ts:114-162 | The settings depend on the display only through its pixel ratio, and on the features only through the texture limit and instancing. |
| DeviceCapabilities.PixelRatioFloorIsOne | src/helpers/deviceCapabilities.ts:117-118 | A display ratio below 1 is raised to exactly 1, so the scale can exceed the display's ratio. |
| DeviceCapabilities.GetWebGLCaps | src/helpers/deviceCapabilities.ts:76-112 | Without a document the result is 2048 with every feature off. Without a context it is 1024 with every feature off. WebGL2 implies instancing and float textures. On WebGL1 these come from the extensions. A missing MAX_TEXTURE_SIZE reads as 2048. The size is never 0. |
| DeviceCapabilities.ClassifyTier | src/helpers/deviceCapabilities.ts:176-184 | Low memory, a mobile device or no WebGL2 force low. Each of ultra, high and medium holds if and only if its stated conditions hold. |
| DeviceCapabilities.MobileNeverHigher | src/helpers/deviceCapabilities.ts:176-184 | A mobile device never ranks above the same device on the desktop. |
| DeviceCapabilities.UnknownMemoryNeverDowngrades | src/helpers/deviceCapabilities.ts:176-184 | Unknown memory (0) gives the highest tier any memory amount can give. |
| DeviceCapabilities.ClassifierScenarios | src/helpers/deviceCapabilities.ts:176-184 | A 12-core, 16 GB, 8192-texel desktop is ultra. The same machine with 3 GB, or on mobile, is low. |
| DeviceCapabilities.DisplayOf | src/helpers/deviceCapabilities.ts:167-174 | Without a window the display is 1280×720 at ratio 1. With a window, width and height are the window's inner size and the ratio is `devicePixelRatio \|\| 1`, never 0. Retina holds exactly when the ratio exceeds 1. Mobile means narrower than 768 or a mobile user agent. |
| DeviceCapabilities.PixelRatioOf | src/helpers/deviceCapabilities.ts:169 | `devicePixelRatio \|\| 1`: the window's ratio when it is non-zero, otherwise 1. |
| DeviceCapabilities.MemoryOf | src/helpers/deviceCapabilities.ts:70-74 | The reported device memory when there is a navigator and it reports a number, otherwise 0 (unknown). |
| DeviceCapabilities.CoresOf | src/helpers/deviceCapabilities.ts:174 | `hardwareConcurrency \|\| 4`: the reported core count when there is a navigator and it is non-zero, otherwise 4. Never 0. |
| DeviceCapabilities.DetectDeviceCapabilities | src/helpers/deviceCapabilities.ts:164-197 | The capabilities combine the probe, the display and the classifier. The settings are always those of the chosen tier. Without a document or a WebGL context the tier is low. |
| DeviceCapabilities.DropBeforeIsSuffix | src/helpers/deviceCapabilities.ts:225-228 | Trimming the window removes a prefix, and every sample it removes is older than the cutoff. |
| DeviceCapabilities.Decide | src/helpers/deviceCapabilities.ts:236-254 | A decision always moves to an adjacent tier. It moves down exactly when a downgrade rule fires. It moves up exactly when an upgrade rule fires and no downgrade does. Low is never left. |
| DeviceCapabilities.FirstFrameOnlyStoresTime | src/helpers/deviceCapabilities.ts:216-219 | The first frame only records its timestamp. |
| DeviceCapabilities.HysteresisGate | src/helpers/deviceCapabilities.ts:230 | Within nine seconds of the last change, neither the tier nor the change time moves. |
| DeviceCapabilities.StepMovesOneTier | src/helpers/deviceCapabilities.ts:215-255 | A tier change moves one step. It happens only after the cooldown and never on the first frame. It restarts the cooldown, and without a change the cooldown start is kept. |
| DeviceCapabilities.LowIsNeverUpgraded | src/helpers/deviceCapabilities.ts:236-254 | Once low, the monitor stays low. |
| DeviceCapabilities.StepWindow | src/helpers/deviceCapabilities.ts:221-228 | After the first frame, every call leaves the pushed-and-trimmed window and the new frame time, whatever the decision. |
| DeviceCapabilities.PushAndTrimNewest | src/helpers/deviceCapabilities.ts:221-228 | The new sample survives the trim as the last one, and the window starts within the last four seconds. |
| DeviceCapabilities.PushAndTrimOrdered | src/helpers/deviceCapabilities.ts:221-228 | With non-decreasing timestamps, the trimmed window is time-ordered and lies within [now−4000, now]. |
| DeviceCapabilities.StepKeepsWindow | src/helpers/deviceCapabilities.ts:215-228 | Every call but the first keeps the new sample last and starts the window inside four seconds. With non-decreasing timestamps it preserves time order. |
| DeviceCapabilities.TwentyFiveFpsStepsMediumToLow | src/helpers/deviceCapabilities.ts:215-255 | A recorded frame past the cooldown whose trimmed window averages 40 ms (25 fps, below the medium threshold of line 241) moves a medium monitor to low, restarts the cooldown and keeps the trimmed window. |
| DeviceCapabilities.NoChangeDuringCooldown | src/helpers/deviceCapabilities.ts:230 | A run of frames that all fall inside the cooldown fires no callback and keeps the tier. |
| DeviceCapabilities.AtMostOneChangePerCooldown | src/helpers/deviceCapabilities.ts:199-263 | Frames within any nine-second span change the tier at most once. |
| DeviceCapabilities.PerformanceMonitor.constructor | src/helpers/deviceCapabilities.ts:210-213 | A new monitor has an empty window, no frame time, the initial tier and no notifications. |
| DeviceCapabilities.PerformanceMonitor.SetTier | src/helpers/deviceCapabilities.ts:257-262 | Setting the current tier changes nothing. Otherwise the tier and change time are updated and the callback receives the new tier. |
| DeviceCapabilities.PerformanceMonitor.RecordFrame | src/helpers/deviceCapabilities.ts:215-255 | The new state is `Step` of the old one, so the lemmas about `Step` apply. The callback fires once, with the new tier, exactly when the tier changed. |
| DeviceCapabilities.QualityController.constructor | src/components/SolarSystemSimulation.tsx:1600-1603 | The scene starts from the detected capabilities, whose settings match their tier. |
| DeviceCapabilities.QualityController.OnTierChange | src/components/SolarSystemSimulation.tsx:1605-1613 | On a tier change the tier is replaced and the settings are re-derived. Features and display are kept. |
| DeviceCapabilities.QualityController.OnResize | src/components/SolarSystemSimulation.tsx:1615-1635 | On resize the display takes the new size and ratio and the settings are re-derived. Tier and features are kept. |
| PlanetTextures.Clamp01 | src/helpers/planetTextures.ts:24-26 | The result lies in [0, 1]. It is the value itself inside, 0 below and 1 above. |
| PlanetTextures.Pick | src/helpers/planetTextures.ts:38-40 | A non-negative index wraps around the array. An empty array gives undefined. A negative index gives undefined unless its remainder is −0, which reads index 0. |
| PlanetTextures.PickPeriodic | src/helpers/planetTextures.ts:38-40 | For non-negative indices, `pick` is defined and repeats with the array's length as period. |
| PlanetTextures.DrawNumerator | src/helpers/planetTextures.ts:49 | A draw's numerator is below 10000. |
| PlanetTextures.DrawValue | src/helpers/planetTextures.ts:49 | Every draw lies in [0, 1). |
| PlanetTextures.ZeroIsFixedPoint | src/helpers/planetTextures.ts:46-48 | The xorshift update maps 0 to 0. |
| PlanetTextures.NonZeroStaysNonZero | src/helpers/planetTextures.ts:46-48 | The update never maps a non-zero state to 0. |
| PlanetTextures.NonZeroSeedNeverStalls | src/helpers/planetTextures.ts:42-51 | From a non-zero seed, the state is non-zero after any number of draws. |
| PlanetTextures.ZeroSeedDrawsZeros | src/helpers/planetTextures.ts:42-51 | Seed 0 stays at 0 and every draw is 0. |
| PlanetTextures.Rng.constructor | src/helpers/planetTextures.ts:44 | The state starts as the seed's 32-bit pattern. |
| PlanetTextures.Rng.Next | src/helpers/planetTextures.ts:45-50 | One xorshift32 update, and the draw is the new state's value. |
| PlanetTextures.Rng.NextIndex | src/helpers/planetTextures.ts:89 | One update, and the palette index is the draw scaled to the length. |
| PlanetTextures.CodeUnits | src/helpers/planetTextures.ts:56 | A character below U+10000 is the single code unit of its own value. Any other character is a high surrogate followed by a low surrogate that decode back to it. |
| PlanetTextures.Utf16 | src/helpers/planetTextures.ts:55-56 | There is at least one code unit per character. For a string wholly below U+10000, as every planet name is, the units are exactly the characters' values, one for one. |
| PlanetTextures.Utf16Append | src/helpers/planetTextures.ts:55-56 | The encoding of a concatenation is the concatenation of the encodings. |
| PlanetTextures.Utf16SurrogatePair | src/helpers/planetTextures.ts:55-56 | A one-character string from U+10000 up encodes to a surrogate pair that decodes back to the character. |
| PlanetTextures.Signed32 | src/helpers/planetTextures.ts:59 | Reading an unsigned 32-bit value as signed gives a number in the int32 range, congruent to the value mod 2^32, and equal to it when non-negative. |
| PlanetTextures.ToInt32 | src/helpers/planetTextures.ts:59 | `h \| 0` lies in the int32 range. |
| PlanetTextures.SeedRoundTrip | src/helpers/planetTextures.ts:42-60 | Seeding the generator with the signed hash restores the hash's bits. |
| PlanetTextures.NameSeed | src/helpers/planetTextures.ts:53-60 | The loop computes 32-bit FNV-1a over the name's code units, read as int32. |
| PlanetTextures.EmptyNameSeed | src/helpers/planetTextures.ts:53-60 | The empty name seeds with the offset basis as int32, −2128831035. |
| PlanetTextures.PaletteFor | src/helpers/planetTextures.ts:187 | A known planet gets its own palette and any other name the grey fallback. The palette is never empty. |
| PlanetTextures.PaletteIndex | src/helpers/planetTextures.ts:89 | `floor(random() * len)` is a valid index for a non-empty palette. |
| PlanetTextures.PaletteIndexIsFloorOfDraw | src/helpers/planetTextures.ts:89 | The integer index equals `Math.floor(random() * len)` computed on the exact draw. |
| PlanetTextures.IndicesDrawn | src/helpers/planetTextures.ts:86-94 | The indices of n consecutive draws: there are n of them, each valid. |
| PlanetTextures.DrawPixelNoise | src/helpers/planetTextures.ts:86-94 | The loops draw one palette index per block, row by row, for ⌈size/block⌉² blocks. These are the indices of that many consecutive draws, and the generator advances by exactly that many steps. |
| PlanetTextures.DrawBands | src/helpers/planetTextures.ts:96-103 | There is one band per bandHeight rows. Band i takes its colour from draw 2i+1 and its offset from draw 2i+2. The generator advances two steps per band, and every colour index is valid. |
| PlanetTextures.CenteredDraw | src/helpers/planetTextures.ts:99 | `random() - 0.5` lies in [−0.5, 0.5). |
| PlanetTextures.BandOffsetIsFloorOfDraw | src/helpers/planetTextures.ts:99 | The integer offset equals `Math.floor((random() - 0.5) * jitter)` computed on the exact draw. |
| PlanetTextures.SurfaceFor | src/helpers/planetTextures.ts:192-205 | Earth, Jupiter/Saturn, Moon/Mercury and Sun each get their own routine, each chosen if and only if the name matches. Everything else gets noise. Bands are filled first with `pick(palette, 0)`. Block and band sizes are at least 2 (bands at least 3). |
| PlanetTextures.PlanTextures | src/helpers/planetTextures.ts:173-298 | Without a document the result is the placeholder and only then. Otherwise the plan has the name's palette (grey when unknown) and the FNV-1a seed of the name. The bump map is drawn exactly when enabled. An emissive map is drawn exactly for Sun and Earth, and an Earth specular pattern exactly for Earth. |
| PlanetTextures.BandedBaseIsFirstColour | src/helpers/planetTextures.ts:194-197 | Banded planets paint their first palette colour underneath. |
| PlanetTextures.StreamSeededByName | src/helpers/planetTextures.ts:187-188 | `rng(nameSeed(name))` starts at the plan's seed, so every draw of a planet's textures is a function of its name. |
| ProjectModal.RunFrom | src/components/ProjectModal.tsx:18 | The id capture is maximal: all its characters are id characters and the next one is not. |
| ProjectModal.MatchWithSound | src/components/ProjectModal.tsx:16-36 | An id found at a position is a real match there: one of the given prefixes, then at least six id characters. |
| ProjectModal.CapturedIdIsMaximal | src/components/ProjectModal.tsx:16-36 | Any match is the maximal run after its prefix (the greedy `{6,}`). |
| ProjectModal.MatchWithComplete | src/components/ProjectModal.tsx:16-36 | If any alternative prefix matches at a position, the matcher finds a match there. |
| ProjectModal.MatchAtMeaning | src/components/ProjectModal.tsx:16-36 | A match exists at a position if and only if the matcher returns one, and what it returns is a match. |
| ProjectModal.CaptureIsLeftmost | src/components/ProjectModal.tsx:16-36 | No id is found if and only if no position matches. A found id comes from the leftmost matching position. |
| ProjectModal.CaptureNoneIffNoMatch | src/components/ProjectModal.tsx:16-36 | Scanning from a position finds nothing if and only if no position from there to the end matches. |
| ProjectModal.CapturePosition | src/components/ProjectModal.tsx:16-36 | A found id is the match at some position in range, and no earlier position from the start of the scan matches. |
| ProjectModal.IdIsLeftmostMatch | src/components/ProjectModal.tsx:28-36 | `getYouTubeId` / `getVimeoId` return the leftmost match's id, and null exactly when the URL has no match anywhere. |
| ProjectModal.ToEmbedUrl | src/components/ProjectModal.tsx:16-26 | A YouTube id gives the YouTube embed URL. Failing that, a Vimeo id gives the Vimeo player URL. Otherwise the URL is unchanged. |
| ProjectModal.IsVideoUrl | src/components/ProjectModal.tsx:12-14 | True exactly when, ignoring the case of ASCII letters, youtube.com, youtu.be or vimeo.com occurs at some position of the URL, compared character by character. |
| ProjectModal.IsVideoUrlIgnoresCase | src/components/ProjectModal.tsx:12-14 | Lower-casing the URL first never changes the answer. |
| ProjectModal.EmbeddableIsVideo | src/components/ProjectModal.tsx:12-36 | A URL with a YouTube or Vimeo id is always detected as a video. |
| ProjectModal.NoHostNameNoEmbed | src/components/ProjectModal.tsx:16-36 | A URL in which neither `youtu` nor `vimeo` occurs in lower case has no ids and is passed through unchanged. |
| ProjectModal.NoLowerHostLetterNoEmbed | src/components/ProjectModal.tsx:16-36 | A URL with no lower-case `y` or `v` has no ids and is passed through unchanged. |
| ProjectModal.UpperCaseYouTubeIsVideoButNotEmbedded | src/components/ProjectModal.tsx:12-26 | A URL containing `YOUTUBE.COM`, and no lower-case `youtu` or `vimeo` anywhere, is detected as a video (case-insensitive) but not embedded (case-sensitive). This covers ordinary URLs such as `https://www.YOUTUBE.COM/watch?v=<id>`. |
| ProjectModal.UpperCaseWatchUrl | src/components/ProjectModal.tsx:12-26 | The watch URL `https://www.YOUTUBE.COM/watch?v=dQw4w9WgXcQ` is a video that `toEmbedUrl` returns unchanged. |
| ProjectModal.Media | src/components/ProjectModal.tsx:120-127 | No project gives no media. A non-empty media list is used as is. Otherwise the primary image becomes one item, or the list is empty. |
| ProjectModal.Videos | src/components/ProjectModal.tsx:129 | Every item kept is a video, and there are no more items than in the media. |
| ProjectModal.Images | src/components/ProjectModal.tsx:130 | Every item kept is an image, and there are no more items than in the media. |
| ProjectModal.MediaFilterMembers | src/components/ProjectModal.tsx:129-130 | An item is among the videos exactly when it is a video in the media, and among the images exactly when it is an image in the media. |
| ProjectModal.MediaPartition | src/components/ProjectModal.tsx:129-130 | Videos and images together are exactly the media, as a multiset. |
| ProjectModal.MediaSplitKeepsOrder | src/components/ProjectModal.tsx:129-130 | Videos and images each keep the media's order. |
| ProjectModal.ImageFallback | src/components/ProjectModal.tsx:124-126 | A project without media but with an image shows one image, alt "name preview", and no videos. |
| ProjectModal.PlayerFor | src/components/ProjectModal.tsx:320-322 | Video URLs play in an iframe at their embed URL. Anything else plays natively at its own source. |
| ProjectModal.ThumbUrl | src/components/ProjectModal.tsx:62-76 | An image is its own thumbnail. A video has one exactly when it has a YouTube id, and it is that id's hqdefault image. |
| ProjectModal.DerivedLinks | src/components/ProjectModal.tsx:135-138 | Live Demo, GitHub Repo and Play Store links, in that order, each present exactly when its URL is truthy. |
| ProjectModal.DedupLinks | src/components/ProjectModal.tsx:141-149 | The filter with its `seen` set returns exactly the first link of each key. |
| ProjectModal.Links | src/components/ProjectModal.tsx:132-150 | No project gives no links. Otherwise the links have pairwise distinct keys and the same set of keys as the derived links followed by the custom ones. They keep that order. |
| ProjectModal.FirstByKeyKeys | src/components/ProjectModal.tsx:141-149 | De-duplication keeps every key. |
| ProjectModal.FirstByKeyDistinct | src/components/ProjectModal.tsx:141-149 | De-duplication leaves no key twice. |
| ProjectModal.FirstByKeyKeepsOrder | src/components/ProjectModal.tsx:141-149 | De-duplication keeps the input order. |
| ProjectModal.FirstByKeyKeepsFirst | src/components/ProjectModal.tsx:141-149 | Every kept link is the first occurrence of its key. |
| ProjectModal.FirstByKeyPrefix | src/components/ProjectModal.tsx:141-149 | De-duplicating a longer list extends the result for its prefix. |
| ProjectModal.DistinctKeysKeptWhole | src/components/ProjectModal.tsx:141-149 | A list without repeated keys passes through whole. |
| ProjectModal.DerivedLinksFirst | src/components/ProjectModal.tsx:132-150 | The derived links always come first and are never dropped. |
| ProjectModal.KeyCollision | src/components/ProjectModal.tsx:143 | Two different links can share a key (`a\|b`+`c` and `a`+`b\|c`), and the second is dropped. |
| ProjectModal.QuickFacts | src/components/ProjectModal.tsx:152-165 | No project gives no facts. Otherwise there are four facts: Status (Live exactly when a live URL is set), Type (Android App exactly with a Play Store URL), Role and Year. |
| ProjectModal.QrUrl | src/components/ProjectModal.tsx:167-170 | The QR target is the live URL, and is absent without a project. |
| ProjectModal.QrShownIffLive | src/components/ProjectModal.tsx:152-176 | A QR code is generated exactly when the status fact says Live. |
| ProjectModal.VariantToNesClass | src/components/ProjectModal.tsx:38-51 | Each variant maps to its class, and a missing or default variant maps to the dark class. |
| ProjectModal.NesClassInjective | src/components/ProjectModal.tsx:38-51 | Distinct variants get distinct classes. |
| ProjectModal.ModalState.constructor | src/components/ProjectModal.tsx:117-118 | Both active indices start at 0. |
| ProjectModal.ModalState.OnOpen | src/components/ProjectModal.tsx:203-207 | Opening resets both active indices to 0. |
| ProjectModal.ModalState.SelectImage | src/components/ProjectModal.tsx:294 | A thumbnail click sets the image index and leaves the video index alone. |
| ProjectModal.ModalState.SelectVideo | src/components/ProjectModal.tsx:350 | A thumbnail click sets the video index and leaves the image index alone. |
| WorkExperience.ResolveIcon | src/components/WorkExprience.tsx:32-38 | Crown exactly when the lower-cased title contains "cto". Otherwise code exactly with "developer", then school with "intern" or "fellow". Otherwise briefcase. |
| WorkExperience.ResolveIconIgnoresCase | src/components/WorkExprience.tsx:33 | The icon does not depend on letter case. |
| WorkExperience.CtoOutranksDeveloper | src/components/WorkExprience.tsx:34-35 | "CTO & Developer" gets the crown. |
| WorkExperience.DirectorGetsCrown | src/components/WorkExprience.tsx:34 | Substring matching gives "Director" the crown too. |
| WorkExperience.MarkerColor | src/components/WorkExprience.tsx:40-42 | The marker colour is always one of the four accent colours. |
| WorkExperience.MarkerColorPeriodic | src/components/WorkExprience.tsx:42 | The colours repeat every four cards. |
| WorkExperience.NeighboursDiffer | src/components/WorkExprience.tsx:42 | Adjacent cards never share a colour. |
| WorkExperience.EndDateDisplay | src/components/WorkExprience.tsx:54 | The end date shown is never empty, and an empty end date shows "Present". |
| WorkExperience.DetailsShown | src/components/WorkExprience.tsx:68-94 | Details appear exactly when open. They show all the highlights and the job's links (none when absent). |
| WorkExperience.TimelineCard.constructor | src/components/WorkExprience.tsx:30 | A card starts collapsed. |
| WorkExperience.TimelineCard.Toggle | src/components/WorkExprience.tsx:98 | The button flips the expand state. |
| TestimonialsMarquee.Base | src/components/TestimonialsMarquee.tsx:23 | Fewer than six items are doubled. Otherwise the list is kept. |
| TestimonialsMarquee.Track | src/components/TestimonialsMarquee.tsx:20-24 | Nothing is rendered exactly when the list is missing or empty. Otherwise the track is the base twice. |
| TestimonialsMarquee.TrackLength | src/components/TestimonialsMarquee.tsx:23-24 | The track holds 4n items for a short list and 2n otherwise. |
| TestimonialsMarquee.TrackCycles | src/components/TestimonialsMarquee.tsx:23-24 | Track position i shows testimonial i mod n, so the track cycles through the list in order. |
| TestimonialsMarquee.AltText | src/components/TestimonialsMarquee.tsx:48 | The alt text starts with the name. It is `name — title` when there is a title and the name alone otherwise. |
| TestimonialsMarquee.Attribution | src/components/TestimonialsMarquee.tsx:69-72 | The attribution is "— " and the name, then ", title" exactly when there is a title. |
| TestimonialsMarquee.IsAvatar | src/components/TestimonialsMarquee.tsx:37 | A card uses the avatar layout exactly when its image URL is present and non-empty. |
| TestimonialsMarquee.PraiseLines | src/components/TestimonialsMarquee.tsx:59-64 | Only non-empty praise lines are shown, line 1 before line 2. The block is empty exactly when neither line is present. |
| TestimonialsMarquee.Card | src/components/TestimonialsMarquee.tsx:43-75 | A card is an avatar card exactly when `isAvatar` holds. It then shows the image, the alt text, the name, the title if present and the praise lines. Otherwise it shows the quote if present and the attribution line. |
| Loading.NextDots | src/components/Loading.tsx:10 | Three or more dots reset to empty. Otherwise one dot is appended. |
| Loading.NextDotsKeepsValid | src/components/Loading.tsx:10 | The update keeps the state at zero to three dots. |
| Loading.DotsCycle | src/components/Loading.tsx:6-11 | After k ticks from empty, the state is k mod 4 dots. |
| Loading.DotsPeriodic | src/components/Loading.tsx:6-11 | The animation has period four and stays valid. |
| Loading.LoadingIndicator.constructor | src/components/Loading.tsx:6 | The indicator starts with no dots. |
| Loading.LoadingIndicator.Tick | src/components/Loading.tsx:9-11 | Each interval tick applies the update and keeps the state valid. |

## Left out

- Canvas drawing is not part of this model. This covers `createCanvas`, `setNearest`, `toLinearGray`, `drawCraters`, `drawEarthLike` and `drawSun`, the bump, emissive and specular pixel loops, and `generateRingTexture` / the asteroid texture. For these, the model keeps only the decision to draw each map. It does not keep the pixels or the exact sequence of draws the emissive and specular passes consume.
- Floating point is not modelled.
  - Settings and ratios are exact reals.
  - The monitor's `avg` / `fps` is compared by exact cross-multiplication. A frame rate that lands within rounding error of a threshold may decide differently in the browser.
  - A random draw is the exact fraction `k / 10000`.
  - `BandOffset` and `PaletteIndex` use integer floor division on the numerator. `BandOffsetIsFloorOfDraw` and `PaletteIndexIsFloorOfDraw` prove these equal `Math.floor` on the exact draw. The browser's floating-point result can differ by rounding.
- Browser probing (canvas and WebGL contexts, `navigator`, the user-agent regex, `window`) is an input datatype. The probe's answers are modelled, not how they are obtained.
- Timestamps are modelled as whole milliseconds, and the clock is a parameter. `performance.now()` gives fractional milliseconds (src/components/SolarSystemSimulation.tsx:1486). The window cut-off, the cooldown and the cross-multiplied frame-rate tests are comparisons that do not depend on the values being whole.
- The `onTierChange` callback is modelled as the list of tiers it was called with.
- The modal's year comes from the clock, so it is a parameter of `QuickFacts`.
- QR image generation (the `qrcode` library and its async effect) is not modelled. Only the URL it is asked to encode is.
- Keyboard, focus and scroll effects, animation and styling classes are not modelled.
- The rest of `SolarSystemSimulation.tsx` is not part of this model. Only the glue that re-derives settings on a tier change and on resize is.
- Regular expressions are modelled only for the four patterns in the modal: two hand-written matchers plus a case-insensitive substring test. This is not a general regex engine.
- Lower-casing covers ASCII only. `toLowerCase` on other characters is not modelled.
- `ProjectModal.IsVideoUrl`: other case mappings of `/i` outside ASCII are not modelled. This is for the same ASCII-only reason.
- `DeviceCapabilities.GetSettingsForTier`: the ratio is clamped from below at 1. A display ratio below 1 therefore yields 1, and the scale can exceed the display's own ratio. `PixelRatioFloorIsOne` states this.
- `PlanetTextures.Utf16`: a `char` is a Unicode scalar value. A JavaScript string holding a lone surrogate therefore cannot be represented.
- The `Work` fields `employmentType`, `workMode` and `location`, and the project text fields (description, technologies, highlights, badges, metrics), are rendered as is. They are left out of the datatypes.
