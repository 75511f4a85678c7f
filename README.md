# TypoMoss, the breath hidden city and the originality workbook, in Dafny

This project models the logic at the heart of the custoward portfolio site and proves properties of it. The site is mostly React page wiring. The logic sits in five places, and each has its own Dafny module or modules.

- **The TypoMoss canvas engine, current revision** (`src/portfolios/typomoss/`):
  - The renderer object (`MossRenderer.Renderer`) holds the instance store, the element-config registry, the frame and id counters, the set of titles already introduced, the spawning flag and the state of its Mulberry32 seeded generator (`Mulberry32`).
  - Its decisions are value-level functions with their own lemmas:
    - weighted resolution of the `random` mode (`MossRandomMode`);
    - layered clusters and grow stacks (`MossPlacement`);
    - the spawn ramp, the spawn chance, the title schedule and the frame-time clamp (`MossSpawn`);
    - the hot-swap of live instances when an element's config changes (`MossRegistry`).
  - The animation curves are in `MossAnimation`. What `render` decides before it touches the canvas is in `MossDraw`: colour parsing, the recolour cache keys, aspect fit, culling and the draw values.
  - The data types and constant tables are in `MossTypes`.
- **The older engine** (`src/typoMoss/`): a capped store that spawns at most one instance per frame and ages and retires instances (`LegacyRenderer`). Its curves dispatch on a category derived from the element's name (`LegacyAnimation`). The older `calculateAnimationProgress` (src/typoMoss/animationModes.ts:16-19) is the same function as the current one, so both engines use `MossAnimation.Progress`.
- **The breath hidden city page** (`public/portfolios/breath-hidden-city/script.js`):
  - grid geometry (`CityGrid`);
  - the tokens and the one-step conveyor shift shared by both stages (`CityTokens`);
  - the TOWN conveyor lines, which cross the grid once and are removed when empty (`CityTown`);
  - the CITY conveyor lines, which never end and which leave a smoke trail, with a cooldown and a minimum line count (`CityLines`).
- **Two small page state machines**: the originality workbook's steps and answers (`Workbook`) and the TypoMoss settings page, covering settings merge, presets and the recording label (`MossSettings`).
- **Both vector loaders**: the mode a file name implies, the element built for each file, the SVG image cache they share, and the path lookup with its text fallback (`MossLoader`, `LegacyLoader`, `SvgCache`).

The JavaScript helpers the code relies on are modelled in `JsStrings`: `indexOf`, `replace` with a string pattern, `trim`, number rendering, `parseFloat`/`Number`, `parseInt(…, 16)` and `toLowerCase`.

How the model stands in for what lies outside the code:
- JavaScript numbers are `real`.
- The generator's 32-bit arithmetic is exact modulo 2^32.
- `Math.random()` draws, clock readings and animation-frame ids are method parameters. Each draw is stated to lie in [0, 1).
- `Math.PI`, `Math.sin`, `Math.cos` and `Math.sqrt` are values inside a `MathLib` record. Their bounds are stated by its `Lawful()` predicate.
- `Math.pow(_, 1.35)` in `areaToSide` is a function parameter, bounded on [0, 1].
- Each `Map` store is a sequence in insertion order, keyed by distinct ids.
- Timers become flags. The page gate of the hidden city (hidden mode on, the right stage, not suspended during a resize) becomes an `active` argument.
- Browser storage becomes fields holding what was last written.

JavaScript `x || d` is modelled as written: a zero counts as missing. This is `OptOr`, `IntOr` and `StrOr`.

`setElements` does not clear the element-map cache of `render`, and the model keeps that.

## Model

| member | source | states |
|---|---|---|
| Mulberry32.ToUnit | src/portfolios/typomoss/renderer.ts:55 | the final division by 2^32 lands in [0, 1) and multiplying back by 2^32 recovers the 32-bit word |
| Mulberry32.Imul | src/portfolios/typomoss/renderer.ts:53-54 | `Math.imul` returns the 32-bit word congruent to the product modulo 2^32, and the product itself when it fits |
| Mulberry32.Temper | src/portfolios/typomoss/renderer.ts:53-55 | the two `imul` rounds and the final xor-shift send the all-zero state to the all-zero word |
| Mulberry32.Next | src/portfolios/typomoss/renderer.ts:51-56 | one call of the seeded closure draws a number in [0, 1) and moves the state by exactly the Weyl increment `0x6D2B79F5`, modulo 2^32 |
| Mulberry32.NextInRange | src/portfolios/typomoss/renderer.ts:49-58 | every state the closure can be in draws a number in [0, 1) |
| Mulberry32.MulberryStep | src/portfolios/typomoss/renderer.ts:49-58 | the closure returned by `createSeededRandom` is a generator step whose next state is the advanced state |
| Mulberry32.Draws | src/portfolios/typomoss/renderer.ts:51-56 | `n` successive calls produce exactly `n` numbers |
| Mulberry32.DrawsSplit | src/portfolios/typomoss/renderer.ts:51-56 | drawing `m` numbers and then `n` more from the state reached is the same as drawing `m + n` numbers |
| Mulberry32.DrawAt | src/portfolios/typomoss/renderer.ts:51-56 | the `i`-th draw is determined by the state after the first `i` draws |
| Mulberry32.StateAfterIsOffset | src/portfolios/typomoss/renderer.ts:52 | after `n` calls the state is the seed state plus `n` Weyl increments, modulo 2^32 |
| Mulberry32.OffsetStep | src/portfolios/typomoss/renderer.ts:52 | one increment followed by `n - 1` more is `n` increments modulo 2^32 |
| MossTypes.OrNum | src/portfolios/typomoss/renderer.ts:195 | `x \|\| d` on a number: the number unless it is zero, then the default |
| MossTypes.OptOr | src/portfolios/typomoss/renderer.ts:300 | `x?.f \|\| d`: an absent or zero value gives the default, any other value is kept |
| MossTypes.MergeConfig | src/portfolios/typomoss/renderer.ts:157 | `{ ...existing, ...config }`: the id is kept, and for each of the seven patchable fields a given value overrides the existing one and an omitted one stays |
| MossTypes.MergeRenderConfig | src/portfolios/typomoss/renderer.ts:224-225 | `{ ...this.config, ...config }`: for each of the nine patchable keys (`Partial<RenderConfig>`, types.ts:55-63, plus `seed` and `resetIntervalSeconds`) a given value replaces the old one and an omitted one keeps it; the size bounds, which no patch carries, are untouched |
| MossTypes.ModeDuration | src/portfolios/typomoss/config.ts:20-37 | `ANIMATION_MODE_DEFAULTS[mode].duration` exists exactly for layered, rotate, pulse and instant, and is positive |
| MossTypes.TableLookup | src/portfolios/typomoss/config.ts:47-73 | a found row is in the table and carries the id asked for; a missing id appears in no row |
| MossTypes.TableEntry | src/portfolios/typomoss/config.ts:47-73 | `ELEMENT_CONFIGS[id]`, when present, is the config of that id |
| MossRandomMode.PercentBranch | src/portfolios/typomoss/renderer.ts:247-252 | trimmed text ending in `%` is read as `parseFloat` of the text before it, divided by 100 |
| MossRandomMode.ParseProbText | src/portfolios/typomoss/renderer.ts:246-259 | a string that trims to nothing reads as 0 (`Number('')`); a trimmed string that starts with a digit always reads as a finite number |
| MossRandomMode.ParseProb | src/portfolios/typomoss/renderer.ts:243-261 | a number is taken as it is; `undefined`, `null`, a non-finite number and any other type give no weight (NaN); a blank string gives 0 and a digit-led string a number |
| MossRandomMode.Weight | src/portfolios/typomoss/renderer.ts:263-272 | the normalised weight `fullConfig[m]` is never negative |
| MossRandomMode.WeightCases | src/portfolios/typomoss/renderer.ts:263-272 | an empty config gives the default weight; once any key is given a missing key weighs 0; a parsed value above 1 is divided by 100, a negative one becomes 0; an unparsable one weighs 0 |
| MossRandomMode.Positives | src/portfolios/typomoss/renderer.ts:275 | filtering the modes keeps at most as many modes |
| MossRandomMode.PositivesMembers | src/portfolios/typomoss/renderer.ts:275 | a mode survives the filter exactly when it is one of the five and its weight is positive |
| MossRandomMode.WeightsOf | src/portfolios/typomoss/renderer.ts:281 | the weights read in mode order, one per mode |
| MossRandomMode.PrefixSumMonotone | src/portfolios/typomoss/renderer.ts:284-290 | with positive weights the running `cumulative` only grows |
| MossRandomMode.ScanPick | src/portfolios/typomoss/renderer.ts:284-293 | the cumulative scan stops at a mode of the list, falling back to the last one |
| MossRandomMode.ScanPickInterval | src/portfolios/typomoss/renderer.ts:284-290 | for a draw below the total, the mode picked is the one whose cumulative interval contains the draw |
| MossRandomMode.PickWeighted | src/portfolios/typomoss/renderer.ts:284-293 | the `for … of positiveModes` loop returns the scan's pick, the mode whose interval `[cumulative before, cumulative after)` holds the draw |
| MossRandomMode.PositiveWeights | src/portfolios/typomoss/renderer.ts:275-281 | the weights of the positive modes are all positive, so the total is positive |
| MossRandomMode.ResolveByScan | src/portfolios/typomoss/renderer.ts:275-293 | with some positive weight, `selectRandomMode` returns the mode the cumulative scan over `rng() * total` picks |
| MossRandomMode.ResolvedModeHasWeight | src/portfolios/typomoss/renderer.ts:237-294 | the resolved mode is one of the five with a positive weight, or `pulse` exactly when every weight is zero |
| MossRandomMode.SingleKeyFixesMode | src/portfolios/typomoss/renderer.ts:263-293 | a config giving a single positive key selects that mode whatever the draw (the unspecified keys count as 0) |
| MossRandomMode.ResolveRandomMode | src/portfolios/typomoss/renderer.ts:275-293 | the mode returned is one of the positive modes, or `pulse` exactly when no mode has a positive weight |
| MossRegistry.ConfigFor | src/portfolios/typomoss/renderer.ts:81-101 | an element gets its `ELEMENT_CONFIGS` entry, else a config with its own mode, size 100, speed 1 and frequency 0.8 for `sticker` names, 0.12 for `circle` names and 0.1 otherwise |
| MossRegistry.ConfigsFor | src/portfolios/typomoss/renderer.ts:72-103 | after `setElements` every element id is registered, each entry is the config of an element with that id (the last one), and a table entry always wins |
| MossRegistry.ConfigsForPrefix | src/portfolios/typomoss/renderer.ts:76-103 | registering one more element updates only that element's id |
| MossRegistry.WithDefaultColor | src/portfolios/typomoss/renderer.ts:78-79 | an element gets a non-empty `defaultColor`: its own when it has one, else its colour, else `#1AB551`; nothing else changes |
| MossRegistry.DefaultColored | src/portfolios/typomoss/renderer.ts:76-79 | every element, in order, with its default colour filled in |
| MossRegistry.DefaultColoredPrefix | src/portfolios/typomoss/renderer.ts:76-79 | colouring one more element appends it |
| MossRegistry.TitleIds | src/portfolios/typomoss/renderer.ts:107-115 | the ids kept by the filter are exactly those of elements registered with mode `title` |
| MossRegistry.TitleOrder | src/portfolios/typomoss/renderer.ts:107-118 | `titleInitOrder` is sorted and is a permutation of the title ids |
| MossRegistry.TitleOrderMembers | src/portfolios/typomoss/renderer.ts:107-118 | an id is in the title order exactly when some element with that id is registered as a title |
| MossRegistry.FindElement | src/portfolios/typomoss/renderer.ts:160 | `findIndex`: the first element with the id, or -1 when none has it |
| MossRegistry.FirstIndexOf | src/portfolios/typomoss/renderer.ts:160 | `findIndex` over a list of keys, shared by `FindElement` and `FirstInstanceOf`: the first position holding the key, or -1 when none does |
| MossRegistry.BaseSize | src/portfolios/typomoss/renderer.ts:376 | `elementConfig?.size \|\| 100` is never zero; 100 without a config |
| MossRegistry.SpeedOf | src/portfolios/typomoss/renderer.ts:385-386 | the speed stored on a new instance is never zero and is the config's speed when that is non-zero |
| MossRegistry.AtFraction | src/portfolios/typomoss/renderer.ts:420-421 | `rng() * extent` lies on the canvas side |
| MossRegistry.IntOr | src/portfolios/typomoss/renderer.ts:814 | `x \|\| d` on an optional integer |
| MossRegistry.EffectiveMode | src/portfolios/typomoss/renderer.ts:808-810 | the mode acted on is the instance's own mode, or for a `random` instance the mode chosen at creation |
| MossRegistry.RotationStep | src/portfolios/typomoss/renderer.ts:812-817 | no time gives no turn; with time passing and a positive speed the turn follows the sign of `rotationDirection \|\| 1` |
| MossRegistry.Aged | src/portfolios/typomoss/renderer.ts:800-815 | one frame adds one to the age and turns a rotate instance by its rotation step; nothing else changes |
| MossRegistry.AgedTurnsByDirection | src/portfolios/typomoss/renderer.ts:812-817 | a rotate instance turns forward when its direction is positive and backward when it is negative |
| MossRegistry.ModeStep | src/portfolios/typomoss/renderer.ts:188-199 | a mode change sets the mode and, for a mode with a duration, retimes the lifespan to `round(duration / speed)` with the patch's speed, else the instance's, else 1 |
| MossRegistry.SpeedStep | src/portfolios/typomoss/renderer.ts:204-218 | a speed change stores the speed and retimes the lifespan only for a mode with a duration |
| MossRegistry.Retune | src/portfolios/typomoss/renderer.ts:186-219 | an instance of another element is untouched; a matching one gets the patch's mode and speed, and nothing but mode, lifespan and speed changes |
| MossRegistry.RetuneIdempotent | src/portfolios/typomoss/renderer.ts:186-219 | applying the same successful config change twice is applying it once |
| MossRegistry.RetuneSteps | src/portfolios/typomoss/renderer.ts:186-219 | the two `forEach` passes (mode, then speed) compose to `Retune` and keep the instance id |
| MossRegistry.Retimed | src/portfolios/typomoss/renderer.ts:196 | `Math.round(duration / speed)`: at speed 1 the lifespan is the duration, and a positive speed never gives a negative lifespan |
| MossRegistry.FirstInstanceOf | src/portfolios/typomoss/renderer.ts:190-196 | the first instance of the element in store order, or -1 when there is none |
| JsStrings.JsRound | src/portfolios/typomoss/renderer.ts:729 | `Math.round`: the integer within one half of `x` (halves rounded up); the hidden city page's rounding (script.js:55) is the same function |
| MossSpawn.RampTotal | src/portfolios/typomoss/renderer.ts:753-757 | the ramp lasts `max(0.1, resetIntervalSeconds - 1)` when a reset interval above 1 is configured, else 12 seconds, and never less than 0.1 |
| MossSpawn.RampRatio | src/portfolios/typomoss/renderer.ts:758 | `min(elapsed / rampTotal, 1)`: 0 at the start, 1 once the ramp is over, never above 1 |
| MossSpawn.RampMultiplier | src/portfolios/typomoss/renderer.ts:758-761 | the dynamic multiplier starts at 0.01, reaches 1 at the end of the ramp and stays within [0.01, 1] |
| MossSpawn.RampMonotone | src/portfolios/typomoss/renderer.ts:758-761 | the spawn ramp never decreases with elapsed time |
| MossSpawn.SpawnMultiplier | src/portfolios/typomoss/renderer.ts:763-769 | while titles are still pending in the first 2.5 seconds the multiplier is cut to 20%, otherwise it is the ramp |
| MossSpawn.EffectiveFrequency | src/portfolios/typomoss/renderer.ts:746-747 | `elementConfig?.frequency \|\| 0.1` |
| MossSpawn.SpawnChance | src/portfolios/typomoss/renderer.ts:771-785 | a layered descriptor spawns at 200% of its frequency, every other mode at 150%, times the spawn speed (`\|\| 1`) and the multiplier |
| MossSpawn.SpawnChanceBounded | src/portfolios/typomoss/renderer.ts:746-785 | the spawn chance is never negative and never exceeds twice the frequency times the spawn speed |
| MossRegistry.ChanceFor | src/portfolios/typomoss/renderer.ts:745-785 | the chance used for the drawn element is never negative and never exceeds twice its frequency times `spawnSpeed \|\| 1` |
| MossSpawn.ElementIndex | src/portfolios/typomoss/renderer.ts:745 | `floor(rng() * elements.length)` is a valid index |
| MossSpawn.TitleSpeed | src/portfolios/typomoss/renderer.ts:721 | the title spawn speed is at least 0.01 |
| MossSpawn.TitleStartFrame | src/portfolios/typomoss/renderer.ts:727 | the first title frame is never negative |
| MossSpawn.TitleInterval | src/portfolios/typomoss/renderer.ts:729 | titles are at least 2 frames apart |
| MossSpawn.TitleDueSpacing | src/portfolios/typomoss/renderer.ts:731 | two frames on which a title is due are at least one interval apart |
| MossSpawn.TitleDue | src/portfolios/typomoss/renderer.ts:731 | a title is due only from the start frame on, on a whole number of intervals after it, and always on the start frame itself |
| MossSpawn.TitleSlotX | src/portfolios/typomoss/renderer.ts:305-307 | each title's x slot lies strictly inside the canvas width |
| MossSpawn.TitleSlotsOrdered | src/portfolios/typomoss/renderer.ts:305-307 | titles later in the order are placed further right |
| MossSpawn.DeltaClamp | src/portfolios/typomoss/renderer.ts:1108-1109 | the frame delta is clamped into [1/240, 1/30] and kept when already inside |
| MossSpawn.SizeFromDraw | src/portfolios/typomoss/renderer.ts:379-380 | a size drawn around the base lies in [0.7 × base, 1.3 × base) |
| MossSpawn.TitleY | src/portfolios/typomoss/renderer.ts:310-312 | a title's y lies in the middle 40% of the canvas height |
| MossSpawn.FlickerCount | src/portfolios/typomoss/renderer.ts:674-676 | the flicker count is between 3 and 7 |
| MossSpawn.RotationDirection | src/portfolios/typomoss/renderer.ts:671 | the rotation direction is 1 exactly when the draw is below 0.5, else -1 |
| MossPlacement.LayeredPeers | src/portfolios/typomoss/renderer.ts:392-393 | the instances kept are exactly the layered instances of the same element |
| MossPlacement.MaxKey | src/portfolios/typomoss/renderer.ts:397-407 | the largest `clusterId \|\| 0` among the peers, attained by one of them |
| MossPlacement.ClusterMembers | src/portfolios/typomoss/renderer.ts:397-405 | the peers grouped under one cluster key are exactly those with that key |
| MossPlacement.ClusterCap | src/portfolios/typomoss/renderer.ts:412 | the cluster's layer cap is its head's `maxLayersInCluster`, or 6 when missing or zero |
| MossPlacement.PlanCluster | src/portfolios/typomoss/renderer.ts:391-496 | no peers start cluster 0; a new cluster gets an id above every existing one; a join goes to the newest cluster, below its cap, at the next layer index |
| MossPlacement.NewClusterIffFull | src/portfolios/typomoss/renderer.ts:407-417 | a new cluster is opened exactly when the newest cluster is full, and gets the next id; a join uses the newest cluster's first member as head |
| MossPlacement.MaxLayersFromDraw | src/portfolios/typomoss/renderer.ts:448 | a new cluster holds 5 to 7 layers |
| MossPlacement.SmallRotationDegrees | src/portfolios/typomoss/renderer.ts:435-436 | the "small rotation" branch always yields 0 degrees, since `rng() * 3` is always below 3 |
| MossPlacement.StackStyle | src/portfolios/typomoss/renderer.ts:428-444 | the small branch gives 0 degrees and a spacing in [15, 20); the other gives 6 to 20 degrees and a spacing in [5, 10) |
| MossPlacement.HeadSpacing | src/portfolios/typomoss/renderer.ts:474 | the spacing read from the cluster head (`\|\| 10`) is never zero |
| MossPlacement.JoinLayer | src/portfolios/typomoss/renderer.ts:466-496 | a joining layer copies all of the head's cluster data (base point, direction, stack rotation, fixed size, base rotation, spacing `\|\| 10`) with its own layer index, cluster id and cap; it turns by the stack rotation per layer index, and layer 0 sits on the base point |
| MossPlacement.LayerStride | src/portfolios/typomoss/renderer.ts:478-482 | two successive layers of a cluster are one spacing apart along the stack direction and differ in rotation by the stack rotation |
| MossPlacement.GrowPeers | src/portfolios/typomoss/renderer.ts:558-560 | the instances kept are exactly the grow instances of the same element |
| MossPlacement.StackOrder | src/portfolios/typomoss/renderer.ts:563-571 | the stack ids in first-seen order, each once, exactly the ids of the peers |
| MossPlacement.StackMembers | src/portfolios/typomoss/renderer.ts:565-571 | the peers of one stack id are exactly those with that id |
| MossPlacement.FirstOpen | src/portfolios/typomoss/renderer.ts:574-589 | the first stack, in map order, whose last member is not out of bounds; none when every stack is closed |
| MossPlacement.PlanStack | src/portfolios/typomoss/renderer.ts:574-663 | a new stack gets the next id (the number of stacks); a join goes to a non-empty stack at the next layer index, whose last member is still within the margin |
| MossPlacement.OrderedStackNonEmpty | src/portfolios/typomoss/renderer.ts:563-571 | every stack id in the map has at least one member |
| MossPlacement.PlanStackChoice | src/portfolios/typomoss/renderer.ts:574-591 | a new stack is started exactly when every stack is closed; a join picks the first open stack in map order |
| MossPlacement.GrowEdge | src/portfolios/typomoss/renderer.ts:621 | the entry edge is one of 0..3 |
| MossPlacement.GrowEntry | src/portfolios/typomoss/renderer.ts:624-646 | each edge places the first layer just outside that side of the canvas, heading inward with a ±0.4 rad jitter |
| MossPlacement.GrowEntryInsideMargin | src/portfolios/typomoss/renderer.ts:578-646 | a new stack's first layer starts off the canvas yet within the out-of-bounds margin, so the stack stays open for the next grow instance |
| MossPlacement.JoinGrow | src/portfolios/typomoss/renderer.ts:592-615 | a joining grow layer copies the head's base, direction, spacing and rotation, with the next layer index and the head's stack id; layer 0 sits on the base point |
| MossPlacement.GrowStride | src/portfolios/typomoss/renderer.ts:600-604 | two successive layers of a grow stack are one spacing apart along the grow direction and share the rotation |
| MossAnimation.Progress | src/portfolios/typomoss/animationModes.ts:17-20 | progress is 1 for a non-positive lifespan and from the lifespan on, `age / lifespan` before it, and never above 1 |
| MossAnimation.AnimateLayered | src/portfolios/typomoss/animationModes.ts:28-48 | a layered instance is drawn at full scale and opacity with its own rotation |
| MossAnimation.AnimateRotate | src/portfolios/typomoss/animationModes.ts:56-97 | rotate fades in from scale 0.3 and opacity 0 over the first 20%, holds 1 until 80%, then grows to 1.5 while fading to 0, and turns by `progress · 2π · rotationSpeed` |
| MossAnimation.AnimatePulse | src/portfolios/typomoss/animationModes.ts:106-149 | pulse grows linearly over the first 30%, bounces at most `bounceAmount` above 1 until 50%, holds 1 until 85%, then shrinks to 0.3 while fading to 0; it sets no rotation |
| MossAnimation.AnimateInstant | src/portfolios/typomoss/animationModes.ts:156-164 | instant is drawn at full scale and opacity with no rotation |
| MossAnimation.AnimationProperties | src/portfolios/typomoss/animationModes.ts:169-189 | the four modes dispatch to their curves on the clamped progress; every other mode gets scale 1, opacity 1, rotation 0 |
| MossAnimation.AnimationBounded | src/portfolios/typomoss/animationModes.ts:169-189 | for any instance of non-negative age, opacity stays in [0, 1] and scale in [0, 1.5] |
| MossDraw.HexToRgb | src/portfolios/typomoss/renderer.ts:837-852 | an empty colour gives null; a parsed colour had 3 or 6 characters once `#` was removed and the text trimmed |
| MossDraw.RgbOfBody | src/portfolios/typomoss/renderer.ts:840-851 | a body is read as channels exactly when it has 3 or 6 characters |
| MossDraw.HexBody | src/portfolios/typomoss/renderer.ts:839 | removing the first `#` of `#` + hex digits and trimming gives the digits back |
| MossDraw.PairValue | src/portfolios/typomoss/renderer.ts:846-848 | two hex digits read as a channel below 256 |
| MossDraw.HexToRgbLong | src/portfolios/typomoss/renderer.ts:845-849 | `#rrggbb` reads as the three two-digit channels |
| MossDraw.LongBodyChannels | src/portfolios/typomoss/renderer.ts:845-849 | six hex digits read as the three two-digit channels |
| MossDraw.HexToRgbShort | src/portfolios/typomoss/renderer.ts:840-844 | `#rgb` reads each digit doubled, i.e. 17 times its value |
| MossDraw.ShortBodyChannels | src/portfolios/typomoss/renderer.ts:840-844 | three hex digits read as their doubled values |
| MossDraw.DoubledDigit | src/portfolios/typomoss/renderer.ts:841-843 | `parseInt(d + d, 16)` is 17 times the digit |
| MossDraw.HexToRgbBadLength | src/portfolios/typomoss/renderer.ts:838-851 | any other body length gives null |
| MossDraw.StrOr | src/portfolios/typomoss/renderer.ts:1029-1030 | `s \|\| d` on a string: an empty or missing string gives the default |
| MossDraw.DefaultColorOf | src/portfolios/typomoss/renderer.ts:1029 | the default colour is never empty: the element's own default or `#1AB551` |
| MossDraw.TargetColor | src/portfolios/typomoss/renderer.ts:1030 | the colour drawn is never empty: the element's colour when set, else its default |
| MossDraw.NeedsRecolor | src/portfolios/typomoss/renderer.ts:1034 | recolouring is only asked for an element with a non-empty colour and a non-empty SVG path |
| MossDraw.NoRecolorAtDefault | src/portfolios/typomoss/renderer.ts:1029-1034 | without a colour override, or with the default colour in another letter case, the image is drawn without recolouring |
| MossDraw.RecolorKey | src/portfolios/typomoss/renderer.ts:862 | the recolour cache key starts with `${svgPath}::` |
| MossDraw.RemovePrefixed | src/portfolios/typomoss/renderer.ts:178-181 | the keys left are exactly those not starting with the prefix |
| MossDraw.RecolorKeysOfPathCleared | src/portfolios/typomoss/renderer.ts:176-181 | clearing a path's prefix drops its recoloured image for every colour |
| MossDraw.AspectFit | src/portfolios/typomoss/renderer.ts:1017-1026 | the drawn box keeps the image's aspect ratio, fits in the square, and fills it along one side |
| MossDraw.WideImage | src/portfolios/typomoss/renderer.ts:1023-1026 | when the height overflows the width shrinks by the aspect ratio |
| MossDraw.CenteredNeverCulled | src/portfolios/typomoss/renderer.ts:964-968 | an instance whose centre is on the canvas is never culled |
| MossDraw.KeptInBox | src/portfolios/typomoss/renderer.ts:964-968 | an instance is kept exactly when its centre lies within one margin (`size × scale`) of the canvas on both axes |
| MossDraw.DrawOpacityAsWritten | src/portfolios/typomoss/renderer.ts:961 | as written, `opacity \|\| 1` turns an opacity of exactly 0 into 1 |
| MossDraw.DrawOpacity | src/portfolios/typomoss/renderer.ts:961 | the corrected draw opacity is the curve's opacity |
| MossDraw.DrawScale | src/portfolios/typomoss/renderer.ts:960 | `scale \|\| 1` is never zero and keeps any non-zero scale |
| MossDraw.DrawRotation | src/portfolios/typomoss/renderer.ts:992 | `animProps.rotation \|\| instance.rotation` |
| MossDraw.FadedOutDrawnOpaque | src/portfolios/typomoss/renderer.ts:948-972 | a rotate or pulse instance at the end of its life has curve opacity 0 but is drawn fully opaque |
| MossDraw.DrawOpacityFollowsCurve | src/portfolios/typomoss/renderer.ts:948-972 | with the correction the draw opacity stays in [0, 1] and a finished rotate or pulse instance is drawn invisible |
| MossDraw.ElementMap | src/portfolios/typomoss/renderer.ts:943-945 | every element id is in the map, each entry is an element with that id, and the last element with an id wins |
| MossDraw.DrawOf | src/portfolios/typomoss/renderer.ts:948-971 | an instance is drawn exactly when its element exists and it is not culled, at its own id and position, with the as-written `opacity \|\| 1` of its curve |
| MossDraw.DrawnVisible | src/portfolios/typomoss/renderer.ts:958-961 | for an instance of non-negative age every draw has an opacity in (0, 1]: the written `\|\| 1` never lets a drawn instance vanish |
| MossDraw.RenderList | src/portfolios/typomoss/renderer.ts:937-972 | every draw is the `DrawOf` of a stored instance |
| MossDraw.RenderListDistinct | src/portfolios/typomoss/renderer.ts:948-972 | when the store's ids are distinct, so are the instance ids of the frame's draws |
| MossDraw.RenderListComplete | src/portfolios/typomoss/renderer.ts:948-972 | every stored instance whose element exists and which is not culled is drawn |
| MossRenderer.Register | src/portfolios/typomoss/renderer.ts:76-103 | the `forEach` of `setElements` stores every element with its default colour and registers exactly `ConfigsFor` of the list |
| MossRenderer.IdsKept | src/portfolios/typomoss/renderer.ts:186-218 | rewriting instances in place without touching their ids keeps the ids issued and distinct |
| MossRenderer.Renderer.constructor | src/portfolios/typomoss/renderer.ts:23-44 | the config is the defaults merged with the patch, the generator is seeded with the seed or, when it is missing or 0, the clock, and every store and counter starts empty |
| MossRenderer.Renderer.Rng | src/portfolios/typomoss/renderer.ts:51-56 | one closure call: the draw and the new state are the generator step of the old state, and the draw is in [0, 1) |
| MossRenderer.Renderer.SetElements | src/portfolios/typomoss/renderer.ts:72-120 | the elements are stored with their default colour, the registry is rebuilt from them, and the title order is the sorted title ids |
| MossRenderer.Renderer.EnableSpawning | src/portfolios/typomoss/renderer.ts:124-130 | spawning is on and both clocks restart from now |
| MossRenderer.Renderer.RecalculateTitleOrder | src/portfolios/typomoss/renderer.ts:135-149 | the title order is recomputed from the current registry |
| MossRenderer.Renderer.UpdateElementConfig | src/portfolios/typomoss/renderer.ts:154-221 | an unknown id changes nothing; a known one merges the patch, recolours the element and clears its cache keys when a colour is given, and retunes every instance of it; the call fails (throws) exactly when the new mode has no duration and some instance of the element exists, after retyping only the first one |
| MossRenderer.Renderer.RetuneInstances | src/portfolios/typomoss/renderer.ts:186-219 | the two instance loops leave every instance retuned, or fail at the first matching instance when the new mode has no table entry |
| MossRenderer.Renderer.Recolor | src/portfolios/typomoss/renderer.ts:158-184 | when the element is found its colour is set, the element map cache is dropped and the cache keys of the element and of its SVG path are removed; otherwise nothing changes |
| MossRenderer.Renderer.SwapModes | src/portfolios/typomoss/renderer.ts:188-199 | every instance of the element gets the new mode and a retimed lifespan, or the loop throws at the first one when the mode has no duration |
| MossRenderer.Renderer.SetSpeeds | src/portfolios/typomoss/renderer.ts:204-218 | every instance of the element takes the new speed (retimed when its mode has a duration), the others are unchanged |
| MossRenderer.Renderer.UpdateConfig | src/portfolios/typomoss/renderer.ts:224-232 | the config is merged, and a given seed (0 included) reseeds the generator; without one the generator state is kept |
| MossRenderer.Renderer.SelectRandomMode | src/portfolios/typomoss/renderer.ts:237-294 | with no positive weight, pulse is returned without drawing; otherwise one draw picks `ResolveRandomMode`, always a mode of positive weight |
| MossRenderer.Renderer.ClusterAnchor | src/portfolios/typomoss/renderer.ts:420-423 | a new cluster's anchor is on the canvas |
| MossRenderer.Renderer.ClusterStyle | src/portfolios/typomoss/renderer.ts:428-446 | the spacing is in [5, 20), and a spacing of 15 or more comes with no rotation per layer |
| MossRenderer.Renderer.ClusterShape | src/portfolios/typomoss/renderer.ts:447-449 | a cluster holds 5 to 7 layers and its fixed size is within 30% of the base size |
| MossRenderer.Renderer.OpenCluster | src/portfolios/typomoss/renderer.ts:416-464 | a new cluster starts at layer 0 with the given id, an anchor on the canvas, 5 to 7 layers and the spacing and size bounds above |
| MossRenderer.Renderer.PlaceLayered | src/portfolios/typomoss/renderer.ts:390-540 | the layered record satisfies the cluster plan; joining a cluster copies the head's data without drawing |
| MossRenderer.Renderer.OpenStack | src/portfolios/typomoss/renderer.ts:616-662 | a new grow stack's first layer starts off the canvas but inside the out-of-bounds margin, spaced by its size and rotated along its direction |
| MossRenderer.Renderer.PlaceGrow | src/portfolios/typomoss/renderer.ts:556-664 | the grow record satisfies the stack plan; joining a stack copies the head's data without drawing |
| MossRenderer.Renderer.LeadDraws | src/portfolios/typomoss/renderer.ts:380-384 | a title starts unrotated, any other mode at a rotation in [0, 2π) |
| MossRenderer.Renderer.ScatterDraws | src/portfolios/typomoss/renderer.ts:548-550 | a scattered instance is placed on the canvas |
| MossRenderer.Renderer.SizeDraw | src/portfolios/typomoss/renderer.ts:554 | the size is within 30% of the base size |
| MossRenderer.Renderer.TailDraws | src/portfolios/typomoss/renderer.ts:670-676 | the direction is ±1 and 1 except for rotate; a flicker count of 3 to 7 is drawn exactly for flicker and title |
| MossRenderer.Renderer.Placement | src/portfolios/typomoss/renderer.ts:382-668 | a layered instance gets cluster data and a grow instance stack data, each satisfying its plan; a layered descriptor uses the cluster's fixed size, others a size within 30% of the base; a title is unrotated |
| MossRenderer.Renderer.CreateInstance | src/portfolios/typomoss/renderer.ts:343-699 | the new instance takes the next id, its configured mode (a random mode resolved to one of positive weight, or pulse), age 0, lifespan 999999, its placement, spin direction and flicker count as above |
| MossRenderer.Renderer.CreateTitleInstance | src/portfolios/typomoss/renderer.ts:298-338 | a title instance takes the next id, its x slot, a y in the middle band of the canvas, no rotation, 3 to 7 flickers and a size within 30% of the base |
| MossRenderer.Renderer.TitleStep | src/portfolios/typomoss/renderer.ts:713-738 | while spawning and titles are pending, the next title in order is created on a due frame, or skipped when its element is missing; otherwise nothing changes; existing instances stay, and a new title carries the next id at age 0 |
| MossRenderer.Renderer.SpawnStep | src/portfolios/typomoss/renderer.ts:740-797 | when spawning is open, an element is drawn; the update ends early exactly when it is a title element; otherwise a new instance of it, with every fact `createInstance` promises, is appended exactly when the second draw is below its spawn chance, and nothing changes when it is not; the counter advances by the number appended |
| MossRenderer.Renderer.AddInstance | src/portfolios/typomoss/renderer.ts:797-799 | a new instance of the drawn element, carrying the next id and every fact `createInstance` promises (`Spawned`), joins the end of the instances; the old ones are kept and the ids stay distinct |
| MossRenderer.Renderer.Spawned | src/portfolios/typomoss/renderer.ts:345-351 | an instance created this way acts with the mode stored as its `actualMode`, which is never `random` |
| MossRenderer.Renderer.AgeAll | src/portfolios/typomoss/renderer.ts:800-815 | every instance is aged by one frame, in place |
| MossRenderer.Renderer.SpawnDrawn | src/portfolios/typomoss/renderer.ts:796-800 | the spawn's second draw: below the chance a new instance of the element (as `Spawned` states) is appended with the next id, otherwise the instances are unchanged |
| MossRenderer.Renderer.SpawnAndAge | src/portfolios/typomoss/renderer.ts:740-820 | after the spawn step, unless it returned early, every old instance is aged, the new one is at age 1 with the next id, and the frame count goes up by one; with spawning closed the generator is not drawn |
| MossRenderer.Renderer.Update | src/portfolios/typomoss/renderer.ts:705-820 | at most two instances are added (one title, one spawn), carrying the next ids in order, the counter advancing by as many; unless the spawn step returned early every instance is aged (the new ones to age 1) and the frame count goes up by one; at most the next title in order joins the introduced titles; with spawning off nothing but the aging happens and the generator is not drawn |
| MossRenderer.Renderer.Render | src/portfolios/typomoss/renderer.ts:937-972 | the element map is built once and kept, and the frame's draws are `RenderList` of the store |
| MossRenderer.Renderer.MainLoop | src/portfolios/typomoss/renderer.ts:1102-1118 | the delta is clamped to [1/240, 1/30], the timestamp recorded, and a next frame is requested only while running |
| MossRenderer.Renderer.Start | src/portfolios/typomoss/renderer.ts:1123-1128 | a running renderer is left alone; otherwise it runs from now with a frame requested |
| MossRenderer.Renderer.Stop | src/portfolios/typomoss/renderer.ts:1133-1139 | not running and no frame pending |
| MossRenderer.Renderer.Reset | src/portfolios/typomoss/renderer.ts:1144-1158 | the store, frame count, id counter and title progress are cleared, the clock restarted, and the renderer resumes exactly when it was running |
| MossRenderer.Renderer.GetStats | src/portfolios/typomoss/renderer.ts:1162-1175 | the frame count, the number of live instances, and `maxInstances \|\| 80` |
| SvgCache.Settled | src/portfolios/typomoss/vectorLoader.ts:79-92 | a load resolves to the loaded image, or to the 100×100 fallback on error |
| SvgCache.VectorPathOf | src/portfolios/typomoss/vectorLoader.ts:146-159 | an element is drawn as its cached image exactly when it has a non-empty SVG path that is in the cache; otherwise as its name in text |
| SvgCache.VectorPathStable | src/portfolios/typomoss/vectorLoader.ts:146-153 | once an element resolves to a cached image, loading more paths never changes what it resolves to |
| SvgCache.StripSvgOfStem | src/portfolios/typomoss/vectorLoader.ts:118-119 | `filename.replace('.svg', '')` gives back the stem of a dot-free stem plus `.svg` |
| SvgCache.StripSvg | src/portfolios/typomoss/vectorLoader.ts:118-119 | `replace('.svg', '')` leaves a name without `.svg` as it is, and otherwise removes exactly four characters |
| SvgCache.StemIdsDistinct | src/portfolios/typomoss/vectorLoader.ts:118 | distinct dot-free stems give distinct element ids |
| SvgCache.SvgImageCache.constructor | src/portfolios/typomoss/vectorLoader.ts:52 | the cache starts empty |
| SvgCache.SvgImageCache.LoadSvgAsImage | src/portfolios/typomoss/vectorLoader.ts:70-96 | a cached path returns its image and changes nothing; otherwise the settled image is stored under the path and returned |
| MossLoader.ModeFromName | src/portfolios/typomoss/vectorLoader.ts:57-65 | a name containing `sticker` is layered; otherwise one containing `circle` is rotate; every other name is instant |
| MossLoader.LoadedModesHaveDuration | src/portfolios/typomoss/vectorLoader.ts:57-65 | every mode the loader assigns has a duration in the mode table |
| MossLoader.ElementFor | src/portfolios/typomoss/vectorLoader.ts:114-126 | the element of a file: name without `.svg`, id `svg-` + name, its mode, green colour, weight 2, and its SVG path under the folder |
| MossLoader.Reachable | src/portfolios/typomoss/vectorLoader.ts:32-44 | the reachable files are at most the listed ones |
| MossLoader.ReachableMembers | src/portfolios/typomoss/vectorLoader.ts:33-42 | a file is kept exactly when it is listed and its fetch succeeds |
| MossLoader.GetSvgFileList | src/portfolios/typomoss/vectorLoader.ts:13-44 | the loop keeps, in order, the listed files whose fetch is ok |
| MossLoader.ElementsFor | src/portfolios/typomoss/vectorLoader.ts:104-132 | one element per file, in file order |
| MossLoader.LoadFiles | src/portfolios/typomoss/vectorLoader.ts:106-132 | the loop builds one element per file and leaves every file's path in the cache, keeping what was cached before |
| MossLoader.LoadVectorElements | src/portfolios/typomoss/vectorLoader.ts:101-137 | the elements are those of the reachable files, and every one of them then draws as a cached image |
| MossLoader.GetVectorPath | src/portfolios/typomoss/vectorLoader.ts:142-160 | the image exactly when the element's SVG path is cached, else its name as text |
| LegacyLoader.ModeFromName | src/typoMoss/vectorLoader.ts:32-40 | a name containing `sticker` is layered; otherwise one containing `circle` is pulse; every other name is flicker |
| LegacyLoader.ElementFor | src/typoMoss/vectorLoader.ts:89-98 | the element of a file: name without `.svg`, id `svg-` + name, its mode, green colour, weight 2 and its SVG path |
| LegacyLoader.ElementsFor | src/typoMoss/vectorLoader.ts:77-108 | one element per file, in file order |
| LegacyLoader.LoadFiles | src/typoMoss/vectorLoader.ts:81-104 | the loop builds one element per file and leaves every file's path in the cache, keeping what was cached before |
| LegacyLoader.LoadVectorElements | src/typoMoss/vectorLoader.ts:77-108 | all twelve listed files become elements, each of which then draws as a cached image |
| LegacyLoader.GetVectorPath | src/typoMoss/vectorLoader.ts:113-131 | the image exactly when the element's SVG path is cached, else its name as text |
| LegacyTypes.Duration | src/typoMoss/config.ts:20-37 | every mode of the older engine lasts 1800 frames |
| LegacyTypes.Pick | src/typoMoss/renderer.ts:32 | a spread field: the patch's value when given, else the old one |
| LegacyTypes.MergeLegacyConfig | src/typoMoss/renderer.ts:32 | `{ ...config, ...patch }`: for each of the eight keys a given value overrides and an omitted one stays, so an empty patch changes nothing |
| LegacyAnimation.ElementCategory | src/typoMoss/animationModes.ts:24-30 | a lower-cased name containing `sticker` is a sticker; otherwise one containing `circle` is a circle; anything else is grow |
| LegacyAnimation.AnimateSticker | src/typoMoss/animationModes.ts:35-49 | a sticker scales within [0.8, 1], is opaque, unrotated, and jitters its offsets within [-1, 1) |
| LegacyAnimation.AnimateCircle | src/typoMoss/animationModes.ts:54-64 | a circle scales within [0.9, 1], fades in at 1.5 × progress up to 1, and turns `720 × progress` |
| LegacyAnimation.AnimateGrow | src/typoMoss/animationModes.ts:69-81 | a grow element scales from 0.1 to 1, fades in at twice the progress up to 1, and sits behind (z-index -1) |
| LegacyAnimation.AnimateLayered | src/typoMoss/animationModes.ts:86-95 | layered eases its scale within [0.8, 1] and fades in at twice the progress until half-way, then stays opaque |
| LegacyAnimation.PulseEase | src/typoMoss/animationModes.ts:104 | the ease-in-out curve maps [0, 1] into [0, 1] and the first half below 0.5 |
| LegacyAnimation.PulseOpacityAsWritten | src/typoMoss/animationModes.ts:110 | as written, the pulse opacity from 0.3 on is at least 0.3 |
| LegacyAnimation.PulseOpacity | src/typoMoss/animationModes.ts:110 | corrected: the fade-in climbs from 0.5 towards 1 (slope 5/3) and meets the second branch without exceeding 1; over [0, 1] the opacity stays in [0.3, 1] |
| LegacyAnimation.PulseOpacityOvershoots | src/typoMoss/animationModes.ts:110 | as written, frame 539 of 1800 gets opacity above 1 |
| LegacyAnimation.PulseOpacityClose | src/typoMoss/animationModes.ts:110 | the corrected fade-in differs from the written one by less than 0.0011 |
| LegacyAnimation.AnimatePulse | src/typoMoss/animationModes.ts:100-112 | pulse scales between `scaleMin` and `scaleMax` and uses the written opacity `0.5 + progress * 1.67`, which over [0, 1] stays in [0.3, 1.0011) |
| LegacyAnimation.FracPart | src/typoMoss/animationModes.ts:122 | JavaScript `% 1`: the fractional part, carrying the sign of its operand |
| LegacyAnimation.AnimateFlicker | src/typoMoss/animationModes.ts:117-130 | flicker is either at its base opacity `0.9p + 0.1` or at 30% of it, scales within [0.5, 1] |
| LegacyAnimation.AnimationProperties | src/typoMoss/animationModes.ts:136-168 | a non-empty name chooses by category; otherwise the mode chooses among layered, pulse and flicker |
| LegacyAnimation.NameOverridesMode | src/typoMoss/animationModes.ts:145-155 | with a non-empty element name, the mode has no effect on the result |
| LegacyAnimation.LegacyAnimationBounded | src/typoMoss/animationModes.ts:136-168 | for any instance of non-negative age, scale stays in [0.1, 1.2] and opacity below 1.0011; every curve but the unnamed pulse keeps opacity at most 1 |
| LegacyRenderer.Aged | src/typoMoss/renderer.ts:109-110 | every instance ages by one frame, in order |
| LegacyRenderer.Retires | src/typoMoss/renderer.ts:114 | an instance whose age reached its lifespan always retires; one that survives is still younger than its lifespan |
| LegacyRenderer.DoomedIds | src/typoMoss/renderer.ts:108-117 | every instance past its lifespan, or whose removal draw is below 0.001, has its id collected |
| LegacyRenderer.DoomedHaveReason | src/typoMoss/renderer.ts:108-117 | every collected id belongs to an instance that expired or lost its removal draw |
| LegacyRenderer.IdSet | src/typoMoss/renderer.ts:118 | the ids to delete, as a set |
| LegacyRenderer.Without | src/typoMoss/renderer.ts:118 | deleting ids never adds instances |
| LegacyRenderer.WithoutMembers | src/typoMoss/renderer.ts:118 | an instance survives the deletions exactly when its id was not collected |
| LegacyRenderer.WithoutNothing | src/typoMoss/renderer.ts:118 | deleting no ids changes nothing |
| LegacyRenderer.Scaled | src/typoMoss/renderer.ts:76-77 | `Math.random() * w` lies in [0, w) |
| LegacyRenderer.WithoutOneMore | src/typoMoss/renderer.ts:118 | deleting one more id after a batch is deleting the larger batch |
| LegacyRenderer.UpdateLeavesLive | src/typoMoss/renderer.ts:107-118 | after the update every instance is younger than its lifespan, came from an aged old one, and none was added |
| LegacyRenderer.WithoutKeepsSerials | src/typoMoss/renderer.ts:118 | deleting instances keeps the ids issued and distinct |
| LegacyRenderer.PickIndex | src/typoMoss/renderer.ts:101 | `floor(random × length)` is a valid index |
| LegacyRenderer.NewInstance | src/typoMoss/renderer.ts:68-89 | a new instance takes the next id, its element's mode and a lifespan of 1800, a size in [minSize, maxSize), a position on the canvas and a seed in [0, 1) |
| LegacyRenderer.LegacyRenderer.constructor | src/typoMoss/renderer.ts:29-34 | the config is the defaults merged with the patch, and the stores and counters start empty |
| LegacyRenderer.LegacyRenderer.SetElements | src/typoMoss/renderer.ts:49-55 | the element list is replaced |
| LegacyRenderer.LegacyRenderer.UpdateConfig | src/typoMoss/renderer.ts:60-63 | the config is merged with the patch |
| LegacyRenderer.LegacyRenderer.CreateInstance | src/typoMoss/renderer.ts:68-89 | the counter advances by one and the instance is `NewInstance` under the old counter |
| LegacyRenderer.LegacyRenderer.AgeAll | src/typoMoss/renderer.ts:108-117 | every instance ages by one frame and the expired or unlucky ones are collected |
| LegacyRenderer.LegacyRenderer.DeleteAll | src/typoMoss/renderer.ts:118 | the collected ids are removed from the store |
| LegacyRenderer.LegacyRenderer.Born | src/typoMoss/renderer.ts:96-105 | at most one instance is born, exactly when below the cap, the draw is below `spawnRate × (density \|\| 1)` and there are elements; it carries the next id and the picked element |
| LegacyRenderer.LegacyRenderer.SpawnAllowed | src/typoMoss/renderer.ts:96-98 | a spawn happens only below `maxInstances`, and never when `spawnRate × (density \|\| 1)` is not positive |
| LegacyRenderer.LegacyRenderer.SpawnStep | src/typoMoss/renderer.ts:96-105 | the born instance, if any, is appended and the counter advances accordingly |
| LegacyRenderer.LegacyRenderer.Update | src/typoMoss/renderer.ts:94-121 | spawn, then age and retire: every survivor is younger than its lifespan, at most one instance is added, and only below the cap |
| LegacyRenderer.LegacyRenderer.AgeAndRetire | src/typoMoss/renderer.ts:107-118 | the store is aged and the collected instances removed; all survivors are alive |
| LegacyRenderer.LegacyRenderer.MainLoop | src/typoMoss/renderer.ts:227-234 | one update (the frame count goes up by one), then a next frame is requested only while running |
| LegacyRenderer.LegacyRenderer.Start | src/typoMoss/renderer.ts:239-243 | a running renderer is left alone; otherwise it runs and takes its first frame at once |
| LegacyRenderer.LegacyRenderer.Stop | src/typoMoss/renderer.ts:248-254 | not running and no frame pending |
| LegacyRenderer.LegacyRenderer.Reset | src/typoMoss/renderer.ts:259-265 | stopped, with an empty store and zeroed counters |
| LegacyRenderer.LegacyRenderer.GetStats | src/typoMoss/renderer.ts:270-280 | the frame count, the number of live instances and the configured cap |
| JsStrings.IndexOf | src/portfolios/typomoss/renderer.ts:839 | `indexOf`: -1, or a position where the pattern occurs in full |
| JsStrings.IndexOfFirst | src/portfolios/typomoss/renderer.ts:839 | the position found is the first occurrence, and -1 means there is none |
| JsStrings.Includes | src/typoMoss/vectorLoader.ts:33-35 | `includes` holds exactly when the text occurs at some position of the string |
| JsStrings.ReplaceFirst | src/portfolios/typomoss/renderer.ts:839 | `replace` with a string pattern: unchanged when the pattern is absent, else one occurrence replaced and the rest kept |
| JsStrings.TrimStart | src/portfolios/typomoss/renderer.ts:247 | the leading part of `trim`: a suffix of the input that does not start with whitespace |
| JsStrings.TrimStartDropsBlanks | src/portfolios/typomoss/renderer.ts:247 | only whitespace is removed from the front |
| JsStrings.TrimEnd | src/portfolios/typomoss/renderer.ts:247 | the trailing part of `trim`: a prefix of the input that does not end with whitespace |
| JsStrings.TrimEndDropsBlanks | src/portfolios/typomoss/renderer.ts:247 | only whitespace is removed from the end |
| JsStrings.Trim | src/portfolios/typomoss/renderer.ts:247 | the trimmed string neither starts nor ends with whitespace |
| JsStrings.TrimInside | src/portfolios/typomoss/renderer.ts:247 | the trimmed string occurs inside the original |
| JsStrings.TrimEmptyIffBlank | src/portfolios/typomoss/TypoMoss.tsx:199 | `trim()` is empty exactly when every character is whitespace |
| JsStrings.NatToString | src/portfolios/typomoss/TypoMoss.tsx:685 | `toString` of a whole number: at least one digit, and no leading zero unless the number is zero |
| JsStrings.NatToStringValue | src/portfolios/typomoss/TypoMoss.tsx:685 | the digits read back as the number |
| JsStrings.StrLeTotal | src/portfolios/typomoss/renderer.ts:116 | the string order of the id sort compares any two ids |
| JsStrings.StrLeTrans | src/portfolios/typomoss/renderer.ts:116 | the string order is transitive |
| JsStrings.InsertString | src/portfolios/typomoss/renderer.ts:116 | inserting into a sorted list keeps it sorted and adds exactly the one string |
| JsStrings.SortStrings | src/portfolios/typomoss/renderer.ts:116 | the `sort` of the ids: sorted, and a permutation of its input |
| JsStrings.ScanDigits | src/portfolios/typomoss/renderer.ts:250 | the longest run of digits at the start of a string |
| JsStrings.ScanAllDigits | src/portfolios/typomoss/renderer.ts:250 | a string of digits is scanned in full |
| JsStrings.UnsignedDecimalPrefix | src/portfolios/typomoss/renderer.ts:250 | a decimal numeral at the start of a string is non-negative and consumes at least one character |
| JsStrings.DecimalPrefix | src/portfolios/typomoss/renderer.ts:250 | a signed decimal numeral at the start of a string consumes at least one character |
| JsStrings.ParseFloat | src/portfolios/typomoss/renderer.ts:250-256 | `parseFloat`: text whose first non-blank character is a digit always reads as a number; text starting with anything but a digit, a sign or a point is NaN |
| JsStrings.NumberValue | src/portfolios/typomoss/renderer.ts:254 | `Number`: blank text is 0; text starting with anything but a digit, a sign or a point is NaN |
| JsStrings.NumberAgreesWithParseFloat | src/portfolios/typomoss/renderer.ts:253-257 | whenever `Number` reads non-blank text as a number, `parseFloat` reads the same number, so the fallback only changes NaN results |
| JsStrings.DigitsUntrimmed | src/portfolios/typomoss/renderer.ts:247 | a digit string has no whitespace to trim |
| JsStrings.DigitsAsDecimal | src/portfolios/typomoss/renderer.ts:250 | a digit string is read as a decimal numeral over its whole length |
| JsStrings.ParseNumeral | src/portfolios/typomoss/renderer.ts:250-257 | `parseFloat` and `Number` both read the decimal text of a whole number back as that number |
| JsStrings.ScanHex | src/portfolios/typomoss/renderer.ts:841 | the run of hex digits `parseInt(…, 16)` reads is within the string |
| JsStrings.ScanHexRun | src/portfolios/typomoss/renderer.ts:841 | the run holds only hex digits and stops at the first other character |
| JsStrings.ParseHexPair | src/portfolios/typomoss/renderer.ts:841-848 | `parseInt` of two hex digits in base 16 is `16 × first + second` |
| JsStrings.ParseIntHex | src/portfolios/typomoss/renderer.ts:841-848 | `parseInt(s, 16)`: an empty string and one led by a non-hex character give NaN; a string of hex digits gives its value |
| JsStrings.ToLowerAscii | src/portfolios/typomoss/renderer.ts:1034 | `toLowerCase` on ASCII: the same length, capitals shifted down by 32, every other character kept |
| CityGrid.Clamp | public/portfolios/breath-hidden-city/script.js:51-53 | `clamp`: inside [lo, hi] whenever lo <= hi, the value itself when already inside, else the bound it crossed |
| CityGrid.NearestOdd | public/portfolios/breath-hidden-city/script.js:54-57 | `nearestOdd`: an odd number, the rounded value or one above it |
| CityGrid.NearestOddOfOdd | public/portfolios/breath-hidden-city/script.js:54-57 | an odd whole number is its own nearest odd |
| CityGrid.AreaToSide | public/portfolios/breath-hidden-city/script.js:70-76 | `areaToSide`: an odd side between 1 and 47, and 1 for a missing, infinite or non-positive area |
| CityGrid.SideToCols | public/portfolios/breath-hidden-city/script.js:78-83 | `sideToCols`: an odd column count at least the side and at most one and a half sides plus one |
| CityGrid.FirstStage | public/portfolios/breath-hidden-city/script.js:85-91 | the first stage whose range [a, b) holds the side, or the last stage when none does |
| CityGrid.PickStage | public/portfolios/breath-hidden-city/script.js:85-91 | the stage loop returns the first matching stage, falling back to the last |
| CityGrid.OddSideStages | public/portfolios/breath-hidden-city/script.js:60-65 | for every side `areaToSide` can produce: 1 is HUMAN, 3-5 THEM, 7-13 TOWN, 15-47 CITY |
| CityGrid.CenterFlat | public/portfolios/breath-hidden-city/script.js:94-100 | `getCenterIndex`: twice the centre index is rows × cols - 1 |
| CityGrid.CenterIsCellIffOdd | public/portfolios/breath-hidden-city/script.js:94-100 | the centre index is a whole cell exactly when both rows and columns are odd |
| CityGrid.JsRem | public/portfolios/breath-hidden-city/script.js:393 | JavaScript `%`: for a non-negative dividend, a remainder in [0, |divisor|) |
| CityGrid.RcToIndex | public/portfolios/breath-hidden-city/script.js:392 | a cell of row `r` and a column inside the grid has its index inside that row's band `[r·cols, (r+1)·cols)` |
| CityGrid.IndexToRc | public/portfolios/breath-hidden-city/script.js:393 | `indexToRC`: a non-negative index splits into a row and a column within the columns that `rcToIndex` maps back |
| CityGrid.IndexRoundTrip | public/portfolios/breath-hidden-city/script.js:392-393 | `indexToRC(rcToIndex(r, c))` is (r, c) for any cell on or below row 0 |
| CityGrid.IndexRoundTripNeedsRow | public/portfolios/breath-hidden-city/script.js:392-393 | the round trip fails for a negative row: (-1, 1) on 5 columns does not come back |
| CityGrid.Abs | public/portfolios/breath-hidden-city/script.js:410 | `Math.abs` |
| CityGrid.RingCells | public/portfolios/breath-hidden-city/script.js:403-413 | the ring of radius k holds exactly the in-grid cells at Manhattan distance k from the centre |
| CityTokens.Repeat | public/portfolios/breath-hidden-city/script.js:501 | `"르".repeat(n)` split into characters: n copies of the syllable |
| CityTokens.Pick | public/portfolios/breath-hidden-city/script.js:498 | `Math.floor(Math.random() * k)` is an index below k |
| CityTokens.BuildVehicleWord | public/portfolios/breath-hidden-city/script.js:497-509 | `buildTownVehicleToken` / `buildCityWord`: 부 + 르×(1-4) + 릉, 따 + 르×(1-4) + 릉, or 빵×(2-5), its base one of `VEHICLE_WORDS` |
| CityTokens.VehicleTokens | public/portfolios/breath-hidden-city/script.js:528 | one vehicle token per character of the word, in reading order, each carrying the word's base |
| CityTokens.VehicleWordCells | public/portfolios/breath-hidden-city/script.js:497-528 | a vehicle word occupies 2 to 6 queue entries, none of them the bare "숨" |
| CityTokens.Head | public/portfolios/breath-hidden-city/script.js:544 | what enters the line: the queue's head, or "숨" when the queue is empty |
| CityTokens.Rest | public/portfolios/breath-hidden-city/script.js:544 | `shift()`: the queue without its head; an empty queue stays empty |
| CityTokens.Conveyed | public/portfolios/breath-hidden-city/script.js:539-548 | one step: every cell takes its neighbour on the entry side, the exit cell drops out, and the entry cell takes the new token |
| CityTokens.ConveyedTokens | public/portfolios/breath-hidden-city/script.js:539-548 | the cells lose exactly the exit token and gain exactly the entry token |
| CityTokens.ShiftIn | public/portfolios/breath-hidden-city/script.js:539-548 | the in-place shift loops followed by the entry write leave the array equal to `Conveyed` of its old contents |
| CityTokens.ConveyN | public/portfolios/breath-hidden-city/script.js:539-548 | n steps fed from a queue, then from "숨" |
| CityTokens.ForwardBlankPrefix | public/portfolios/breath-hidden-city/script.js:542-544 | after the queue runs out, each forward step adds one more "숨" at the start |
| CityTokens.BackwardBlankSuffix | public/portfolios/breath-hidden-city/script.js:546-547 | after the queue runs out, each backward step adds one more "숨" at the end |
| CityTokens.LineDrains | public/portfolios/breath-hidden-city/script.js:615-634 | a line fed by a queue of q tokens is all "숨" after q + length steps, so the tick that removes empty lines removes it by then |
| CityTown.BreathQueue | public/portfolios/breath-hidden-city/script.js:522-525 | a breath line's queue: 3 to 7 breath objects |
| CityTown.TownQueue | public/portfolios/breath-hidden-city/script.js:517-529 | `createTownLine`'s injection queue: 2 to 7 tokens, none of them the bare "숨" |
| CityTown.TownLine.constructor | public/portfolios/breath-hidden-city/script.js:517-536 | a line of the row or column length, all "숨", with its queue, entry side from its direction and `tailTicks` = length + queue + 2 |
| CityTown.TownLine.Advance | public/portfolios/breath-hidden-city/script.js:539-550 | `advanceTownBuffer`: the buffer is conveyed with the queue's head and the head is shifted off |
| CityTown.TownLine.IsAllBlank | public/portfolios/breath-hidden-city/script.js:624-625 | true exactly when every cell is "숨" |
| CityTown.TownLine.Step | public/portfolios/breath-hidden-city/script.js:619-630 | one tick of a line is `TownStep` of its state; it reports removal exactly when the line dies now |
| CityTown.TownStep | public/portfolios/breath-hidden-city/script.js:619-630 | a dead line is skipped; a live one advances, and it dies exactly when its queue is empty and its cells are all "숨" |
| CityTown.TownSystem.constructor | public/portfolios/breath-hidden-city/script.js:491-494 | no lines and no timers |
| CityTown.TownSystem.Start | public/portfolios/breath-hidden-city/script.js:683-690 | during a resize or with timers already set nothing changes; otherwise the lines are cleared and the timers start |
| CityTown.TownSystem.Stop | public/portfolios/breath-hidden-city/script.js:692-698 | timers cleared and no lines left |
| CityTown.TownSystem.Pause | public/portfolios/breath-hidden-city/script.js:636-640 | timers cleared, lines kept |
| CityTown.TownSystem.SpawnMaybe | public/portfolios/breath-hidden-city/script.js:664-681 | in the TOWN stage, on a grid of at least 3 × 3 with fewer than 4 lines and a draw below 0.8, exactly one fresh line is appended, and it is the line `createTownLine` builds from the draws (`SpawnedTownLine`): a row exactly for a row draw below 0.5, a drawn index, forward for a direction draw below 0.5, every cell "숨", live, fed by `TownQueue` of the drawn kind (breath below 0.7), with `tailTicks` = length + queue + 2; otherwise nothing changes; never more than 4 lines |
| CityTown.TownSystem.Tick | public/portfolios/breath-hidden-city/script.js:615-634 | outside the TOWN stage nothing changes; otherwise every line takes one `TownStep` and exactly the lines that died are spliced out |
| CityTown.TickLines | public/portfolios/breath-hidden-city/script.js:618-633 | the loop over the lines: each steps once, and the list keeps the survivors in order |
| CityTown.SurvivorsDistinct | public/portfolios/breath-hidden-city/script.js:629 | splicing keeps lines with distinct buffers and adds none |
| CityTown.SpliceStep | public/portfolios/breath-hidden-city/script.js:629 | splicing out a line that died leaves exactly the survivors so far |
| CityTown.Survivors | public/portfolios/breath-hidden-city/script.js:618-633 | the survivors of a tick are no more than the lines before it |
| CityLines.CooldownOf | public/portfolios/breath-hidden-city/script.js:753 | a line's cooldown is a whole number of ticks in [12, 28] |
| CityLines.Enqueued | public/portfolios/breath-hidden-city/script.js:803-812 | the queue after a push: the old queue, two "숨", one vehicle token per character of the word, two "숨" |
| CityLines.PushAll | public/portfolios/breath-hidden-city/script.js:803-812 | the push loops append their tokens in order |
| CityLines.EnqueueStep | public/portfolios/breath-hidden-city/script.js:794-813 | `maybeEnqueueForLine`: the countdown drops by one; while still positive nothing else happens; otherwise it restarts at the cooldown and a word is queued unless more than 3 tokens already wait |
| CityLines.EnqueueQuiet | public/portfolios/breath-hidden-city/script.js:794-796 | from a countdown restarted at `cooldown`, fewer than `cooldown` calls of `EnqueueStep` leave the queue alone and count down by one each |
| CityLines.EnqueuePeriod | public/portfolios/breath-hidden-city/script.js:794-811 | over iterated `EnqueueStep` from a restarted countdown: each of the first `cooldown - 1` calls leaves the queue alone with the countdown at `cooldown - k`; the `cooldown`-th restarts it at `cooldown` and pushes a word unless more than `CITY_MAX_INJECT` tokens wait; so a line tries to enqueue on exactly every cooldown-th tick |
| CityLines.Decayed | public/portfolios/breath-hidden-city/script.js:790 | the decay pass lowers every positive smoke age by one and leaves the others |
| CityLines.ExitIndex | public/portfolios/breath-hidden-city/script.js:774-781 | the exit cell is the last for a forward line and the first for a backward one |
| CityLines.SmokeAsWritten | public/portfolios/breath-hidden-city/script.js:779-790 | as written: the exit mark is set, then decayed in the same call |
| CityLines.SmokeThreeNeverDrawn | public/portfolios/breath-hidden-city/script.js:779-790 | as written, every age the renderer sees is below 3, and a fresh exit mark shows as 2, so `smoke-3` (line 862) is never applied |
| CityLines.Smoke | public/portfolios/breath-hidden-city/script.js:779-790 | corrected: decay first, then mark the exit cell |
| CityLines.SmokeMarksExit | public/portfolios/breath-hidden-city/script.js:779-790 | corrected: a vehicle leaving marks its exit cell at 3, every other age decays by one, and ages stay in [0, 3] |
| CityLines.SmokeTrail | public/portfolios/breath-hidden-city/script.js:845-864 | a fresh mark is drawn as stages 3, 2, 1 on the quiet steps that follow and is gone after three |
| CityLines.AdvanceStep | public/portfolios/breath-hidden-city/script.js:769-791 | `advanceCityBuffer` on values: the conveyor step fed by the queue head and the written smoke update (`SmokeAsWritten`: mark the exit cell, then decay) |
| CityLines.CityStep | public/portfolios/breath-hidden-city/script.js:893-899 | one line of the tick: a live line maybe enqueues, then advances; a dead one is skipped |
| CityLines.CityStepOk | public/portfolios/breath-hidden-city/script.js:794-813 | every step keeps the ages in [0, 3], at most 12 tokens queued and the countdown in [0, cooldown]; after a live step every age is at most 2, and a vehicle that just left shows at 2 |
| CityLines.CityLine.constructor | public/portfolios/breath-hidden-city/script.js:745-766 | `createCityLine`: all cells "숨", no smoke, an empty queue, a cooldown in [12, 28] and a first countdown below it |
| CityLines.CityLine.MaybeEnqueue | public/portfolios/breath-hidden-city/script.js:794-813 | the line's queue and countdown become `EnqueueStep` of the old ones |
| CityLines.CityLine.Decay | public/portfolios/breath-hidden-city/script.js:790 | the decay loop leaves `Decayed` of the old ages |
| CityLines.CityLine.Advance | public/portfolios/breath-hidden-city/script.js:769-791 | the line's state becomes `AdvanceStep` of the old one: cells shifted, the exit marked and then every age decayed, as written |
| CityLines.CityLine.Step | public/portfolios/breath-hidden-city/script.js:894-898 | the line's state becomes `CityStep` of the old one |
| CityLines.StepLines | public/portfolios/breath-hidden-city/script.js:893-899 | the tick loop: every line takes its own `CityStep`, lines not sharing cells |
| CityLines.CitySystem.constructor | public/portfolios/breath-hidden-city/script.js:714-716 | no lines and no timers |
| CityLines.CitySystem.AddLines | public/portfolios/breath-hidden-city/script.js:906-913 | the refill and seed loops append the given number of fresh lines, each the one its draws describe |
| CityLines.CitySystem.AppendLine | public/portfolios/breath-hidden-city/script.js:907-911 | one fresh line is appended and the old lines kept |
| CityLines.CitySystem.Tick | public/portfolios/breath-hidden-city/script.js:889-916 | outside the CITY stage nothing changes: the same lines, each with the same cells, smoke ages, queue, countdown and liveness; otherwise every line steps once and `RefillCount` fresh lines are appended, the k-th built by `createCityLine` from the k-th refill draw (`NewLine`: all cells "숨", no smoke, empty queue, its cooldown and countdown, alive) |
| CityLines.CitySystem.SpawnMaybe | public/portfolios/breath-hidden-city/script.js:918-936 | below 28 lines, on a grid of at least 3 × 3, a draw below 0.45 appends one fresh line (a row for a draw below 0.3), with a drawn index and direction, its cooldown, all cells "숨", no smoke, an empty queue, countdown `Pick(next, cooldown)` and alive; otherwise nothing changes |
| CityLines.CitySystem.Start | public/portfolios/breath-hidden-city/script.js:947-966 | unless suspended the timers run; an empty system on a grid of at least 3 × 3 is seeded with `min(12, rows + cols)` lines, the k-th built by `createCityLine` from the k-th seed draw (`NewLine`); otherwise the lines are kept |
| CityLines.CitySystem.Pause | public/portfolios/breath-hidden-city/script.js:968-971 | timers cleared, lines kept |
| CityLines.CitySystem.Stop | public/portfolios/breath-hidden-city/script.js:973-979 | timers cleared and no lines left |
| CityLines.RefillCount | public/portfolios/breath-hidden-city/script.js:902-915 | the refill adds `min(12 - n, 4)` lines when below 12 on a grid of at least 3 × 3, else none, never passing 12 |
| CityLines.RefillReachesMinimum | public/portfolios/breath-hidden-city/script.js:902-915 | three ticks bring any line count up to 12, and never past it from below |
| CityLines.CreateLine | public/portfolios/breath-hidden-city/script.js:907-910 | a row for a draw below 0.5, an index in range, forward for a draw below 0.5: the line `createCityLine` returns |
| Workbook.ClampStep | src/portfolios/originality-workbook/OriginalityWorkbook.tsx:33 | `clampStep`: a shown step's index when there are steps (the index itself when in range, the last for one past the end, 0 below 0), and 0 when there are none |
| Workbook.ClampIdempotent | src/portfolios/originality-workbook/OriginalityWorkbook.tsx:33 | clamping a clamped index changes nothing |
| Workbook.ProgressPercent | src/portfolios/originality-workbook/OriginalityWorkbook.tsx:47-50 | the bar's width lies in (0, 100] for a shown step and is 100 exactly on the last step; with no steps it is not a number |
| Workbook.SummaryText | src/portfolios/originality-workbook/OriginalityWorkbook.tsx:60 | `value \|\| '—'`: the answer, or the dash when it is empty |
| Workbook.AdvanceReachesLast | src/portfolios/originality-workbook/OriginalityWorkbook.tsx:76-79 | k advances from a shown step reach `min(step + k, last)`, so advancing on the last step stays there |
| Workbook.Workbook.constructor | src/portfolios/originality-workbook/OriginalityWorkbook.tsx:19-94 | the effect's setup: the four empty answers, step 0 shown with the bar hidden, and the summary drawn |
| Workbook.Workbook.RenderStep | src/portfolios/originality-workbook/OriginalityWorkbook.tsx:35-52 | `renderStep`: exactly the clamped step is active, the bar is hidden exactly on step 0 and sized to the step, and the clamped index is returned |
| Workbook.Workbook.RenderSummary | src/portfolios/originality-workbook/OriginalityWorkbook.tsx:56-62 | `renderSummary`: every summary field shows its answer or the dash |
| Workbook.Workbook.HandleChoice | src/portfolios/originality-workbook/OriginalityWorkbook.tsx:64-74 | a button missing its key or value changes nothing; otherwise its answer is stored, the summary redrawn and the workbook advanced one clamped step |
| Workbook.Workbook.HandleAdvance | src/portfolios/originality-workbook/OriginalityWorkbook.tsx:76-79 | one clamped step on, with the page still showing it |
| Workbook.Workbook.HandleReset | src/portfolios/originality-workbook/OriginalityWorkbook.tsx:81-89 | every answer key becomes empty (none added or dropped), all summary fields show the dash, and step 0 is shown |
| MossSettings.Merged | src/portfolios/typomoss/TypoMoss.tsx:45-59 | every id of `ELEMENT_CONFIGS` keeps its default config; stored ids only add the ones the defaults lack; the ids are exactly both key sets |
| MossSettings.Loaded | src/portfolios/typomoss/TypoMoss.tsx:37-75 | `loadSettings`: the defaults when storage is empty or corrupt; otherwise the merged configs, with density defaulting to 0.6 and minimum size to 40 |
| MossSettings.SavedOf | src/portfolios/typomoss/TypoMoss.tsx:156-167 | `saveSettings` writes the configs, density and minimum size |
| MossSettings.MergedIdempotent | src/portfolios/typomoss/TypoMoss.tsx:45-59 | merging into an already merged record changes nothing |
| MossSettings.ReloadStable | src/portfolios/typomoss/TypoMoss.tsx:37-167 | saving the loaded settings and loading them again gives the same settings |
| MossSettings.MergeConfigs | src/portfolios/typomoss/TypoMoss.tsx:45-59 | the two `forEach` loops build exactly `Merged` |
| MossSettings.LoadSettings | src/portfolios/typomoss/TypoMoss.tsx:37-75 | `loadSettings` with its loops gives `Loaded` |
| MossSettings.ApplyField | src/portfolios/typomoss/TypoMoss.tsx:185-188 | one field of the element's config is replaced and every other field kept |
| MossSettings.Overlay | src/portfolios/typomoss/TypoMoss.tsx:272-279 | `loadPreset`'s merge keeps exactly the current ids; the preset's configs override only ids already present |
| MossSettings.OverlayRoundTrip | src/portfolios/typomoss/TypoMoss.tsx:272-279 | loading a preset made of the current configs gives them back; a preset covering every id replaces them all |
| MossSettings.OverlayConfigs | src/portfolios/typomoss/TypoMoss.tsx:272-279 | the loop over the preset's entries builds exactly `Overlay` |
| MossSettings.RecordingLabelReadsBack | src/portfolios/typomoss/TypoMoss.tsx:685 | the label is the minutes, one colon and exactly two digits of seconds, and reading them back gives the time |
| MossSettings.SecondsNumeralShort | src/portfolios/typomoss/TypoMoss.tsx:685 | seconds below 60 take at most two digits, so the padding gives exactly two |
| MossSettings.PadTwo | src/portfolios/typomoss/TypoMoss.tsx:685 | `padStart(2, '0')` turns a one- or two-digit numeral into two digits with the same value |
| MossSettings.RecordingLabel | src/portfolios/typomoss/TypoMoss.tsx:685 | the label has a colon third from the end, and the two digits after it read back as the seconds modulo 60 |
| MossSettings.SettingsPage.constructor | src/portfolios/typomoss/TypoMoss.tsx:30-81 | the first render: settings from storage, no presets, nothing being edited, the modal closed |
| MossSettings.SettingsPage.LoadPresets | src/portfolios/typomoss/TypoMoss.tsx:91-100 | a stored list that parses replaces the presets; anything else leaves them |
| MossSettings.SettingsPage.UpdateDensity | src/portfolios/typomoss/TypoMoss.tsx:169-175 | the density is replaced and saved |
| MossSettings.SettingsPage.UpdateMinElementSize | src/portfolios/typomoss/TypoMoss.tsx:177-183 | the minimum size is replaced and saved |
| MossSettings.SettingsPage.UpdateElementConfig | src/portfolios/typomoss/TypoMoss.tsx:185-195 | a known id gets the one field replaced and the settings saved; an unknown id changes nothing |
| MossSettings.SettingsPage.EditPreset | src/portfolios/typomoss/TypoMoss.tsx:254-267 | `renamePreset` / `overwritePreset`: the modal opens on the preset, its name in the input and the rename flag set as asked |
| MossSettings.SettingsPage.SavePreset | src/portfolios/typomoss/TypoMoss.tsx:198-251 | a refused save (`PresetsAfterSave` gives nothing) changes none of the page's preset state; an accepted one takes and stores `PresetsAfterSave`'s list, clears the input and the edit state and closes the modal |
| MossSettings.SettingsPage.LoadPreset | src/portfolios/typomoss/TypoMoss.tsx:270-298 | the current ids take the preset's configs where it has them, the preset's density and size replace the page's, and the result is saved |
| MossSettings.SettingsPage.DeletePreset | src/portfolios/typomoss/TypoMoss.tsx:301-308 | unconfirmed, nothing changes; confirmed, exactly the index-th entry leaves, the rest keep their order, and the list is saved |
| MossSettings.PresetsAfterSave | src/portfolios/typomoss/TypoMoss.tsx:198-242 | a blank name, or a new preset when 3 exist, is refused; a rename changes only the name at the index, an overwrite replaces the entry with the current settings, and a new preset is appended |
| MossSettings.BlankNameRefused | src/portfolios/typomoss/TypoMoss.tsx:199-202 | a name made only of whitespace is refused |
| MossSettings.PresetCountBounded | src/portfolios/typomoss/TypoMoss.tsx:204-240 | a save grows the list by at most one and only from fewer than 3, so the list never exceeds 3 |
| MossSettings.RenameKeepsRest | src/portfolios/typomoss/TypoMoss.tsx:214-220 | a rename changes only the edited preset's name; every other field and every other preset is kept |
| MossSettings.DeleteKeepsOthers | src/portfolios/typomoss/TypoMoss.tsx:304 | the filtered list is the list without its index-th entry, the rest in order |

## Left out

- Canvas drawing is left out: `setupCanvas`, the body of `renderInstance` (transforms, `drawImage`, `fillText`), background fills and image smoothing in both engines. These are calls into the 2D context. What `render` decides before drawing is modelled in `MossDraw`. The older engine's `render` (src/typoMoss/renderer.ts:126-149) only draws, so it is left out as a whole.
- `recolorSVG` is left out: it fetches the SVG text, rewrites its fill colours with regular expressions and loads the result as an image, all asynchronously. Only its cache keys and the decision whether to recolour are modelled.
- `colorDistance` is left out. It is a square root over colour differences and has no logic to prove.
- `requestAnimationFrame`/`cancelAnimationFrame` scheduling is left out, as are clock reads. Frame ids and clock values are parameters.
- `console` output and the debug fields `lastSpawnInfo`/`lastRandomSelection` are left out.
- IEEE-754 behaviour is not modelled: rounding, NaN and infinities. NaN from `parseFloat` appears as `None`.
- Aliasing is not captured. The source shares config objects between the page, the renderer and the presets through shallow copies; the model stores configs as values.
- JsStrings.SortStrings: orders ids by UTF-16 code unit rather than by `localeCompare`'s locale collation. The two agree on the plain ASCII ids the loaders produce, but not on every string.
- JsStrings.NumberValue: reads decimal notation only (sign, digits, one point). `Number` also accepts an exponent (`"5e-1"`), hexadecimal, octal and binary prefixes (`"0x1A"`) and `"Infinity"`; such text is NaN in the model.
- JsStrings.ParseFloat: reads decimal notation only. `parseFloat` also reads an exponent (`"5e-1"` is 0.5) and `"Infinity"`; the model stops before the `e`.
- MossTypes.DefaultRandomWeight: the weights rotate 0.3, pulse 0.3, layered 0.2, flicker 0.1 and grow 0.1 are assumed. renderer.ts:15 imports `DEFAULT_RANDOM_MODE_CONFIG` from config.ts, which does not define it, so the import is `undefined` and the lookup at renderer.ts:270 would throw for an element whose `randomModeConfig` is empty.
- MossRenderer.Renderer.Update: the generator state after a frame that draws is not stated, because how many numbers `createInstance` draws depends on the mode and the placement branch. The facts about each new instance are stated by `TitleStep` and `SpawnStep` and not repeated.
- MossPlacement.JoinLayer: a cluster head without layered data reads as zeros in the model. Such a head is a peer whose `animationMode` is `layered` but which was placed under another mode; the filter at renderer.ts:392-393 admits it. The source reads `undefined` there and places the new layer at NaN.
- MossPlacement.JoinGrow: a stack head without grow data reads as zeros in the model. Such a head is a peer whose `animationMode` is `grow` but which was placed under another mode; the filter at renderer.ts:558-560 admits it. The source places the new layer at NaN.
- JsStrings.ToLowerAscii: lowers only ASCII capitals. `toLowerCase` also maps non-ASCII letters. The colour strings and file names it is applied to are ASCII.
- LegacyRenderer.NewInstance: the id `inst-N` is kept as its number N, because only the counter's distinctness matters to the store.
- The older engine's `Math.random() < 0.001` retirement draw is a function from instance position to a draw, one draw per instance, in the order `forEach` visits them.
- The `default` branch of the older `getAnimationProperties` (src/typoMoss/animationModes.ts:164-166) cannot be reached: the older mode type has exactly the three cases handled before it.
- The outer `catch` of `getSVGFileList` (src/portfolios/typomoss/vectorLoader.ts:45-48) is not modelled. Only `fetch` could throw there, and that is caught per file; the model takes the result of probing each file as a parameter.
- The `try`/`catch` around each file in the older `loadVectorElements` is not modelled, because nothing inside it throws: `loadSVGAsImage` resolves on both outcomes.
- DOM cell styling on the hidden city page is left out: `renderGrid`, `renderTownLine`, `renderCityLine`, `resetLineCells` and `resetTownLineCells`. So are its audio objects and fades, the resize debounce, the modal idle timer, the cursor, and the timing of the group wave (only the ring cells are modelled).
- The `smokeAges` array of a town line is created but never read (script.js:533), so `CityTown.TownLine` omits it.
- CityTown.TownLine.constructor: requires a line of at least one cell. The source builds lines only on grids of at least 3 × 3, so a zero-length line never arises.
- CityLines.CityLine.constructor: requires a line of at least one cell, for the same reason.
- CityGrid.IndexRoundTrip: requires a row of at least 0. `indexToRC` floors the division, so a negative row does not come back; `IndexRoundTripNeedsRow` exhibits this. The page only converts indices of cells that exist.
- CityLines.EnqueueStep: `CITY_MAX_INJECT` is documented as a number of words, but the code compares it with the queue's length in tokens (script.js:800). The model follows the code. `CityStepOk` proves the resulting bound of at most 12 queued tokens.
- Workbook.Workbook.RenderStep: assumes the progress bar and its wrapper exist. The page always renders both, and the source skips the updates when they are missing.
- Workbook.Workbook.RenderSummary: assumes the four summary spans exist, which the page always renders.
- Workbook: the `aria-hidden` attribute mirrors `is-active` and is not tracked separately. Scrolling to the top is left out.
- MossSettings.SettingsPage.SavePreset: requires the edited preset's index to be in the list. The page only sets it from an entry of the list.
- MossSettings.SettingsPage.UpdateElementConfig: the field update covers the fields the page edits: frequency, size, maxSize, animationMode, animationSpeed and color. The source writes any key of the config object.
- `JSON.parse` of stored text is modelled by the variants of `StoredSettings` and `StoredPresets` (nothing, unparseable, or a parsed value). The JSON text itself is not modelled.
- The settings page's calls into the live renderer (`updateConfig`, `updateElementConfig`, `start`, `stop`, the stats interval) are left out, as are `alert`, `MediaRecorder`/`captureStream` recording and the JSX. `confirm` is a boolean argument.

## Findings

| source | as written | input that shows it | evidently intended | confidence | as-written member | corrected member |
|---|---|---|---|---|---|---|
| src/portfolios/typomoss/renderer.ts:961 | `opacity = animProps.opacity \|\| 1` treats an opacity of exactly 0 as missing | a rotate or pulse instance whose age has reached its lifespan: the curve gives opacity 0, and the instance is drawn fully opaque | the curve's opacity is drawn, so a finished fade-out stays invisible (the frame model keeps the written behaviour) | medium, not executed | MossDraw.DrawOpacityAsWritten, MossDraw.FadedOutDrawnOpaque | MossDraw.DrawOpacity, MossDraw.DrawOpacityFollowsCurve |
| src/typoMoss/animationModes.ts:110 | the pulse fade-in is `0.5 + progress * 1.67` below progress 0.3 | age 539 of lifespan 1800 (progress ≈ 0.2994): opacity ≈ 1.0001, above 1 | a fade-in from 0.5 reaching exactly 1 at progress 0.3 (slope 1/0.6), meeting the later branch without overshooting (the curves keep the written coefficient) | high, not executed | LegacyAnimation.PulseOpacityAsWritten, LegacyAnimation.PulseOpacityOvershoots | LegacyAnimation.PulseOpacity, LegacyAnimation.PulseOpacityClose |
| public/portfolios/breath-hidden-city/script.js:779-790 | `advanceCityBuffer` sets the exit cell's smoke age to `CITY_SMOKE_STEPS` (3) and then decays every age in the same call, before `renderCityLine` reads it | any step in which a vehicle token leaves a city line: the exit cell shows age 2, and no cell is ever at age 3, so the `smoke-3` class (line 862) is never applied | decay first, then mark the exit, so the trail shows stages 3, 2, 1 (the line model keeps the written order) | medium, not executed | CityLines.SmokeAsWritten, CityLines.SmokeThreeNeverDrawn | CityLines.Smoke, CityLines.SmokeMarksExit, CityLines.SmokeTrail |
