# Tech-company constellation layout

This project models the layout pipeline of the "Techmap" page. The page shows tech companies as
stars in a 3D constellation map. The pipeline does the following:

- gives each company a brightness from its employee-count text;
- sorts the company into one of eight keyword-driven constellations (AI & ML, Fintech, Hardware,
  Security, Consumer, Enterprise, Biotech, Mobility);
- places it on an orbit whose radius grows with the company's age;
- at the chosen density, keeps only the brightest companies;
- spreads the kept companies over a golden-angle spiral with a random jitter of the radius;
- sorts the scene inner orbit first and lifts it into 3D;
- reveals it 15 stars at a time on a 50 ms timer;
- anchors a tooltip above the star under the pointer.

Modules:

- `Constellations`: the catalogue, ASCII lower-casing, substring search, and the first-match
  classifier with its ENTERPRISE fallback.
- `Metrics`: brightness in tenths (0.3 is `3`, 1.0 is `10`), the digit-stripping employee-count
  parser, and the orbit-radius formula.
- `StableSort`: the engine's stable `Array.prototype.sort`. It is specified by an insertion sort,
  and a uniqueness lemma shows that every stable sort gives the same sequence. It is carried out
  in place on an `array`.
- `Layout`: the company records, the density sampler (which sorts its input array in place, as
  the page's code does), the per-company augmentation, and the scene layout.
- `Reveal`: the `ConstellationScene` state — visible count, reveal timer and hovered company — as
  a class whose methods are the timer tick, a reload with new data, and the pointer events.

The random draws (`Math.random()`) and the current year are parameters. Positions are kept in
polar form: the angle in degrees and the radius, with the 3D lift keeping the angle, halving the
radius and adding a depth `z`. The Cartesian coordinates are those values passed through cos and
sin.

The model follows the code on these points, which a reader might expect to be otherwise:

- the jittered radius is not clamped at 0;
- angles are assigned in sample order, before the radius sort;
- leaving any star clears the hover;
- the visible count is not reset when the data changes;
- the age is clamped only from above.

## Model

| member | source | states |
|---|---|---|
| Constellations.Lower | src/pages/Techmap.jsx:158-163 | `toLowerCase` keeps the length, leaves no upper-case ASCII letter, and changes no other character |
| Constellations.Contains | src/pages/Techmap.jsx:163 | `includes` holds exactly when the pattern occurs at some index of the text |
| Constellations.AnyKeywordIn | src/pages/Techmap.jsx:162-164 | true exactly when some keyword, lower-cased, occurs in the description |
| Constellations.FirstMatch | src/pages/Techmap.jsx:160-168 | returns the index of a matching catalogue entry with no earlier entry matching; no index exactly when no entry matches |
| Constellations.DetermineConstellation | src/pages/Techmap.jsx:157-171 | the result is always one of the eight catalogue entries, and ENTERPRISE when no keyword matches |
| Constellations.DetermineIsFirstMatch | src/pages/Techmap.jsx:160-167 | when entry i matches and no entry before it does, entry i is the result (first match in declaration order wins) |
| Constellations.DetermineIgnoresCase | src/pages/Techmap.jsx:158-163 | two descriptions equal up to ASCII case get the same constellation |
| Constellations.DetermineOfLowered | src/pages/Techmap.jsx:158 | lower-casing the description first changes nothing |
| Constellations.PlatformIsConsumer | src/pages/Techmap.jsx:76-91 | a description mentioning "platform" that matches none of the first four groups is CONSUMER, not ENTERPRISE |
| Constellations.AiPoweredSaasPlatform | src/pages/Techmap.jsx:10-25 | "AI-powered SaaS platform" lands in AI & ML because that group is checked first |
| Constellations.SupplyChainIsAiMl | src/pages/Techmap.jsx:10-25 | "Supply chain logistics" lands in AI & ML, because the keyword "AI" is a substring of "chain" |
| Metrics.StripNonDigits | src/pages/Techmap.jsx:145 | the kept text holds only digits, is empty when the input has none, and is the input itself when that is all digits |
| Metrics.DigitsValue | src/pages/Techmap.jsx:145 | `parseInt` of k decimal digits is below 10^k, and at least 10^(k−1) when the first digit is not 0 |
| Metrics.ParsedCount | src/pages/Techmap.jsx:145 | the count has no more decimal digits than the text has digits, and is 0 for text without digits |
| Metrics.Tier | src/pages/Techmap.jsx:147-154 | the brightness lies between 0.3 and 1.0 |
| Metrics.Brightness | src/pages/Techmap.jsx:142-155 | the brightness lies between 0.3 and 1.0; missing or empty text gives 0.3 |
| Metrics.TierCountsThresholds | src/pages/Techmap.jsx:147-154 | the threshold table is 0.3 plus 0.1 per threshold (100, 200, 500, 1000, 2000, 5000, 10000) reached |
| Metrics.BrightnessMonotone | src/pages/Techmap.jsx:145-154 | a larger parsed employee count never gives a dimmer star |
| Metrics.NoDigitsIsLowest | src/pages/Techmap.jsx:145-154 | text without digits parses as 0 and gives the lowest brightness |
| Metrics.StripAppend | src/pages/Techmap.jsx:145 | stripping non-digits distributes over concatenation |
| Metrics.DigitsValueAppend | src/pages/Techmap.jsx:145 | the value of digits x followed by digits y is value(x)·10^|y| + value(y) |
| Metrics.ParsedCountConcatenates | src/pages/Techmap.jsx:145 | the parsed count of s + t glues the digits of s before those of t |
| Metrics.RangeTextReadsConcatenated | src/pages/Techmap.jsx:145-153 | a range such as "1-50" is read as 150 and gives brightness 0.4 |
| Metrics.TenThousandPlusIsBrightest | src/pages/Techmap.jsx:145-147 | "10,000+" parses as 10000 and gives brightness 1.0 |
| Metrics.FiftyIsDimmest | src/pages/Techmap.jsx:145-154 | "50" gives the lowest brightness 0.3 |
| Metrics.OrbitRadius | src/pages/Techmap.jsx:173-181 | for a founding year not in the future and min ≤ max, the radius lies between min and max |
| Metrics.OrbitAtFounding | src/pages/Techmap.jsx:175-180 | a company founded this year sits on the innermost radius |
| Metrics.OrbitSaturates | src/pages/Techmap.jsx:177-180 | every company aged 50 years or more sits on the outermost radius |
| Metrics.OrbitMonotone | src/pages/Techmap.jsx:175-180 | an older company never gets a smaller radius than a younger one |
| Metrics.OrbitBelowInnerForFutureFounding | src/pages/Techmap.jsx:175-180 | a founding year in the future gives a radius below the minimum, since the age is not clamped from below |
| Metrics.OrbitWithLayoutRadii | src/pages/Techmap.jsx:203-213 | with radii 60 and 15 the orbit is 15 + 0.9·min(age, 50) |
| Metrics.OrbitExamples | src/pages/Techmap.jsx:173-181 | ages 0, 10, 25 and 50 give radii 15, 24, 37.5 and 60 |
| StableSort.InsertionSort | src/pages/Techmap.jsx:193-197 | the sorted sequence has the input's length and is a permutation of it |
| StableSort.InsertionSortIsStable | src/pages/Techmap.jsx:193-197 | the result is sorted by the key and keeps the relative order of every group of equal keys |
| StableSort.StableSortIsUnique | src/pages/Techmap.jsx:193-197 | any stable sort of the input equals the insertion sort, so the comparator sort is fully determined |
| StableSort.SortedIsFixed | src/pages/Techmap.jsx:378 | sorting an already sorted sequence leaves it unchanged |
| StableSort.SortInPlace | src/pages/Techmap.jsx:193-197 | after the in-place sort the array holds the stable sort of its old contents |
| Layout.Limit | src/pages/Techmap.jsx:186-190 | the density limit never exceeds the number of companies |
| Layout.BrightnessKey | src/pages/Techmap.jsx:193-197 | the sampler's sort key is the brightness negated, so it lies between −10 and −3 tenths |
| Layout.BrighterSortsFirst | src/pages/Techmap.jsx:193-197 | the comparator `brightnessB - brightnessA` orders a before b exactly when a is at least as bright |
| Layout.Sampled | src/pages/Techmap.jsx:184-199 | the sample has exactly the density limit's length, is the whole list when that fits, and takes companies only from the input |
| Layout.SampledBrightestFirst | src/pages/Techmap.jsx:192-198 | a trimmed sample is ordered by non-increasing brightness |
| Layout.SampledKeepsBrightest | src/pages/Techmap.jsx:192-198 | every dropped company is no brighter than every kept one |
| Layout.SampledKeepsEarliestOfEqualBrightness | src/pages/Techmap.jsx:193-198 | within one brightness, the kept companies are the earliest of that brightness in input order |
| Layout.Processed | src/pages/Techmap.jsx:183-234 | `processCompanies` as a value: as many records as the density limit, each holding one of the input companies, the i-th at angle i·137.5° |
| Layout.ProcessCompanies | src/pages/Techmap.jsx:183-234 | the caller's array is sorted brightest first exactly when it is over the limit and is otherwise untouched; the result is the augmented sample |
| Layout.Augment | src/pages/Techmap.jsx:206-232 | keeps the company and adds its brightness, badge, badge colour and orbit radius; the angle is index·137.5°; the jittered radius lies in [orbit − 7.5, orbit + 7.5) |
| Layout.Augmented | src/pages/Techmap.jsx:206-233 | one placed record per kept company, the i-th augmented with index i |
| Layout.Lift | src/pages/Techmap.jsx:381-388 | keeps every field but the position, keeps the angle, halves the radius and adds a depth in [−10, 10) |
| Layout.Lifted | src/pages/Techmap.jsx:381-388 | the `map` over the sorted records: one lifted star per record, the i-th from the i-th record and the i-th depth draw |
| Layout.SceneOf | src/pages/Techmap.jsx:374-389 | the scene memo as a value: as many stars as the medium limit, each holding one of the input companies |
| Layout.LayoutScene | src/pages/Techmap.jsx:374-389 | the scene is the medium-density sample, augmented, stably sorted by orbit radius and lifted; the caller's array is sorted brightest first when it holds more than 300 companies, and is untouched otherwise |
| Layout.RadiusPositiveForPastFounding | src/pages/Techmap.jsx:209-216 | for a founding year not in the future the jittered radius is at least 7.5 |
| Layout.NegativeRadiusForFutureFounding | src/pages/Techmap.jsx:173-216 | a founding year 20 years ahead with the lowest jitter gives the negative radius −10.5 (it is not clamped) |
| Layout.SceneLength | src/pages/Techmap.jsx:186-199 | the scene holds min(300, n) stars |
| Layout.SceneSortedByOrbit | src/pages/Techmap.jsx:378 | the scene is ordered inner orbit first: ascending in `OrbitKey`, the orbit radius, which is the key of that sort |
| Layout.SceneAngleIsSampledIndex | src/pages/Techmap.jsx:215 | each star's angle is 137.5° times the position of its company in the sample, not in the sorted scene |
| Layout.OrbitsAscendWhenAgesAscend | src/pages/Techmap.jsx:206-215 | companies listed youngest first get non-decreasing orbit radii |
| Layout.SceneKeepsOrderWhenAgesAscend | src/pages/Techmap.jsx:206-215 | up to 300 companies listed youngest first keep their order, and with it their spiral angles, in the scene |
| Reveal.NextCount | src/pages/Techmap.jsx:399 | one tick shows at most all stars, adds exactly 15 unless it reaches the total, and never hides a star |
| Reveal.CountAfterIsBatchesShown | src/pages/Techmap.jsx:397-405 | after k ticks, min(15·k, total) stars are visible |
| Reveal.CountAfterMonotone | src/pages/Techmap.jsx:397-405 | the visible count never decreases over ticks |
| Reveal.RevealTakesCeilTicks | src/pages/Techmap.jsx:397-405 | the whole scene shows after ⌈total/15⌉ ticks and not before |
| Reveal.FindById | src/pages/Techmap.jsx:417 | returns the first position with the hovered id, and none exactly when no star has that id |
| Reveal.ConstellationScene.constructor | src/pages/Techmap.jsx:369-392 | starts with nothing visible and nothing hovered; the timer runs only when there are stars |
| Reveal.ConstellationScene.Tick | src/pages/Techmap.jsx:397-405 | the count advances by one batch, capped at the total, and the timer stops exactly when everything is visible |
| Reveal.ConstellationScene.Reload | src/pages/Techmap.jsx:391-408 | new data restarts the timer only when the number of stars changed, and does not reset the visible count |
| Reveal.ConstellationScene.RunTimer | src/pages/Techmap.jsx:397-405 | running the timer to completion shows every star, in ⌈total/15⌉ ticks from a fresh start |
| Reveal.ConstellationScene.PointerEnter | src/pages/Techmap.jsx:273 | the entered star becomes the hovered one |
| Reveal.ConstellationScene.PointerLeave | src/pages/Techmap.jsx:274 | leaving any star clears the hover |
| Reveal.ConstellationScene.Visible | src/pages/Techmap.jsx:410-413 | the visible stars are the first visible-count stars of the scene |
| Reveal.ConstellationScene.TooltipAnchor | src/pages/Techmap.jsx:415-422 | the origin when nothing is hovered or the id is not in the scene; otherwise 2 units above the first star with that id |
| Reveal.VisibleAreInnermost | src/pages/Techmap.jsx:378-413 | on a scene sorted by orbit, every visible star is no further out than every hidden one |

## Left out

- Floating point: brightness is exact tenths and radii and angles are exact reals, so IEEE rounding (e.g. `0.1 + 0.2`) is not modelled.
- Trigonometry: cos and sin of the angle are not modelled; positions stay polar (angle in degrees, radius, and depth `z` after the lift).
- `Math.random()` and `new Date().getFullYear()` are parameters: the jitter and depth draws are sequences of values in [0, 1), and the current year is an integer. One year is used for the whole layout, whereas the page reads the clock once per company, so a layout run across a year boundary could mix two years.
- Metrics.Brightness: `parseInt` of a digit string is exact here; JavaScript loses precision above 2^53. Only string values (or a missing value) are modelled, not other falsy or non-string `employees` values.
- Records are assumed to carry a string `description` and an integer `founded`. The page does not check this. A missing description makes `toLowerCase` throw, so the whole scene memo fails. A missing or non-numeric founding year makes the orbit radius NaN, and a NaN radius leaves the order of the radius sort unspecified.
- Constellations.Lower: lower-casing is ASCII only and keeps the length; JavaScript's `toLowerCase` maps non-ASCII letters too and can lengthen the string ("İ" becomes two code units).
- Constellations.DetermineConstellation: lower-casing is ASCII only; JavaScript's Unicode case mapping (which can change string length) is not modelled.
- Layout.Augment: the placed record holds the company as a nested value instead of spreading its fields, so the case where a company already has a field called `brightness`, `constellation`, `color`, `position` or `orbitRadius` (which the spread would overwrite) is not modelled.
- The fetch of the company list, the loading and error screens, and the rendering of stars, labels, lines and the legend are not part of this model.
- The reveal timer is modelled by its ticks; the 50 ms interval between ticks is not modelled.
- The per-frame animation (lerped scale and opacity) and the fade-in delay of 20 ms per star index are rendering details and are not modelled.
- React's scheduling (memo recomputation, effect clean-up, state batching) is modelled only as the `ConstellationScene` methods being called one after another; interleaving with rendering is not modelled.
- The other pages of the site are not part of this model.
