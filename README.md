# Waste classification, pricing and nearby centers — a Dafny model

The application lets a user photograph household waste. An on-device image
model labels the photo. The label is mapped to one of five waste
categories, and the category gets an indicative price per kilogram. The app
also lists the recycling and scrap centers nearest to the user. This project
models the logic behind those steps and proves what it promises:

- `classifier.dfy` (module `WasteClassifier`) covers the classifier
  adapter:
  - the ordered keyword rules that turn a label into a category;
  - the choice of one candidate among the model's top five answers;
  - the memoised model handle, with its backend fallback chain (WebGPU,
    then wasm, then the library default) and the single retry on wasm.

  The handle is a class with one mutable field, `classifier`. The model
  library is not called: a load or an inference is a parameter that says
  how it went.
- `patterns.dfy` (module `Patterns`) gives the regular expressions of the
  rules their meaning: a pattern is found in a string when it matches some
  span of it. `text.dfy` (module `Text`) holds ASCII lower-casing,
  substring occurrence, and the evidence used to show that a word is absent.
- `pricing.dfy` (module `Pricing`) holds the category names, the rates, and
  the estimate rounded to two decimals with half-up rounding (that is
  `Math.round`).
- `centers.dfy` (module `NearbyCenters`) turns a parsed Overpass answer
  into the list shown:
  - each element gets field fallbacks;
  - elements without numeric coordinates are dropped;
  - the rest are stably sorted by a distance the caller supplies;
  - eight are kept.

  `stable_sort.dfy` (module `StableSort`) is the stable sort it uses.
- `uploader.dfy` (module `GarbageUploader`) is the upload component as a
  class. Its fields are `isDragging`, `previewUrl` and `isLoading`, and it
  has one method per event.
- `label_examples.dfy` (module `LabelExamples`) works the rules through on
  the labels they were written for.
- `wrappers.dfy` holds `Option`.

Two behaviours of the code are easy to miss, and the model keeps both:

- **A failed model load rejects.** A failed inference never reaches the
  caller as an error: it is retried once on wasm, and when the reload or
  the retry fails the result is the sentinel `unknown/0/mixed`. But
  `ensureClassifier()` is awaited before the `try` opens
  (src/services/wasteClassifier.ts:43). So when no backend loads, the
  promise rejects. The uploader then shows its "failed" notification.
  `ClassifierService.ClassifyImage` returns `Rejected` in that case.
- **A failed center fetch keeps the list as it was.** The `catch` of the
  fetch (src/components/NearbyCenters.tsx:79-81) only logs and notifies; it
  never calls `setCenters`. The coordinates are set at most once per mount,
  because the geolocation effect has no dependencies. So the fetch runs at
  most once, and after a failure the list kept is the initial empty one.
  `FetchCenters` returns `None` for that path.

## Model

| member | source | states |
|---|---|---|
| Pricing.CategoriesComplete | src/utils/pricing.ts:1 | every value of the category type is one of the five listed |
| Pricing.CategoryDisplay | src/utils/pricing.ts:3-9 | every category has a non-empty display name |
| Pricing.DisplayNamesDistinct | src/utils/pricing.ts:3-9 | different categories have different display names |
| Pricing.PricePerKg | src/utils/pricing.ts:12-18 | every category has a positive whole-rupee rate, so the `?? 0` fallback never applies |
| Pricing.Round | src/utils/pricing.ts:22 | `Math.round` gives an integer within half of its argument, with halves rounded up |
| Pricing.EstimatePrice | src/utils/pricing.ts:20-23 | the estimate is a whole number of paise, within half a paisa of rate × weight: less than half a paisa below it, or at most half a paisa above it |
| Pricing.TwoDecimalRoundingUnique | src/utils/pricing.ts:22 | only one two-decimal amount meets that bound, so the estimate is determined by it |
| Pricing.EstimateOfNothing | src/utils/pricing.ts:20-23 | zero kilograms are worth nothing |
| Pricing.EstimateOfOneKilogram | src/utils/pricing.ts:20-23 | with the default weight of 1 kg the estimate is exactly the rate |
| Pricing.EstimateNonNegative | src/utils/pricing.ts:20-23 | a non-negative weight never gets a negative estimate |
| Pricing.EstimateMonotone | src/utils/pricing.ts:20-23 | a heavier load never gets a lower estimate |
| Text.Lower | src/services/wasteClassifier.ts:15 | `toLowerCase` on ASCII letters; specified by Text.LowerIdempotent, with WasteClassifier.MappingIgnoresCase saying that the mapping depends only on the lower-cased label |
| Text.LowerIdempotent | src/services/wasteClassifier.ts:15 | lower-casing twice is lower-casing once |
| Patterns.MatchesSpan | src/services/wasteClassifier.ts:17-23 | the meaning of each regular-expression construct on a span of the text; specified by Patterns.LitFound and Patterns.RequiredAbsent |
| Patterns.Found | src/services/wasteClassifier.ts:17-23 | `RegExp.test`: some span matches; specified by Patterns.LitFound, Patterns.RequiredAbsent and Patterns.NoneFound |
| Patterns.LitFound | src/services/wasteClassifier.ts:23 | `/glass/.test(l)` holds exactly when "glass" occurs in `l` |
| Patterns.RequiredAbsent | src/services/wasteClassifier.ts:17-23 | a pattern cannot be found where a literal every match needs is absent |
| Patterns.NoneFound | src/services/wasteClassifier.ts:17-23 | an alternation is not found when each alternative needs a text that is absent |
| WasteClassifier.FirstFiring | src/services/wasteClassifier.ts:16-24 | the category is that of the first rule that fires, with every earlier rule not firing, or Mixed when no rule fires |
| WasteClassifier.MapLabelToCategory | src/services/wasteClassifier.ts:14-25 | the label mapping: the first firing rule on the lower-cased label; specified by WasteClassifier.MappingPrecedence, MappingIgnoresCase, PaperWordWins, NewspaperOrCardboardIsPaper and GlassIsNeverPlastic |
| WasteClassifier.MappingPrecedence | src/services/wasteClassifier.ts:14-25 | the mapping is total; each category is produced exactly when its rule fires and no earlier one does (paper, then glass, then metal, then plastic without "glass"); Mixed exactly when none fires |
| WasteClassifier.MappingIgnoresCase | src/services/wasteClassifier.ts:15 | a label and its lower-cased form map to the same category |
| WasteClassifier.PaperWordWins | src/services/wasteClassifier.ts:17 | a label containing any plain paper word maps to paper, whatever else it contains |
| WasteClassifier.NewspaperOrCardboardIsPaper | src/services/wasteClassifier.ts:15-17 | a label containing "newspaper" or "cardboard", in any letter case, maps to paper |
| WasteClassifier.GlassIsNeverPlastic | src/services/wasteClassifier.ts:23 | a label whose lower-cased form contains "glass" never maps to plastic |
| WasteClassifier.FindSpecific | src/services/wasteClassifier.ts:63 | `find` returns the first index whose category is not Mixed, or nothing when every candidate is Mixed |
| WasteClassifier.Pick | src/services/wasteClassifier.ts:63-67 | the result is the first candidate whose category is not Mixed (its label, else "unknown"; its score, else 0), else the first candidate with Mixed, else the sentinel; its category is non-Mixed exactly when some candidate's is |
| WasteClassifier.SelectResult | src/services/wasteClassifier.ts:61-67 | the result chosen from the model's answer: `Pick` over the mapped candidates, so its contract is that of WasteClassifier.Pick, with WasteClassifier.SingleOutputIsListOfOne for a non-array answer |
| WasteClassifier.SingleOutputIsListOfOne | src/services/wasteClassifier.ts:61 | a non-array answer is treated as the one-element list holding it |
| WasteClassifier.FirstLoading | src/services/wasteClassifier.ts:29-38 | the backend picked is one of the chain that loads, and there is none exactly when no backend loads |
| WasteClassifier.LoadAttempts | src/services/wasteClassifier.ts:29-38 | the pipelines created are the chain's backends in order, up to and including the first that loads, or all of them |
| WasteClassifier.FallbackOrder | src/services/wasteClassifier.ts:29-38 | WebGPU is tried first, then wasm, then the default backend, and each later one only when the earlier ones fail |
| WasteClassifier.ClassifierService.constructor | src/services/wasteClassifier.ts:4 | no handle is cached at start |
| WasteClassifier.ClassifierService.EnsureClassifier | src/services/wasteClassifier.ts:27-40 | a cached handle is returned without loading; otherwise the fallback chain is walked, and the first backend that loads is cached and returned; when none loads nothing is cached |
| WasteClassifier.ClassifierService.ClassifyImage | src/services/wasteClassifier.ts:42-67 | the full call trace and result: rejection when no backend loads; otherwise the selected result, or after a failed inference a reload on wasm and one retry, with the sentinel when the reload or the retry fails; the wasm handle replaces the cache only when the reload succeeds |
| LabelExamples.GlassBottleIsGlass | src/services/wasteClassifier.ts:19 | "glass bottle" maps to glass |
| LabelExamples.GlassJarIsGlass | src/services/wasteClassifier.ts:19 | "glass jar" maps to glass |
| LabelExamples.PaperCupEscapesPaperTerm | src/services/wasteClassifier.ts:17 | `paper(?!\s*cup)` is not found in "paper cup" |
| LabelExamples.PaperCupNotPaper | src/services/wasteClassifier.ts:17 | the paper rule does not fire on "paper cup" |
| LabelExamples.PaperCupIsMixed | src/services/wasteClassifier.ts:14-25 | "paper cup" maps to Mixed: no rule fires on it |
| LabelExamples.PlasticWaterBottleIsPlastic | src/services/wasteClassifier.ts:23 | "plastic water bottle" maps to plastic |
| LabelExamples.PlasticGlassIsNotPlastic | src/services/wasteClassifier.ts:23 | "plastic glass" does not map to plastic |
| LabelExamples.PlasticBottleScenario | src/services/wasteClassifier.ts:61-67 | with "plastic water bottle" (0.4) ahead of "glass jar" (0.35) the result is the plastic bottle with its score, and 1 kg of it is worth 18 |
| StableSort.SortBy | src/components/NearbyCenters.tsx:75 | `Array.prototype.sort` with a key comparator, which is stable; specified by StableSort.SortBySortsAndPermutes and StableSort.SortByStable |
| StableSort.SortBySortsAndPermutes | src/components/NearbyCenters.tsx:75 | the sort returns a permutation of its input, of the same length, in non-decreasing key order |
| StableSort.SortByStable | src/components/NearbyCenters.tsx:75 | elements with equal keys keep their input order |
| NearbyCenters.Normalise | src/components/NearbyCenters.tsx:61-66 | the mapping of one element to a center record; specified by NearbyCenters.NameFallback, PhoneFallback and CoordinatesPreferOwn |
| NearbyCenters.NameFallback | src/components/NearbyCenters.tsx:63 | the name is `tags.name` if truthy, else `tags.operator` if truthy, else the default name, and so never falsy |
| NearbyCenters.PhoneFallback | src/components/NearbyCenters.tsx:66 | the phone is `tags.phone` if truthy, else `tags["contact:phone"]` if truthy, else undefined |
| NearbyCenters.CoordinatesPreferOwn | src/components/NearbyCenters.tsx:64-65 | each coordinate is the element's own unless that is null or undefined, and then the one of `center` |
| NearbyCenters.NormaliseAll | src/components/NearbyCenters.tsx:61-66 | the mapping succeeds exactly when no element is null, and then maps each element in order |
| NearbyCenters.Located | src/components/NearbyCenters.tsx:67 | the filter keeps exactly the entries whose two coordinates are numbers, and no more of them than there are entries; order and multiplicity are fixed by the lemmas below |
| NearbyCenters.LocatedSkips | src/components/NearbyCenters.tsx:67 | an entry without numeric coordinates contributes nothing |
| NearbyCenters.LocatedAppend | src/components/NearbyCenters.tsx:67 | filtering a concatenation is concatenating the filtered parts, so the filter keeps input order |
| NearbyCenters.LocatedSingle | src/components/NearbyCenters.tsx:67 | a single entry is kept, once, exactly when both its coordinates are numbers |
| NearbyCenters.LocatedPositions | src/components/NearbyCenters.tsx:67 | the positions of the entries with numeric coordinates, all within the input |
| NearbyCenters.LocatedAtPositions | src/components/NearbyCenters.tsx:67 | the filter's result has one center per such position, the i-th being the entry at the i-th position |
| NearbyCenters.LocatedPositionsIncrease | src/components/NearbyCenters.tsx:67 | the positions increase strictly, so no entry is kept twice and input order is kept |
| NearbyCenters.LocatedPositionsComplete | src/components/NearbyCenters.tsx:67 | every entry whose two coordinates are numbers has its position listed, so it is kept |
| NearbyCenters.Elements | src/components/NearbyCenters.tsx:61 | a missing or falsy `elements` reads as the empty list |
| NearbyCenters.NoElementsNoCenters | src/components/NearbyCenters.tsx:61 | an answer without elements gives an empty list |
| NearbyCenters.FetchFailsOnlyOnMalformedElements | src/components/NearbyCenters.tsx:61-67 | building the list throws exactly when `elements` is truthy but not an array, or one element is null |
| NearbyCenters.Nearest | src/components/NearbyCenters.tsx:70-76 | rank, stably sort by distance, keep the first eight; specified by NearbyCenters.NearestLength, NearestSorted, NearestAreNearest and NearestStable |
| NearbyCenters.NearestLength | src/components/NearbyCenters.tsx:67-76 | the list has min(8, number of located centers) entries |
| NearbyCenters.NearestSorted | src/components/NearbyCenters.tsx:70-75 | the list is in non-decreasing order of distance, each entry with its own distance |
| NearbyCenters.NearestAreNearest | src/components/NearbyCenters.tsx:70-76 | the list is a sub-multiset of the ranked centers, and no center left out is nearer than one shown |
| NearbyCenters.NearestStable | src/components/NearbyCenters.tsx:70-76 | the centers shown at a given distance are the first ones at that distance, in answer order |
| NearbyCenters.FetchCenters | src/components/NearbyCenters.tsx:61-76 | the list built from a parsed answer, or `None` where the code throws; specified by NearbyCenters.NoElementsNoCenters, FetchFailsOnlyOnMalformedElements and ShownCentersAreLocated |
| NearbyCenters.ShownCentersAreLocated | src/components/NearbyCenters.tsx:61-76 | every center shown comes from an element whose coordinates are numbers |
| GarbageUploader.Uploader.constructor | src/components/GarbageUploader.tsx:15-17 | no drag, no preview and no loading at start |
| GarbageUploader.Uploader.SelectFile | src/components/GarbageUploader.tsx:20-24 | a file starts a read exactly when its type is one of the four accepted types; the state is not changed |
| GarbageUploader.Uploader.ReadDone | src/components/GarbageUploader.tsx:26-31 | the data URL becomes the preview and loading starts, for a job on that file and URL |
| GarbageUploader.Uploader.ClassificationSettled | src/components/GarbageUploader.tsx:30-39 | loading ends whatever the outcome, and `onClassified` gets the result, file and URL exactly when the classification fulfilled |
| GarbageUploader.Uploader.PickFiles | src/components/GarbageUploader.tsx:86-89 | only the first chosen file is considered, and none when none was chosen |
| GarbageUploader.Uploader.Drop | src/components/GarbageUploader.tsx:44-50 | a drop ends the drag, and only its first file, if any, is considered |
| GarbageUploader.Uploader.DragEnter | src/components/GarbageUploader.tsx:58 | entering sets the drag flag and nothing else |
| GarbageUploader.Uploader.DragLeave | src/components/GarbageUploader.tsx:60 | leaving clears the drag flag and nothing else |
| GarbageUploader.Uploader.ClickUpload | src/components/GarbageUploader.tsx:93 | the button opens the file picker exactly when no classification is running |
| GarbageUploader.Uploader.ButtonCaption | src/components/GarbageUploader.tsx:94 | the caption reads "Identifying..." exactly while loading |
| GarbageUploader.Uploader.Upload | src/components/GarbageUploader.tsx:20-42 | a rejected file changes nothing and makes no model call; an accepted one ends with its URL as the preview and loading off, and is delivered, with that file and URL, exactly when a handle was cached or some backend loads; the result delivered is the first answer's, else the wasm retry's, else the sentinel, and the handle cached afterwards is the wasm one exactly when the reload was made and succeeded, else the one the upload started from; with no handle, every backend was tried and none is cached |

Every uploader method keeps the invariant `Valid()`: while loading, there
is a preview.

## Left out

- The great-circle (haversine) distance and the kilometre text: floating-point trigonometry. The distance is a caller-supplied function.
- The Overpass query, `fetch`, the JSON parsing and geolocation: network and device I/O. The model starts from the parsed answer.
- The image model and its library: each pipeline creation and inference is a parameter saying how it goes.
- `toast`, `console` logging and `FileReader`: the data URL read from a file is a parameter. The source has no read-error handler either.
- All rendering, the React hooks and the component state of the centers list, `ResultsCard`, `CategoryShowcase` and the index page. They add no logic beyond what is modelled.
- The drag-over handler only prevents the default action and changes no state.
- Overlapping uploads and their interleaving on the event loop. The model runs one event at a time.
- `previewUrl` is set before `isLoading`. Both happen in one synchronous step, so `ReadDone` sets them together.
- The notification text for a rejected file lists JPG, PNG and WEBP, although GIF is accepted too. Only the accepted list is modelled.
- Text.Lower: only ASCII letters are lower-cased; `toLowerCase` also maps other Unicode letters.
- WasteClassifier.Prediction: labels are strings or absent. `String(...)` of a non-string label is not modelled, and a score that is not a number is absent.
- Pricing.EstimatePrice: exact rationals stand in for IEEE doubles, so the binary rounding error of `rate * weightKg * 100` is not modelled.
- NearbyCenters.Member: a member is read only from JSON objects. Properties that strings and arrays carry in JavaScript (such as `length`) are never read by the code.
- NearbyCenters.Json: numbers are exact reals. `JSON.parse` reads an out-of-range literal such as `1e999` as `Infinity`, which the filter would keep as a number; such answers are not modelled.
