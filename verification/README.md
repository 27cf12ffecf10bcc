# Ekokollen wine climate scoring — a Dafny model

Ekokollen lets shoppers compare the climate impact of wines sold by
Systembolaget. This project models the non-visual core of the app:

- **the scoring engine** (`src/lib/climate-calculator.ts`): each bottle gets
  three impacts in kg CO2e. These are packaging, transport from its origin
  country and production. Their sum becomes an integer score from 0 to 100
  and a green/yellow/red badge. The engine also holds the Swedish labels of
  the packaging types and production methods.
- **the distance table** (`src/lib/distance-calculator.ts`): road or sea
  distances from 80 country names to Stockholm, plus the two fallback keys
  "Unknown" and "Okänt". A name is looked up exactly, then ignoring case,
  then falls back to 2000 km. The file also exports `getCountryList`, the
  table's country names, though nothing in the app calls it (the manual
  entry form keeps its own list).
- **the product catalogue cache** (`src/lib/products-cache.ts`):
  - Systembolaget records are normalised by `mapProduct` and `mapPackaging`.
  - `getProducts` keeps the catalogue in memory for 24 hours. Its inputs are
    the file cache and the remote catalogue.
  - `getCacheStatus` reports on the cache.
  - `searchProducts` is a term search ranked by name prefix.
  - `getProductByBarcode` is an exact barcode lookup.
- **the app state** (`src/context/ClimateContext.tsx`):
  - the comparison list: add without duplicates, remove, clear;
  - the user's weights: a nested merge of a partial update, and a reset;
  - scoring one product under the current weights.
- **the product detail sheet** (`src/components/ProductDetailSheet.tsx`):
  - its own copy of the score computation, which also reports the three
    impacts;
  - the good/neutral/bad marker beside each impact;
  - the shares and colour of the impact ring.

The model is written with immutable datatypes and pure functions.

- A product is a datatype, and a settings value is a record of three maps.
- A JavaScript object literal is an ordered list of (key, value) entries.
  This keeps `Object.keys` order and what inherited members do.
- Strings are sequences of Unicode characters (scalar values).
- Numbers are exact reals. `Math.round(x)` is `Floor(x + 0.5)`.
- JavaScript "falsy" fallbacks (`x || d`) are written out: an absent value,
  an empty string and a zero number each take the fallback.
- `getProducts` is one step of a state machine over the four module-level
  variables of the cache. The clock readings, the contents of the file
  cache and the outcome of the network request are its inputs.

Modules, one per file, in dependency order:
- `Strings` (strings.dfy): `toLowerCase`, `trim`, `split(/\s+/)`, `includes` and `startsWith`.
- `Types` (types.dfy): the shared types of `src/types/index.ts`.
- `JsObjects` (objects.dfy): property reads on object literals.
- `Distances` (distances.dfy), `Climate` (climate.dfy), `Catalog` (catalog.dfy),
  `ProductCache` (cache.dfy), `Comparison` (comparison.dfy) and `DetailSheet`
  (breakdown.dfy): the five parts of the core listed above.

Where the repository's own prose and its code differ, the model follows the
code. The differences are:
- `searchProducts` loads the catalogue before it tests for a blank query.
  So a blank query on an empty cache still starts a load, and can fail
  (`ProductCache.BlankQueryStillLoads`). Only the HTTP route returns early.
- The name-prefix ranking compares names with the lower-cased, *trimmed*
  query, not the raw one.
- The `thresholds` part of the settings and the air-freight rate are stored
  and merged, but no score reads them (`Climate.ThresholdsIgnored`,
  `Climate.AirRateIgnored`). The badge cut-offs 66 and 33 are fixed in
  `getBadge`.

## Model

| member | source | states |
|---|---|---|
| Strings.Lower | src/lib/products-cache.ts:117 | `toLowerCase` keeps the length, leaves no capital, keeps every non-capital and moves each capital to its small letter |
| Strings.LowerJoin | src/lib/products-cache.ts:117 | lower-casing a space-separated join of five parts lower-cases each part in place |
| Strings.LowerIdempotent | src/lib/products-cache.ts:117-118 | lower-casing an already lower-cased search text changes nothing |
| Strings.LowerAppend | src/lib/products-cache.ts:117 | lower-casing a template string lower-cases each of its parts |
| Strings.Trim | src/lib/products-cache.ts:218 | `trim` returns the middle part of the string with only white space cut from both ends, and that part neither starts nor ends with white space |
| Strings.TrimEmptyIffBlank | src/lib/products-cache.ts:218-222 | the trimmed query is empty exactly when the query is all white space |
| Strings.TrimIsContained | src/lib/products-cache.ts:218 | the trimmed string occurs in the original |
| Strings.Words | src/lib/products-cache.ts:224 | the terms of the split query are non-empty and hold no white space, and there are none exactly when the query is blank |
| Strings.WordsOccur | src/lib/products-cache.ts:224-227 | every term of the split query occurs in the query |
| JsObjects.KeyIndex | src/lib/distance-calculator.ts:108 | the position of the first entry with the given key, all earlier keys differing |
| JsObjects.FoldedKeyIndex | src/lib/distance-calculator.ts:113-118 | the position of the first entry whose key lower-cased equals the lower-cased name, in `Object.entries` order |
| JsObjects.OwnValue | src/lib/distance-calculator.ts:108-109 | an own property is found exactly when some entry has the key, and its value is that entry's |
| JsObjects.OwnValueAt | src/lib/distance-calculator.ts:108-109 | the value read is that of the first entry with the key |
| JsObjects.Get | src/lib/distance-calculator.ts:108 | `obj[key]` is an own value exactly when an entry has the key, and then it is the first such entry's value. It is an inherited member, named by the key, exactly when no entry has the key and the key names a member of Object.prototype; otherwise `undefined` |
| JsObjects.KeysExcept | src/lib/distance-calculator.ts:125-127 | `Object.keys(...).filter` keeps exactly the keys that are not excluded |
| JsObjects.KeysExceptAppend | src/lib/distance-calculator.ts:125-127 | filtering keys works part by part, so table order is kept |
| JsObjects.KeysExceptNoneExcluded | src/lib/distance-calculator.ts:125-127 | filtering out names no key has keeps every key |
| Distances.TableValuesBounded | src/lib/distance-calculator.ts:2-104 | no table entry is farther than 18000 km (New Zealand) |
| Distances.Resolve | src/lib/distance-calculator.ts:106-122 | an exact key wins; failing that, the first key equal ignoring case; failing both, the default. The result is the default or a value of the table |
| Distances.Distance | src/lib/distance-calculator.ts:106-122 | corrected lookup (see Findings), own keys only: `getDistanceFromSweden` gives every name a distance of at most 18000 km |
| Distances.SwedenIsHome | src/lib/distance-calculator.ts:4-5 | Sverige and Sweden are 0 km away |
| Distances.LowerCaseSwedenIsHome | src/lib/distance-calculator.ts:112-118 | the case-insensitive pass finds "sverige" at 0 km |
| Distances.AliasesAgree | src/lib/distance-calculator.ts:15-16 | the Swedish and English names of France both give 1800 km |
| Distances.SentinelGetsDefault | src/lib/distance-calculator.ts:103 | the normaliser's sentinel country "Okänt" gets 2000 km from its own entry |
| Distances.UnknownCountryGetsDefault | src/lib/distance-calculator.ts:112-121 | every name that no key matches, neither exactly nor ignoring case, gets the 2000 km default |
| Distances.AtlantisGetsDefault | src/lib/distance-calculator.ts:112-121 | "Atlantis" is such a name and gets 2000 km |
| Distances.CountryList | src/lib/distance-calculator.ts:124-128 | a name is listed exactly when it is a table key other than "Unknown" and "Okänt" |
| Distances.FallbackKeysExcluded | src/lib/distance-calculator.ts:101-103 | both fallback entries are filtered out of the country list |
| Distances.UnknownKeyNotKnown | src/lib/distance-calculator.ts:102 | no country entry is called "Unknown" |
| Distances.SentinelKeyNotKnown | src/lib/distance-calculator.ts:103 | no country entry is called "Okänt" |
| Distances.KnownKeysKept | src/lib/distance-calculator.ts:124-128 | no country entry is filtered out of the list |
| Distances.CountryListIsKnownKeys | src/lib/distance-calculator.ts:124-128 | the country list is the country keys in table order: every key but the last two |
| Distances.DistanceAsWritten | src/lib/distance-calculator.ts:108-110 | as written, the `!== undefined` test returns an Object.prototype member for such a name when no key matches it; every other name gets its distance |
| Distances.ConstructorIsNotADistance | src/lib/distance-calculator.ts:108-110 | as written, the country "constructor" yields a function, not a number |
| Distances.ConstructorGetsDefault | src/lib/distance-calculator.ts:106-122 | a lookup over own keys only gives "constructor" the 2000 km default |
| Climate.DefaultSettingsWellTyped | src/lib/climate-calculator.ts:38-61 | the default settings have a weight for every packaging type, transport method and production method |
| Climate.TransportMode | src/lib/climate-calculator.ts:123-126 | sea exactly beyond 3500 km, road otherwise; never air |
| Climate.Round | src/lib/climate-calculator.ts:89 | `Math.round` gives the integer within half a unit, rounding halves up |
| Climate.ScoreOfTotal | src/lib/climate-calculator.ts:86-91 | the score is in 0..100. Between the ends it is the rounded `(1 - total/2.5)*100`. It is 0 exactly when that is below 0.5, and 100 exactly when it is at least 99.5 |
| Climate.ScoreNonIncreasing | src/lib/climate-calculator.ts:86-91 | a larger total never gets a higher score |
| Climate.PackagingImpact | src/lib/climate-calculator.ts:68 | the packaging weight of the type when it is present and non-zero, else 0.5; never zero |
| Climate.TransportImpact | src/lib/climate-calculator.ts:71-77 | distance times the rate of the mode times the volume in litres, over 1000: the sea rate beyond 3500 km, the road rate otherwise; zero at 0 km |
| Climate.ProductionImpact | src/lib/climate-calculator.ts:80-81 | the base 0.4 kg times the method's multiplier when present and non-zero, else the base itself; never zero |
| Climate.ClimateScore | src/lib/climate-calculator.ts:63-92 | corrected lookup (see Findings): the score is an integer in 0..100 for every product and settings value |
| Climate.Badge | src/lib/climate-calculator.ts:94-98 | green exactly from 66, yellow exactly from 33 to 65, red exactly below 33 |
| Climate.BadgeMonotone | src/lib/climate-calculator.ts:94-98 | a higher score never gets a worse badge |
| Climate.HomeMarketIgnoresVolume | src/lib/climate-calculator.ts:71-77 | a product 0 km away has no transport impact, so its volume does not change its score |
| Climate.FalsyPackagingWeightFallsBack | src/lib/climate-calculator.ts:68 | a zero or missing packaging weight scores as the 0.5 fallback |
| Climate.FalsyProductionMultiplierFallsBack | src/lib/climate-calculator.ts:80-81 | a zero or missing production multiplier scores as the multiplier 1 |
| Climate.TransportIgnoresAir | src/lib/climate-calculator.ts:72-77 | the transport impact never reads the air rate |
| Climate.AirRateIgnored | src/lib/climate-calculator.ts:72-73 | changing the air rate changes no score |
| Climate.ThresholdsIgnored | src/lib/climate-calculator.ts:57-60 | changing the thresholds changes no score |
| Climate.RoadBottleTotal | src/lib/climate-calculator.ts:67-84 | a heavy 75 cl conventional bottle carried 1800 km by road totals 1.2675 kg under the defaults |
| Climate.FrenchBottleScore | src/lib/climate-calculator.ts:63-98 | such a bottle from France scores 49, yellow |
| Climate.SwedishBoxScore | src/lib/climate-calculator.ts:63-98 | an organic Swedish bag-in-box of 75 cl scores 82, green |
| Climate.LabelOf | src/lib/climate-calculator.ts:109 | `labels[key] || key`: a non-empty own label is shown; an empty label or a key with no entry shows the key itself |
| Climate.PackagingLabel | src/lib/climate-calculator.ts:100-110 | the label is the one the label table pairs with the key; a key the table lacks is shown as itself |
| Climate.PackagingLabelsFixed | src/lib/climate-calculator.ts:100-110 | each packaging type has its fixed Swedish label |
| Climate.PackagingLabelPassesThrough | src/lib/climate-calculator.ts:109 | a key that is no packaging type is shown unchanged |
| Climate.ProductionLabel | src/lib/climate-calculator.ts:112-119 | the same for production methods and their table |
| Climate.ProductionLabelsFixed | src/lib/climate-calculator.ts:112-119 | the three production methods read Konventionell, Ekologisk and Biodynamisk |
| Climate.ProductionLabelPassesThrough | src/lib/climate-calculator.ts:118 | a key that is no production method is shown unchanged |
| Catalog.MapPackaging | src/lib/products-cache.ts:73-92 | the packaging text is the first non-empty field, lower-cased. Each type is chosen exactly when its keywords occur and no earlier group's do: box, then can, PET, carton, light glass; heavy glass otherwise |
| Catalog.RedundantKeywords | src/lib/products-cache.ts:76-79 | "bag-in-box" and "pantburk" add nothing to the keyword lists they are in |
| Catalog.PackagingFieldWins | src/lib/products-cache.ts:74 | a non-empty packaging field hides the bottle text |
| Catalog.NoPackagingTextIsHeavyGlass | src/lib/products-cache.ts:74-91 | with neither text the type is heavy glass |
| Catalog.MapPackagingIgnoresCase | src/lib/products-cache.ts:74 | the type does not depend on the letter case of the packaging text, the empty text included |
| Catalog.BoxBeatsEverything | src/lib/products-cache.ts:76-78 | any text mentioning "box" is bag-in-box, whatever else it says |
| Catalog.DisplayName | src/lib/products-cache.ts:95-97 | the bold name, followed by a space and the thin name when that is non-empty |
| Catalog.CategoryOf | src/lib/products-cache.ts:99 | the second category level when non-empty, else the first when non-empty, else none; never an empty category |
| Catalog.OriginOf | src/lib/products-cache.ts:100 | the country when non-empty, else the first origin level when non-empty, else "Okänt"; never empty |
| Catalog.ImageUrlOf | src/lib/products-cache.ts:106-108 | the first image's URL with `_200.webp` appended when it is non-empty, else the placeholder bottle |
| Catalog.SearchTextOf | src/lib/products-cache.ts:117 | the lower-cased name, producer, category, origin and article number, in that order, each separated by one space, with a missing producer or category empty. So the text starts with the lower-cased name and ends with the lower-cased article number, and no capital is left |
| Catalog.MapProduct | src/lib/products-cache.ts:94-119 | `mapProduct` keeps the article number and uses it as the id when there is no product id. The name is the bold name plus a non-empty thin name. The origin is the country, else the first origin level, else "Okänt"; the category the second level, else the first, else none. The image is the first image's `_200.webp`, else the placeholder. The packaging type is `mapPackaging` of the two fields. The method is organic exactly when the record is organic, never biodynamic. Volume defaults to 750 ml and price to 0. Producer and alcohol pass through. The search text is the lower-cased join of name, producer, category, origin and article number |
| Catalog.SearchTextStartsWithName | src/lib/products-cache.ts:117 | the search text begins with the lower-cased display name |
| Catalog.SearchTextEndsWithNumber | src/lib/products-cache.ts:117 | the search text ends with the lower-cased article number |
| Catalog.BareRecordDefaults | src/lib/products-cache.ts:94-119 | a record with only its mandatory fields becomes a conventional 75 cl heavy-glass bottle from "Okänt" with the placeholder image |
| Catalog.OrganicBoxRecord | src/lib/products-cache.ts:94-119 | an organic "Bag-in-Box" record of 1500 ml becomes an organic bag-in-box of 1500 ml |
| Catalog.Matching | src/lib/products-cache.ts:226-228 | a product is kept exactly when it is in the list and every term occurs in its search text |
| Catalog.MatchingBounded | src/lib/products-cache.ts:226-228 | filtering never lengthens the list |
| Catalog.Starting | src/lib/products-cache.ts:231-235 | a product is in the group exactly when it is in the list and its name starts with the query |
| Catalog.NotStarting | src/lib/products-cache.ts:231-235 | a product is in the group exactly when it is in the list and its name does not start with the query |
| Catalog.Ranked | src/lib/products-cache.ts:231-235 | the sorted list is as long as the input, and no product whose name starts with the query comes after one whose name does not |
| Catalog.RankedLength | src/lib/products-cache.ts:231-235 | the two groups together are as long as the input |
| Catalog.RankedIsPermutation | src/lib/products-cache.ts:231-235 | sorting is a permutation of the matches |
| Catalog.StartingAppend | src/lib/products-cache.ts:231-235 | the prefix group of a concatenation is the concatenation of the prefix groups |
| Catalog.NotStartingAppend | src/lib/products-cache.ts:231-235 | the same for the other group |
| Catalog.StartingIdempotent | src/lib/products-cache.ts:231-235 | grouping a group again changes nothing and finds nothing of the other group |
| Catalog.RankedIsStable | src/lib/products-cache.ts:231-235 | within each group the sort keeps list order, as a stable sort does |
| Catalog.Slice | src/lib/products-cache.ts:237 | `slice(0, limit)` is a prefix: `limit` long, or shorter when the list is; a negative limit drops that many from the end |
| Catalog.SliceMembers | src/lib/products-cache.ts:237 | slicing adds no product |
| Catalog.NormalQueryEmptyIffBlank | src/lib/products-cache.ts:218-222 | the lower-cased trimmed query is empty exactly when the query is blank |
| Catalog.RankedMatches | src/lib/products-cache.ts:224-237 | every result is in the catalogue and contains every term; no more than `limit` results; prefix matches first |
| Catalog.Search | src/lib/products-cache.ts:216-238 | a blank query finds nothing. Otherwise the result is the ranked matches cut to `limit`: each is in the catalogue and matches every term, and prefix matches come first |
| Catalog.SearchIsComplete | src/lib/products-cache.ts:226-237 | with a limit as large as the catalogue, every product matching all terms is found |
| Catalog.QueryTermsOccur | src/lib/products-cache.ts:224-227 | every term of a query occurs in any text that contains the lower-cased query |
| Catalog.NumberInSearchText | src/lib/products-cache.ts:117 | the lower-cased article number occurs in the search text |
| Catalog.SearchFindsByName | src/lib/products-cache.ts:216-238 | searching for a product's display name finds it |
| Catalog.SearchFindsByNumber | src/lib/products-cache.ts:216-238 | searching for a product's article number finds it |
| Catalog.NumberIndex | src/lib/products-cache.ts:247 | `find` by article number stops at the first product with that number |
| Catalog.IdIndex | src/lib/products-cache.ts:251 | `find` by id stops at the first product with that id |
| Catalog.FindCode | src/lib/products-cache.ts:246-255 | the first product with the article number, else the first with the id, else none. None exactly when no product has the code as either |
| Catalog.FindByBarcode | src/lib/products-cache.ts:240-256 | the same for the trimmed barcode: exact matches only, article number before id |
| ProductCache.MapAll | src/lib/products-cache.ts:198 | one mapped product per record, in order |
| ProductCache.Load | src/lib/products-cache.ts:177-213 | loading always ends the loading flag. A list returned is the cached list. An error keeps the previous list and records the message |
| ProductCache.GetProducts | src/lib/products-cache.ts:157-214 | a fresh cache is returned with nothing changed. After any other call nothing is loading and the list returned is the one cached. A list handed to the file write is the one returned, and the in-memory time stamp is then the call's time (the file gets its own later stamp, line 146). An error keeps the list the load started from and records the message |
| ProductCache.FailureKeepsProducts | src/lib/products-cache.ts:192-213 | a response that is not OK throws "Failed to fetch products", and a thrown non-Error gives "Unknown error". Both keep the old list and time stamp and record the message |
| ProductCache.FetchCachesMappedRecords | src/lib/products-cache.ts:196-206 | a fetched catalogue is mapped, cached with the call's time, returned and saved to file |
| ProductCache.FileCacheAdopted | src/lib/products-cache.ts:121-138 | a file cache younger than 24 hours is adopted with its own time stamp; nothing is fetched or saved |
| ProductCache.SecondCallHitsCache | src/lib/products-cache.ts:160-163 | after a call that returned a list, a call within 24 hours of its time stamp returns the same list and changes nothing |
| ProductCache.FetchThenRepeat | src/lib/products-cache.ts:157-206 | from the empty start, a fetch repeated within 24 hours needs no second fetch |
| ProductCache.Status | src/lib/products-cache.ts:63-71 | loaded exactly when a list is cached. The count is its length, or 0. There is no age exactly when the time stamp is 0; otherwise the age is now minus the time stamp |
| ProductCache.StatusAfterFetch | src/lib/products-cache.ts:63-71 | after a fetch the status shows the list loaded, one entry per record, no error |
| ProductCache.StatusAfterFailedStart | src/lib/products-cache.ts:63-71 | after a failed first load nothing is loaded, there is no age, and the error is reported |
| ProductCache.SearchProducts | src/lib/products-cache.ts:216-238 | a search first runs a `getProducts` step and then searches the list it returns, or throws its error |
| ProductCache.SearchFromFreshCache | src/lib/products-cache.ts:216-228 | a search on a fresh cache changes no state and returns only cached products matching every term |
| ProductCache.BlankQueryStillLoads | src/lib/products-cache.ts:216-222 | a blank query on an empty cache still loads, and the load's failure is the search's error |
| ProductCache.ProductByBarcode | src/lib/products-cache.ts:240-256 | a barcode lookup first runs a `getProducts` step and then looks the code up in the list it returns, or throws its error |
| ProductCache.BarcodeFromFreshCache | src/lib/products-cache.ts:240-256 | on a fresh cache a lookup changes no state and finds a product exactly when one has the trimmed code as article number or id |
| Comparison.AddProduct | src/context/ClimateContext.tsx:65-76 | a product whose id is listed leaves the list as it was; otherwise it is appended; either way its id is then listed |
| Comparison.AddKeepsIdsDistinct | src/context/ClimateContext.tsx:65-76 | adding keeps the ids of the list distinct |
| Comparison.AddIdempotent | src/context/ClimateContext.tsx:65-76 | adding twice is adding once |
| Comparison.RemoveProduct | src/context/ClimateContext.tsx:78-83 | no product left has the id, and a product stays exactly when it was listed and has another id |
| Comparison.RemoveAppend | src/context/ClimateContext.tsx:78-83 | removing works part by part, so the products kept stay in order |
| Comparison.RemoveAbsent | src/context/ClimateContext.tsx:78-83 | removing an id nobody has changes nothing |
| Comparison.AddThenRemove | src/context/ClimateContext.tsx:65-83 | adding a new product and removing its id restores the list |
| Comparison.RemoveKeepsIdsDistinct | src/context/ClimateContext.tsx:78-83 | removing keeps the ids of the list distinct |
| Comparison.ClearList | src/context/ClimateContext.tsx:85-87 | clearing leaves no product |
| Comparison.Merge | src/context/ClimateContext.tsx:44-55 | a spread merge has both key sets. An updated key takes the update's value, and every other key keeps its value |
| Comparison.UpdateSettings | src/context/ClimateContext.tsx:39-59 | each weight table is merged key by key: updated keys take the new value and all others keep theirs. The thresholds are replaced when given |
| Comparison.UpdateKeepsWellTyped | src/context/ClimateContext.tsx:39-59 | an update never loses a weight, so complete settings stay complete |
| Comparison.EmptyUpdateIsIdentity | src/context/ClimateContext.tsx:39-59 | an empty update changes nothing |
| Comparison.ThresholdUpdateKeepsScores | src/context/ClimateContext.tsx:39-59 | updating only the thresholds changes no score |
| Comparison.ResetSettings | src/context/ClimateContext.tsx:61-63 | a reset gives exactly the default settings, which are complete |
| Comparison.FullDefaultUpdateIsReset | src/context/ClimateContext.tsx:39-63 | from complete settings, an update carrying every default table and the default thresholds gives the same settings as a reset |
| Comparison.ProductWithScoreOf | src/context/ClimateContext.tsx:89-96 | the product is kept, with its engine score in 0..100 and the badge for that score |
| DetailSheet.SheetBreakdown | src/components/ProductDetailSheet.tsx:49-80 | the total is the sum of the three impacts and the score lies in 0..100 |
| DetailSheet.SheetScore | src/components/ProductDetailSheet.tsx:70-71 | the sheet's score is in 0..100 |
| DetailSheet.SheetScoreAgrees | src/components/ProductDetailSheet.tsx:70-71 | the sheet rounds and clamps a total exactly as the engine does |
| DetailSheet.SheetImpactsAgree | src/components/ProductDetailSheet.tsx:53-68 | each impact the sheet computes is the engine's, and so is the total |
| DetailSheet.SheetAgrees | src/components/ProductDetailSheet.tsx:49-80 | the sheet's breakdown matches the engine impact by impact, and its score is the engine's score of the total |
| DetailSheet.CalculateBreakdown | src/components/ProductDetailSheet.tsx:49-80 | corrected lookup (see Findings): the total is the sum of the impacts and the score is in 0..100 |
| DetailSheet.BreakdownAgreesWithEngine | src/components/ProductDetailSheet.tsx:49-80 | for every product and settings value the sheet shows the same impacts, total and score as `calculateClimateScore` |
| DetailSheet.Classify | src/components/ProductDetailSheet.tsx:257-260 | good exactly below the lower cut, bad exactly above the upper cut, neutral exactly between |
| DetailSheet.PackagingTrend | src/components/ProductDetailSheet.tsx:257-258 | packaging is good exactly below 0.3 kg and bad exactly above 0.6 kg |
| DetailSheet.TransportTrend | src/components/ProductDetailSheet.tsx:259-260 | transport is good exactly below 0.2 kg and bad exactly above 0.5 kg |
| DetailSheet.ClassifyMonotone | src/components/ProductDetailSheet.tsx:257-260 | a smaller impact never gets a worse marker |
| DetailSheet.ProductionTrend | src/components/ProductDetailSheet.tsx:261-266 | production is good exactly for organic and biodynamic wine, and never bad |
| DetailSheet.ProductionTrendMatchesDefaultImpact | src/components/ProductDetailSheet.tsx:261-266 | with the default multipliers the marker is good exactly when production costs less than the base 0.4 kg |
| DetailSheet.DefaultPackagingTrends | src/components/ProductDetailSheet.tsx:257-258 | with the default weights heavy glass is bad, light glass neutral and every other packaging good |
| DetailSheet.RingPercents | src/components/ProductDetailSheet.tsx:89-92 | the three shares add up to 100. With a positive total each share is its impact's fraction of the total times 100, and non-negative when the impacts are. Otherwise the shares are 33, 33 and 34 |
| DetailSheet.RingColourOf | src/components/ProductDetailSheet.tsx:104-109 | green exactly from 66, red exactly below 33, yellow between |
| DetailSheet.RingColourMatchesBadge | src/components/ProductDetailSheet.tsx:104-109 | the ring's colour always matches the badge of the same score |

## Left out

- File and network I/O, `console` logging and `Date.now()`:
  - the clock readings are inputs of a step;
  - the file cache read is an `Option<FileCache>` input, and an unreadable
    or unparsable file is `None`;
  - the catalogue request is a `FetchOutcome` input;
  - the background file write is reported as the `saved` list. Its own
    time stamp and its failures are not modelled.
- The 100 ms polling loop while another load runs is not modelled. Its
  outcome is an input: the state found once loading has stopped (`afterWait`).
- Concurrency is not modelled. Interleaved requests are sequences of steps.
- Floating point is not modelled. Impacts and scores are exact reals, so
  IEEE rounding of values such as `0.05 * 1800` and `NaN` are outside the
  model.
- ProductCache.GetProducts: it requires that a waiting call finds the
  loading flag cleared. The source's loop only exits then.
- Climate.ClimateScore: the engine, and the sheet's `DetailSheet.CalculateBreakdown`,
  use the own-key `Distances.Distance`, not the as-written lookup of
  src/lib/distance-calculator.ts:108-110. For the names where the two differ
  (members inherited from Object.prototype, see Findings) the model scores
  the 2000 km default where the source yields `NaN`.
- Climate.ClimateScore: it requires the sea and road rates. The source
  types `transport` as complete; without those rates it yields `NaN`.
  `UpdateKeepsWellTyped` shows that updates never drop a rate.
- Strings: JavaScript strings are UTF-16 code units; here they are Unicode
  scalar values. Lone surrogates are not modelled, and lengths count
  characters, so a character outside the Basic Multilingual Plane (an
  emoji, say) has length 1 here and 2 in the source.
- Strings.Lower: it lower-cases ASCII and Latin-1 capitals only. That
  covers every letter of the table's country names, but not the full
  Unicode case mapping of `toLowerCase` (such as Greek or Turkish
  letters, or changes of length).
- Catalog.Ranked: it is the one stable order with prefix matches first.
  `Array.prototype.sort` is required to be stable, so any conforming sort
  gives this order; the sorting algorithm itself is not modelled.
- Comparison.UpdateSettings:
  - a key given explicitly as `undefined` in a partial update is not
    modelled; an absent table is `None`;
  - the outer spread copies any further fields of the update object, and
    settings here have only the four fields.
- Comparison.ProductWithScoreOf: `{ ...product }` copies the product. Any
  fields a caller added beyond `Product` are not modelled.
- The `isClimateSmartPackaging` field of the Systembolaget record is not
  modelled, because `mapProduct` never reads it.
- The SVG geometry of the impact ring (radius, circumference, dash
  lengths) and all other rendering, routes and UI components are not
  modelled. Only the percentages and the colour are.
- `getTransportModeLabel` and the labels looked up with a name inherited
  from Object.prototype are not modelled. The labels are only ever called
  with enum keys.
- The persistence of settings and the comparison list in local storage
  (`useLocalStorage`) is not part of this model.

## Findings

| source | as written | input that shows it | evidently intended | confidence | as-written member | corrected member |
|---|---|---|---|---|---|---|
| src/lib/distance-calculator.ts:108-110 | `DISTANCES_TO_SWEDEN[country] !== undefined` also passes for members inherited from Object.prototype, so that member is returned as the distance | origin country "constructor" (typed in the manual product form): the lookup returns the `Object` function, and the score becomes `NaN` | only the table's own keys count, and an unknown name gets the 2000 km default | medium — not executed | Distances.DistanceAsWritten, Distances.ConstructorIsNotADistance | Distances.Distance, Distances.ConstructorGetsDefault |
