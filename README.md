# Compare-Agents dashboard: a verified model of its core

Compare-Agents is a single-page React dashboard that compares seven AI agent
platforms. It is built from a static dataset. Each view filters the dataset by
four user-controlled filters that live in a shared context:

- a search term;
- a deployment type;
- an autonomy level;
- a monthly price range.

The views are the overview cards, a sortable feature table, a security
table, a cost chart with its pricing table, and the use-case cards. A
summary page shows statistics over the whole dataset. This project models
the logic behind those views in Dafny and proves properties of it.

- `platforms_data.dfy`: the seven records, the feature keys and their
  descriptions, and the selector lists. It proves that the data has the
  shape the views assume.
- `app_context.dfy`: the provider, as a class whose fields are the filter
  state and the dark-mode flag. The browser's key-value store is a `map`
  field. The file also has the `useAppContext` guard.
- `filter_engine.dfy`: the filter predicate. Each view copies it with a
  different list of searched fields, so it takes that list as a parameter.
- `feature_table.dfy` and `array_sort.dfy`: the feature comparison table.
  They hold:
  - the sort keys and the comparator;
  - the stable in-place sort of a fresh copy of the filtered array;
  - the `handleSort` state machine;
  - the feature glyphs.
- `overview_cards.dfy`, `security_table.dfy`, `pricing_chart.dfy`,
  `use_cases.dfy` and `summary.dfy` hold each view's own filter fields,
  classifications, labels and counts.
- `dashboard.dfy`: facts across views, and the filter on concrete states of
  the shipped dataset.
- `text.dfy` and `seqs.dfy` model the JavaScript string and array
  operations the source relies on:
  - `includes`;
  - `toLowerCase`;
  - string `<`;
  - template rendering of numbers;
  - `slice(0, n)`, `map` and `filter(...).length`.

The views search different fields:

| View | Fields searched |
|---|---|
| overview cards | name, tagline and deployment |
| feature table | name and tagline |
| other views | name only |

The model keeps each view's own field list, as the code has it, rather
than a single shared search. `Dashboard.ViewsNest` proves how the three
results relate.

The summary statistics read no filter state. None of the `Summary`
functions takes one, so they cannot depend on the filters.

The table's own price cell (`src/components/FeatureComparisonTable.js:155`)
is the same "Free"/"$n" label as the pricing table's. It is modelled once,
as `PricingChart.PriceLabel`.

## Model

| member | source | states |
|---|---|---|
| PlatformsData.IdsDistinct | src/data/platformsData.js:1-303 | the seven record ids are pairwise distinct, so they can key rendered rows |
| PlatformsData.FeatureKeysAreDescribed | src/data/platformsData.js:305-321 | there are fifteen feature columns, each listed once, and they are exactly the keys of the description map |
| PlatformsData.PlatformsWellFormed | src/data/platformsData.js:1-303 | every record has an autonomy level from the selector's list, a feature map over exactly the described keys with statuses present/partial/absent, non-negative prices, and use-case complexities Low/Medium/High |
| PlatformsData.DeploymentTypesIncomplete | src/data/platformsData.js:323 | exactly one record's deployment ("Cloud/Self-hosted") is missing from the selector's list; every other record's deployment is in it |
| AppContext.UseAppContext | src/context/AppContext.js:5-11 | returns the provider's value when there is one, and otherwise fails with the "must be used within AppProvider" error |
| AppContext.RestoredDarkMode | src/context/AppContext.js:14-17 | the restored flag is on exactly when the store holds, under "darkMode", the string that `true.toString()` writes |
| AppContext.PersistRoundTrip | src/context/AppContext.js:14-17 | a flag written as `toString()` under "darkMode" is restored unchanged at the next start, whatever else the store holds |
| AppContext.OnlyTrueRestoresDark | src/context/AppContext.js:14-17 | dark mode is restored exactly when the stored string is "true" |
| AppContext.MissingFlagIsLight | src/context/AppContext.js:14-17 | with no stored entry, the page starts in light mode |
| AppContext.AppProvider.constructor | src/context/AppContext.js:13-32 | on mount, dark mode is restored from the store, the filters take their defaults ("", "all", "all", [0, 500], []), and the flag is written back |
| AppContext.AppProvider.ToggleDarkMode | src/context/AppContext.js:25-36 | the flag is negated and the store mirrors the new flag; nothing else changes |
| AppContext.AppProvider.ResetFilters | src/context/AppContext.js:38-44 | every filter field returns to its default; dark mode and the store are untouched |
| AppContext.AppProvider.SetSearchTerm | src/context/AppContext.js:19 | sets only the search term |
| AppContext.AppProvider.SetSelectedDeployment | src/context/AppContext.js:20 | sets only the deployment filter |
| AppContext.AppProvider.SetSelectedAutonomy | src/context/AppContext.js:21 | sets only the autonomy filter |
| AppContext.AppProvider.SetPriceRange | src/context/AppContext.js:22 | sets only the price range |
| AppContext.AppProvider.SetSelectedFeatures | src/context/AppContext.js:23 | sets only the selected features |
| AppContext.AppProvider.SlidePriceMax | src/context/AppContext.js:22 | a slider value v in [0, 500] makes the range [0, v], which stays ordered and within the slider |
| AppContext.ToggleTwice | src/context/AppContext.js:34-36 | toggling twice restores the flag and the store, and leaves the filters alone |
| AppContext.ResetTwice | src/context/AppContext.js:38-44 | resetting is idempotent and never touches dark mode or the store |
| AppContext.Reload | src/context/AppContext.js:14-31 | a new provider over the store an old one left restores the old flag, with default filters |
| FilterEngine.SearchHit | src/components/FeatureComparisonTable.js:12-14 | the search hits exactly when one of the searched fields, lower-cased, contains the lower-cased term |
| FilterEngine.MatchesSearch | src/components/FeatureComparisonTable.js:12-14 | an empty term passes every record; with no field searched, only the empty term passes |
| FilterEngine.SearchIgnoresCase | src/components/FeatureComparisonTable.js:13-14 | a term and its lower-cased form keep the same records: the search ignores ASCII case |
| FilterEngine.MatchesDeployment | src/components/FeatureComparisonTable.js:15-16 | "all" selects every record, and a selection longer than a record's deployment string never selects it (matching is by substring) |
| FilterEngine.MatchesAutonomy | src/components/FeatureComparisonTable.js:17-18 | "all" and a record's own level select it; any other selection does not (matching is exact, not by substring) |
| FilterEngine.MatchesPrice | src/components/FeatureComparisonTable.js:19-20 | a record passes only when the bounds are ordered, and a one-point range keeps exactly that price (both bounds inclusive) |
| FilterEngine.Matches | src/components/FeatureComparisonTable.js:11-21 | a record that passes satisfies each selection on its own: the search hits one of the fields, the deployment contains the selected one, the level equals the selected one, and the price lies in the range |
| FilterEngine.FilterIsSubsequence | src/components/FeatureComparisonTable.js:10-23 | the filtered list keeps the dataset's order: it is a subsequence of the input |
| FilterEngine.FilterKeepsExactlyMatching | src/components/FeatureComparisonTable.js:10-23 | a record is listed exactly when it is in the input and passes all four checks |
| FilterEngine.FilterPlatforms | src/components/FeatureComparisonTable.js:10-23 | the filtered list is never longer than its input |
| FilterEngine.FilterAppend | src/components/FeatureComparisonTable.js:11 | filtering distributes over concatenation, so each record is judged on its own |
| FilterEngine.WiderSearchMatches | src/components/OverviewCards.js:16-19 | searching a superset of fields keeps every record that the narrower search keeps |
| FilterEngine.NarrowerSearchRefines | src/components/SecurityTable.js:10-11 | a narrower field set gives the wider result filtered again: an order-preserving subsequence of it |
| FilterEngine.DefaultsKeepAll | src/context/AppContext.js:19-22 | with all filters at their defaults, any list priced within [0, 500] is kept whole and in order |
| FilterEngine.EmptyIffNoneMatch | src/components/FeatureComparisonTable.js:10-23 | the filtered list is empty exactly when no record matches |
| FilterEngine.FilteredLength | src/components/FeatureComparisonTable.js:10-23 | the filtered list has one entry per matching record |
| FilterEngine.CountMatching | src/components/OverviewCards.js:56 | the number of matching records never exceeds the number of records |
| FeatureComparisonTable.AutonomyRank | src/components/FeatureComparisonTable.js:41-43 | `autonomyOrder[level] \|\| 0` gives a known level its 1-based position on the Low…High scale, and 0 exactly for an unknown level |
| FeatureComparisonTable.FilteredPlatforms | src/components/FeatureComparisonTable.js:10-23 | the table's filtered list (name and tagline searched) is never longer than the dataset |
| FeatureComparisonTable.KeyOf | src/components/FeatureComparisonTable.js:29-44 | the name and deployment columns compare strings, the price and autonomy columns numbers; an autonomy key is a rank in 0..5 |
| FeatureComparisonTable.KeyLessIrreflexive | src/components/FeatureComparisonTable.js:46-47 | no sort key is less than itself |
| FeatureComparisonTable.KeyLessTransitive | src/components/FeatureComparisonTable.js:46-47 | key order is transitive |
| FeatureComparisonTable.KeyLessTotal | src/components/FeatureComparisonTable.js:46-47 | of two distinct keys, one is less than the other |
| FeatureComparisonTable.KeyLessAsymmetric | src/components/FeatureComparisonTable.js:46-47 | of two keys, at most one is less than the other, so the two `if`s never both fire |
| FeatureComparisonTable.Compare | src/components/FeatureComparisonTable.js:28-49 | the comparator returns -1, 0 or 1, and it is positive exactly when b's key must come first in the chosen direction |
| FeatureComparisonTable.CompareConsistent | src/components/FeatureComparisonTable.js:28-49 | swapping the comparator's arguments negates its result, and it is 0 exactly on equal keys |
| FeatureComparisonTable.PrecedesByDirection | src/components/FeatureComparisonTable.js:46-47 | ascending order puts the smaller key first, descending order the larger |
| FeatureComparisonTable.PrecedesKeysDiffer | src/components/FeatureComparisonTable.js:48 | records with equal keys never have to be reordered |
| FeatureComparisonTable.PrecedesAsymmetric | src/components/FeatureComparisonTable.js:46-47 | if a must precede b, then b need not precede a |
| FeatureComparisonTable.NotPrecedesTransitive | src/components/FeatureComparisonTable.js:46-48 | "need not precede" is transitive |
| FeatureComparisonTable.ComparatorConsistent | src/components/FeatureComparisonTable.js:28-49 | the comparator is consistent (a valid sort order) and only orders records whose column keys differ |
| FeatureComparisonTable.SortedKeys | src/components/FeatureComparisonTable.js:28-49 | in a sorted list the keys never decrease (ascending) or never increase (descending) |
| FeatureComparisonTable.SortedPlatforms | src/components/FeatureComparisonTable.js:25-50 | with no column, the filtered array itself is returned. Otherwise the result is a fresh array that is the stable sort of the filtered array: a permutation of it, ordered by the comparator, with records of equal key in their original order |
| FeatureComparisonTable.NextSort | src/components/FeatureComparisonTable.js:52-59 | a click always selects the clicked column; clicking the sorted column changes the direction, and clicking any other column sorts ascending |
| FeatureComparisonTable.TwoClicksRestore | src/components/FeatureComparisonTable.js:52-59 | two clicks on the sorted column restore its direction |
| FeatureComparisonTable.TwoClicksOnNewColumn | src/components/FeatureComparisonTable.js:52-59 | two clicks on a new column sort it ascending, then descending |
| FeatureComparisonTable.SortControl.constructor | src/components/FeatureComparisonTable.js:7-8 | sorting starts with no column, ascending |
| FeatureComparisonTable.SortControl.HandleSort | src/components/FeatureComparisonTable.js:52-59 | the sort state moves as NextSort says |
| FeatureComparisonTable.SortControl.Rows | src/components/FeatureComparisonTable.js:25-50 | the rows shown are the filtered array itself (no column) or a fresh, stably sorted permutation of it |
| FeatureComparisonTable.SortControl.TableRows | src/components/FeatureComparisonTable.js:10-50 | the table body for a filter state is a fresh array: the table's filtered records in dataset order with no column, otherwise their stable sort under the current column and direction |
| FeatureComparisonTable.FeatureIcon | src/components/FeatureComparisonTable.js:61-72 | the grey "-" glyph is shown exactly for a missing or unknown status |
| FeatureComparisonTable.FeatureStatus | src/components/FeatureComparisonTable.js:164 | a feature's status is missing (`undefined`) exactly when the record has no such key, and otherwise is the stored status |
| FeatureComparisonTable.FeatureIconInjective | src/components/FeatureComparisonTable.js:61-72 | the three known statuses get three distinct glyphs |
| FeatureComparisonTable.EveryShippedCellHasLegendGlyph | src/components/FeatureComparisonTable.js:162-165 | every feature cell of the shipped data shows one of the three legend glyphs, never "-" |
| ArraySort.StableSortPermutes | src/components/FeatureComparisonTable.js:28 | sorting is a permutation of its input |
| ArraySort.StableSort | src/components/FeatureComparisonTable.js:28 | the sorted list has as many elements as its input; StableSortPermutes, StableSortSorted and StableSortStable say which |
| ArraySort.FromSeq | src/components/FeatureComparisonTable.js:28 | `[...filteredPlatforms]`: a fresh array holding the list, in order |
| ArraySort.StableSortSorted | src/components/FeatureComparisonTable.js:28 | for a consistent comparator, no element of the result has to go before an earlier one |
| ArraySort.StableSortStable | src/components/FeatureComparisonTable.js:28 | elements that the comparator never separates keep their relative order |
| ArraySort.InsertInPlace | src/components/FeatureComparisonTable.js:28 | one in-place step inserts a[i] into the sorted prefix and leaves the rest of the array untouched |
| ArraySort.SortInPlace | src/components/FeatureComparisonTable.js:28 | the array ends up holding the stable sort of its old contents |
| OverviewCards.SearchConsultsThreeFields | src/components/OverviewCards.js:16-19 | the cards' search passes on an empty term, or when the lower-cased name, tagline or deployment contains the lower-cased term |
| OverviewCards.FilteredPlatforms | src/components/OverviewCards.js:13-35 | the cards' filtered list (name, tagline and deployment searched) is never longer than the dataset |
| OverviewCards.ShownCount | src/components/OverviewCards.js:56 | N in "N of M platforms" is the number of matching records, at most M |
| OverviewCards.TotalCount | src/components/OverviewCards.js:56 | M in "N of M platforms" is 7 |
| OverviewCards.ShowsEmptyMessage | src/components/OverviewCards.js:60 | the "No platforms match" message replaces the grid exactly when N in "N of M platforms" is 0 |
| OverviewCards.EmptyMessageIffNoneMatch | src/components/OverviewCards.js:60-65 | the message is shown exactly when no record passes the cards' filter |
| OverviewCards.AutonomyColor | src/components/OverviewCards.js:37-41 | the autonomy line is green, yellow or blue, never any other colour |
| OverviewCards.TechnicalColor | src/components/OverviewCards.js:43-47 | the skill line is red, yellow or green, never any other colour |
| OverviewCards.AutonomyColorByLevel | src/components/OverviewCards.js:37-41 | along the autonomy scale the colour is monotone: Low blue, Low-Medium and Medium yellow, Medium-High and High green |
| OverviewCards.LowIsBlue | src/components/OverviewCards.js:37-41 | "Low" mentions neither "High" nor "Medium", so it is blue |
| OverviewCards.LowMediumIsYellow | src/components/OverviewCards.js:37-41 | "Low-Medium" is yellow |
| OverviewCards.MediumIsYellow | src/components/OverviewCards.js:37-41 | "Medium" is yellow |
| OverviewCards.MediumHighIsGreen | src/components/OverviewCards.js:37-41 | "Medium-High" is green, because "High" is tested first |
| OverviewCards.HighIsGreen | src/components/OverviewCards.js:37-41 | "High" is green |
| OverviewCards.UnknownAutonomyIsBlue | src/components/OverviewCards.js:37-41 | any string without an 'H' or an 'M' falls through to blue |
| OverviewCards.TechnicalColorByLevel | src/components/OverviewCards.js:43-47 | along the skill scale the colour is monotone: Beginner green, Beginner-Intermediate and Intermediate yellow, Intermediate-Advanced and Advanced red |
| OverviewCards.BeginnerIsGreen | src/components/OverviewCards.js:43-47 | "Beginner" is green |
| OverviewCards.BeginnerIntermediateIsYellow | src/components/OverviewCards.js:43-47 | "Beginner-Intermediate" is yellow |
| OverviewCards.IntermediateIsYellow | src/components/OverviewCards.js:43-47 | "Intermediate" is yellow |
| OverviewCards.IntermediateAdvancedIsRed | src/components/OverviewCards.js:43-47 | "Intermediate-Advanced" is red, because "Advanced" is tested first |
| OverviewCards.AdvancedIsRed | src/components/OverviewCards.js:43-47 | "Advanced" is red |
| OverviewCards.CardPriceLabel | src/components/OverviewCards.js:90 | the card's price reads "Free*" or "$…/mo" |
| OverviewCards.CardPriceLabelRoundTrip | src/components/OverviewCards.js:90 | the card reads "Free*" exactly for price 0; otherwise it reads "$" + price + "/mo", and the price can be read back from it |
| OverviewCards.Preview | src/components/OverviewCards.js:125 | the pros/cons preview is the first min(2, n) items, in order |
| SecurityTable.SearchConsultsNameOnly | src/components/SecurityTable.js:10-11 | the search reads only the name: records agreeing on name, deployment, autonomy and price match alike |
| SecurityTable.FilteredPlatforms | src/components/SecurityTable.js:8-20 | the security table's filtered list (name searched) is never longer than the dataset |
| SecurityTable.SecurityIcon | src/components/SecurityTable.js:22-30 | ✓ exactly for `true` and the string "Full control", ✗ exactly for `false`, ◐ for every other value |
| SecurityTable.LocalDataText | src/components/SecurityTable.js:94-96 | a boolean reads "Yes" when true and "No" when false; a string is shown as it is |
| SecurityTable.IconAgreesWithText | src/components/SecurityTable.js:22-30 | for a boolean, ✓ sits beside "Yes" and ✗ beside "No"; a string is never ✗, and is ✓ exactly when it is "Full control" |
| SecurityTable.ShippedLocalDataGlyphs | src/components/SecurityTable.js:92-96 | OpenClaw and LangChain show ✓; n8n shows ◐ beside its own text |
| SecurityTable.ShippedCloudLocalData | src/components/SecurityTable.js:92-96 | the four managed cloud offerings show ✗ beside "No" |
| PricingChart.ChartDataOf | src/components/PricingChart.js:41-59 | labels and both cost series are parallel: entry i of each belongs to filtered record i |
| PricingChart.FilteredPlatforms | src/components/PricingChart.js:27-39 | the chart's filtered list (name searched) is never longer than the dataset |
| PricingChart.AfterLabel | src/components/PricingChart.js:85-88 | for a bar index within the data, "Note: " followed by that record's price note; otherwise the error of reading `priceNote` from `undefined` |
| PricingChart.TickLabel | src/components/PricingChart.js:97-99 | a tick label is "$" followed by at least one character |
| PricingChart.PriceLabel | src/components/PricingChart.js:154-158 | the price cell reads "Free" or "$" followed by the price |
| PricingChart.SelfHostedLabel | src/components/PricingChart.js:161-165 | the self-hosted cell reads "N/A" or "$" followed by the cost |
| PricingChart.TooltipMatchesBar | src/components/PricingChart.js:85-88 | the tooltip succeeds exactly for a drawn bar index, where it reads "Note: " and that record's price note; past the data it fails with the undefined-record error |
| PricingChart.TickLabelRoundTrip | src/components/PricingChart.js:97-99 | a y-axis tick is "$" followed by its value, which can be read back |
| PricingChart.PriceLabelRoundTrip | src/components/PricingChart.js:154-158 | the price cell reads "Free" exactly for 0, and otherwise equals the tick label of the price |
| PricingChart.SelfHostedLabelRoundTrip | src/components/PricingChart.js:161-165 | the self-hosted cell reads "N/A" exactly for cost 0, and otherwise equals the tick label of the cost |
| UseCases.ComplexityColor | src/components/UseCases.js:22-33 | the badge is grey exactly for a complexity other than Low, Medium and High |
| UseCases.ComplexityColorClassifies | src/components/UseCases.js:22-33 | the three known complexities get three distinct colours |
| UseCases.ShippedBadgesColoured | src/components/UseCases.js:72 | no use-case badge of the shipped data is grey |
| UseCases.FilteredPlatforms | src/components/UseCases.js:8-20 | the use-case cards' filtered list (name searched) is never longer than the dataset |
| UseCases.UseCaseRows | src/components/UseCases.js:65-75 | one row per use case, in stored order, carrying its name and its badge colour |
| UseCases.IntegrationChips | src/components/UseCases.js:86 | the chips are the first min(3, n) integrations, in order |
| UseCases.MoreBadge | src/components/UseCases.js:94-98 | the "+k more" badge appears exactly when there are more than three integrations, with k the number past the third |
| UseCases.ChipsAndBadgePartition | src/components/UseCases.js:86-98 | the "+k more" badge appears exactly when some integration has no chip, and chips plus k account for every integration |
| Summary.CountFree | src/components/Summary.js:170 | "Free Options" counts at most the whole list |
| Summary.CountSelfHosted | src/components/Summary.js:178 | "Self-Hosted Options" counts at most the whole list |
| Summary.PlatformsCompared | src/components/Summary.js:162 | "Platforms Compared" is never smaller than "Free Options" or "Self-Hosted Options" |
| Summary.IsFree | src/components/Summary.js:170 | a record is free exactly when the price range [0, 0] keeps it |
| Summary.IsSelfHosted | src/components/Summary.js:178 | a record is self-hosted exactly when the deployment selector set to "Self-hosted" keeps it |
| Summary.FreeCountIsSliderAtZero | src/components/Summary.js:170 | "Free Options" equals the number of records listed when the price slider is at 0, for any searched fields |
| Summary.SelfHostedCountIsDeploymentFilter | src/components/Summary.js:178 | "Self-Hosted Options" equals the number of records listed when "Self-hosted" is selected, for any searched fields |
| Summary.StartsSelfHosted | src/components/Summary.js:178 | a deployment that begins with "Self-hosted" counts as self-hosted |
| Summary.ShippedTotal | src/components/Summary.js:162 | "Platforms Compared" shows 7 |
| Summary.ShippedFreeCount | src/components/Summary.js:170 | "Free Options" shows 4 |
| Summary.ShippedSelfHostedCount | src/components/Summary.js:178 | "Self-Hosted Options" shows 3: OpenClaw, LangChain and n8n |
| Dashboard.ViewsNest | src/components/SecurityTable.js:8-20 | for every filter state, the name-only list is drawn from the table's list, and that from the cards' list, in order |
| Dashboard.NameOnlyViewsAgree | src/components/PricingChart.js:27-39 | the security table, the chart and the use-case cards list the same records in every state |
| Dashboard.ShippedPricesOnSlider | src/data/platformsData.js:1-303 | every shipped monthly price lies within the slider's [0, 500] |
| Dashboard.DefaultsShowEverything | src/context/AppContext.js:19-23 | with all filters at their defaults, every view lists the whole dataset in order |
| Dashboard.HighAutonomyKeepsTwo | src/components/FeatureComparisonTable.js:17-18 | with autonomy "High" and every other filter open, the table lists exactly OpenClaw and LangChain, in that order |
| Dashboard.CloudAndHybridKeepCopilot | src/components/FeatureComparisonTable.js:15-16 | "Cloud" and "Hybrid" both select "Cloud/Hybrid", by substring |
| Dashboard.CloudKeepsClaude | src/components/FeatureComparisonTable.js:15-16 | "Cloud" selects "Cloud/API" |
| Dashboard.CloudKeepsN8n | src/components/FeatureComparisonTable.js:15-16 | "Cloud" selects "Cloud/Self-hosted" |
| Dashboard.SelfHostedKeepsN8n | src/components/FeatureComparisonTable.js:15-16 | "Self-hosted" selects "Cloud/Self-hosted", although that string is not in the selector's list |
| Dashboard.PriceBoundsInclusive | src/components/FeatureComparisonTable.js:19-20 | with the range [20, 200], the records priced exactly 20 and exactly 200 are listed, and only they |
| Text.Includes | src/components/FeatureComparisonTable.js:13 | `includes` holds exactly when the needle occurs at some position |
| Text.Lower | src/components/FeatureComparisonTable.js:13 | lower-casing keeps the length and maps each character |
| Text.LowerIdempotent | src/components/FeatureComparisonTable.js:13 | lower-casing twice is lower-casing once, so a term already lower-cased searches the same as the term |
| Text.LexLessTransitive | src/components/FeatureComparisonTable.js:46 | string `<` is transitive |
| Text.LexLessTotal | src/components/FeatureComparisonTable.js:46 | of two distinct strings, one is `<` the other |
| Text.LexLessIrreflexive | src/components/FeatureComparisonTable.js:46 | no string is `<` itself |
| Text.DecimalRoundTrip | src/components/PricingChart.js:98 | the decimal rendering of a natural number reads back as that number |
| Text.IntStringRoundTrip | src/components/PricingChart.js:98 | the rendering of any integer, sign included, reads back as that integer |
| Seqs.Take | src/components/UseCases.js:86 | `slice(0, n)` gives the first min(n, length) elements, in order |
| Seqs.Map | src/components/PricingChart.js:42 | `map` gives one image per element, position by position |
| Seqs.Count | src/components/Summary.js:170 | `filter(...).length` never exceeds the length of the list |
| Seqs.CountAppend | src/components/Summary.js:170 | counting `filter(...).length` distributes over concatenation |

## Left out

- Rendering is left out: JSX markup, Tailwind class strings, row striping, icons and prose. Colours and glyphs are enumerations (`Palette.Tone`, the glyph datatypes).
- The Chart.js library is left out. Only the data handed to it (`chartData`) and the two callbacks it calls are modelled. `afterLabel` takes the bar index as a parameter, and the tick callback takes the axis value.
- PricingChart.TickLabel: takes an integer axis value. Chart.js picks the tick values itself, and they need not be whole numbers: when every bar left is 0 (autonomy "Medium-High", or the search "amazon"), the axis can run over [0, 1] and label 0.1, 0.2, …. Such fractional ticks and their rendering are not modelled.
- PricingChart.TickLabelRoundTrip: holds for integer ticks only, for the reason above.
- React's mechanics are left out: hooks, memoisation, re-rendering and context propagation. Each setter is a method that updates its field at once.
- The `document.documentElement.classList` update is left out, because it is DOM I/O. The localStorage write is modelled.
- `localStorage` is modelled as a `map<string, string>` that is passed to the provider and kept in a field. Storage failures and other tabs are left out.
- Text.Lower lower-cases ASCII letters only. JavaScript's full Unicode case mapping is left out.
- Text.LexLess compares `char` values, while JavaScript compares UTF-16 code units. The two agree on the ASCII text of the dataset.
- Prices are integers, since the dataset holds only whole numbers. Floating point is left out. This includes the values Chart.js computes for its axis (see PricingChart.TickLabel).
- ArraySort.SortInPlace is an insertion sort. It models `Array.prototype.sort` through its specification (a stable sort for a consistent comparator), not V8's own algorithm.
- PricingChart.AfterLabel models the callback's `TypeError` as an `Err` whose text is V8's message. Other engines word it differently.
- The view helpers `FilteredPlatforms` (in each view module) are compositions of `FilterEngine.FilterPlatforms` with each view's field list. Their order and membership properties are stated on FilterEngine and Dashboard, and are not repeated on each view.
- `autonomyOrder[x] || 0` is modelled for any string. Object prototype keys such as "toString" would give a non-numeric value in JavaScript; they are not modelled and rank 0 here.
- The feature-name header text (camelCase split and capitalised) is left out as presentation. So are the tooltips that show each feature's description.
- The pros/cons preview's `join(', ')` and the "+k more" wording are left out as presentation. Their counts are modelled by `OverviewCards.Preview` and `UseCases.MoreBadge`.
- The "15+" figure on the summary page is a literal in the markup, not computed, and is left out.
- The Summary, Header and Footer prose, and App's layout, are left out.
- The `darkMode` colour choices of the chart options are presentation and are left out.
