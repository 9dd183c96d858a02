# Share of Wallet: the data layer, modelled in Dafny

Share of Wallet is a Power Apps component. It shows statements of work (SOWs)
per country on a map, and builds a sidebar of dropdowns, a grid and a product
revenue chart. A click on a country opens an insight card with the country's
opportunities. Between the host's datasets and the React views sits a layer of
small folds, filters and band mappings. This project models that layer and
proves its properties:

- the opportunity library: status filters, decimal normalisation, yearly
  won/lost buckets, revenue per year, the two-point trend line, confidence and
  probability bands, and the SOW opportunity list;
- the product list clean-up and the product × country revenue pivot behind the
  bar chart;
- the country and region dropdown options;
- the map features (polygon filter, colour stamping), their bounding box, and
  the main component's selection toggles and filters;
- the grid rows, totals row, trend box and row click;
- the map's card position, SOW lookup and card visibility;
- the card's KPIs, bar heights, year axis, year match, tooltip placement and
  truncation;
- the style helpers that depend on their arguments;
- the column-alias lookup and the settings defaults.

A host dataset is a list of record ids plus a map from id to record
(`Host.DataSet`). A record's field is a `Host.Value`: null, a number, a text, a
lookup object (its id is a plain string or a `{guid}`), an option-set value or
a date. JavaScript numbers are exact reals. `NaN` and ±Infinity appear only
where the code produces them (`Host.JsNumber`). `Math.round` rounds half-way up;
`toFixed(2)` rounds half-way away from zero. Truthiness and `x || d` defaults
are written out (`Host.Truthy`, `Host.AsNumberOr`, `Host.AsTextOr`).

Some host services become function parameters:

- `JSON.parse` of a polygon column: `parse`
- `new Date(d).getFullYear()`: `yearOf`
- `toLocaleDateString`: `formatDate`
- `Number.prototype.toString`: `numToString`

Code that fills a dictionary or array in a loop is a Dafny `method` with a
loop. It is proved equal to a specification function, and the properties are
lemmas about that function. The main component's and the map's React state are
classes (`Main.MainComponent`, `MapView.CardState`) whose methods update their
fields.

The model follows the code in these details:

- `processOpportunitiesForChart` keeps years 2000..2050 only.
- The card's year match requires exactly three '/'-separated parts.
- `handleItemClick` opens the first record; the map's click picks the last.
- The main component's feature builder has no geometry filter, unlike
  `processMapData`.

## Model

| member | source | states |
|---|---|---|
| Opportunities.ActiveMeansCode | SoW/utils/opportunityDataSet.ts:185-197 | an opportunity is active exactly when its status (a number, a numeric text or a `{value}` object) has code 1 or 2 |
| Opportunities.WonMeansCode | SoW/utils/opportunityDataSet.ts:202-209 | won exactly when the status code is 3 |
| Opportunities.LostMeansCode | SoW/utils/opportunityDataSet.ts:214-223 | lost exactly when the status code is 4 or 5 |
| Opportunities.GetActiveOpportunities | SoW/utils/opportunityDataSet.ts:185-197 | keeps, in order, exactly the opportunities whose status is 1 or 2 as a number, a text or a `{value}` object |
| Opportunities.GetWonOpportunities | SoW/utils/opportunityDataSet.ts:202-209 | keeps, in order, exactly the opportunities whose status is 3 as a number, a text or a `{value}` object |
| Opportunities.GetLostOpportunities | SoW/utils/opportunityDataSet.ts:214-223 | keeps, in order, exactly the opportunities whose status is 4 or 5 as a number, a text or a `{value}` object |
| Opportunities.GetOutlierOpportunities | SoW/utils/opportunityDataSet.ts:228-233 | keeps, in order, exactly the opportunities whose outlier flag is the text "1" |
| Opportunities.GetPredictedWinOpportunities | SoW/utils/opportunityDataSet.ts:238-243 | keeps, in order, exactly the opportunities whose prediction is the number 1 or the text "1" |
| Opportunities.StatusClassesDisjoint | SoW/utils/opportunityDataSet.ts:185-223 | no status is in two of the active, won and lost classes |
| Opportunities.StatusFiltersPartition | SoW/utils/opportunityDataSet.ts:185-223 | each status filter returns an order-preserving subsequence of its input, and no opportunity is in two of the results |
| Opportunities.FiltersIdempotent | SoW/utils/opportunityDataSet.ts:185-243 | applying any of the five filters a second time changes nothing |
| Opportunities.FlagFilters | SoW/utils/opportunityDataSet.ts:228-243 | the outlier filter keeps exactly the opportunities whose flag is the text "1" (the number 1 is rejected); the predicted-win filter keeps exactly those whose prediction is the number 1 or the text "1"; both keep order |
| Opportunities.ParseDecimalValue | SoW/utils/opportunityDataSet.ts:249-261 | a number is scaled to a percentage (times 100 when at most 1); a text has its first ',' read as a decimal point and is then scaled the same way, or gives 0 when `parseFloat` reads no number; a value that is neither number nor text gives 0 |
| Opportunities.PercentBounds | SoW/utils/opportunityDataSet.ts:249-261 | a fraction in [0,1] becomes a percentage in [0,100]; a value above 1 is kept; non-negative stays non-negative |
| Opportunities.DecimalCommaIsPoint | SoW/utils/opportunityDataSet.ts:255-258 | a text with a decimal comma reads as the same text with a decimal point |
| Opportunities.DecimalTextAgreesWithNumber | SoW/utils/opportunityDataSet.ts:249-261 | the decimal text of a whole number gives the same result as the number itself |
| Opportunities.ParseDecimalNumberExamples | SoW/utils/opportunityDataSet.ts:249-261 | 0.5 gives 50 and 50 gives 50 |
| Opportunities.ParseDecimalCommaExample | SoW/utils/opportunityDataSet.ts:249-261 | "0,75" gives 75 |
| Opportunities.ParseDecimalTextExample | SoW/utils/opportunityDataSet.ts:249-261 | "abc" gives 0 |
| Opportunities.OutlierConfidenceLevel | SoW/utils/opportunityDataSet.ts:294-302 | High exactly from 90, Low exactly below 50, Medium in between; `isLow` exactly for Low |
| Opportunities.ConfidenceLevelMonotone | SoW/utils/opportunityDataSet.ts:294-302 | a higher confidence never gets a lower level |
| Opportunities.ProbabilityColor | SoW/utils/opportunityDataSet.ts:396-406 | green from 75, purple from 50, blue from 25, light blue below, all from the caller's palette |
| Opportunities.ProcessOpportunityData | SoW/utils/opportunityDataSet.ts:6-75 | a loading or failed dataset is returned as it is, with zero counts; otherwise the result keeps exactly the listed ids that have a record; it counts the missing records and the records without a SOW reference |
| Opportunities.PresentPlusMissing | SoW/utils/opportunityDataSet.ts:25-33 | every listed id is counted either as present or as missing |
| Opportunities.CleanedDataSetWellFormed | SoW/utils/opportunityDataSet.ts:69-74 | the cleaned dataset lists exactly its records, so every listed id can be read |
| Opportunities.OpportunityClick | SoW/utils/opportunityDataSet.ts:80-101 | a click opens the clicked id exactly when a dataset is present, with the dataset's entity type or a non-empty default |
| Opportunities.Or | SoW/utils/opportunityDataSet.ts:458-497 | `v \|\| d`: a truthy value is kept, a falsy one replaced by the default |
| Opportunities.ProcessOpportunitiesForSow | SoW/utils/opportunityDataSet.ts:415-510 | the method's loop and in-place sort compute the SOW's opportunity list |
| Opportunities.SowOpportunities | SoW/utils/opportunityDataSet.ts:415-510 | a missing dataset or a missing or empty SOW id gives []; the list is sorted by revenue, highest first; every entry is the opportunity built from a listed record whose SOW lookup matches |
| Opportunities.SowOpportunitiesSpec | SoW/utils/opportunityDataSet.ts:428-502 | the list is sorted by revenue, descending, and is a permutation of the matches; every entry comes from a listed record whose SOW lookup matches by id, guid or country name |
| Opportunities.MatchedContents | SoW/utils/opportunityDataSet.ts:428-499 | each match is a listed record's opportunity, built with the code's defaults, and has a matching SOW lookup |
| Opportunities.MatchedComplete | SoW/utils/opportunityDataSet.ts:428-499 | every listed record whose lookup matches is in the list |
| Opportunities.MissingStaysMissing | SoW/utils/opportunityDataSet.ts:425-509 | once a listed id without a record is met, the whole call ends in the exception path |
| Opportunities.SowOpportunitiesEmptyCases | SoW/utils/opportunityDataSet.ts:420-509 | a missing dataset, a missing or empty SOW id, or a listed id without a record gives the empty list |
| YearBuckets.ChartYearRange | SoW/utils/opportunityDataSet.ts:129-143 | a year read from a close date is never 0 and, being `parseInt` of four characters, lies in -999..9999 |
| YearBuckets.ChartYearOfDisplayDate | SoW/utils/opportunityDataSet.ts:131-140 | a date shown as D/M/YYYY yields its year |
| YearBuckets.WinRate | SoW/utils/opportunityDataSet.ts:167-172 | the win rate is between 0 and 100; it is 0 with no wins and 100 with wins and no losses |
| YearBuckets.MaxTotal | SoW/utils/opportunityDataSet.ts:177 | `Math.max` of the totals: -Infinity exactly for no rows, otherwise at least every row's won+lost |
| YearBuckets.ProcessOpportunitiesByYear | SoW/utils/opportunityDataSet.ts:106-180 | empty inputs give no rows and a maximum of 0; otherwise the rows are the per-year buckets and the maximum is that of their totals |
| YearBuckets.RowsByYear | SoW/utils/opportunityDataSet.ts:166-174 | the rows built from the filled dictionary are the year buckets in ascending year order |
| YearBuckets.TallyWon | SoW/utils/opportunityDataSet.ts:145-158 | one won opportunity's update keeps the dictionary equal to the per-year counts and revenue sums |
| YearBuckets.TallyLost | SoW/utils/opportunityDataSet.ts:158-163 | the same for one lost opportunity |
| YearBuckets.YearsOfCount | SoW/utils/opportunityDataSet.ts:129-143 | a year has opportunities exactly when some opportunity's date yields it |
| YearBuckets.YearDataAscending | SoW/utils/opportunityDataSet.ts:166-174 | the rows have distinct years in ascending order |
| YearBuckets.YearDataRows | SoW/utils/opportunityDataSet.ts:166-174 | each row's total is won plus lost, positive, and its win rate is within 0..100 |
| YearBuckets.YearDataYears | SoW/utils/opportunityDataSet.ts:129-174 | a year has a row exactly when some won or lost opportunity closes in it |
| YearBuckets.TotalsAtMostInputs | SoW/utils/opportunityDataSet.ts:129-143 | undated opportunities join no row, so the rows count at most all the inputs |
| YearBuckets.NoDatesNoRows | SoW/utils/opportunityDataSet.ts:177 | with inputs but no readable date there are no rows and the maximum is -Infinity |
| Trend.ProcessOpportunitiesForChart | SoW/utils/opportunityDataSet.ts:266-289 | the dictionary has exactly the charted years, each with the summed revenue of its charted opportunities |
| Trend.GroupedStep | SoW/utils/opportunityDataSet.ts:269-286 | one loop step keeps the dictionary equal to the per-year revenue of the opportunities seen |
| Trend.ChartedYearsInRange | SoW/utils/opportunityDataSet.ts:272-280 | every charted year lies in 2000..2050 |
| Trend.UnchartedRevenue | SoW/utils/opportunityDataSet.ts:269-286 | a year with no charted opportunity has no revenue |
| Trend.ChartYearsMeaning | SoW/utils/opportunityDataSet.ts:266-289 | a year is charted exactly when a dated opportunity with revenue falls in it, and it lies in 2000..2050 |
| Trend.TrendYears | SoW/utils/opportunityDataSet.ts:315-318 | the years of both dictionaries, duplicates kept: as many as the keys of both |
| Trend.TrendYearIsKey | SoW/utils/opportunityDataSet.ts:315-357 | every listed year is a key of one dictionary, so the anchor never falls back to the average |
| Trend.Average | SoW/utils/opportunityDataSet.ts:344-345 | the mean of the collected revenues is NaN exactly when none was collected |
| Trend.CalculateTrendLine | SoW/utils/opportunityDataSet.ts:310-380 | the method returns the specified trend line |
| Trend.CollectDataPoints | SoW/utils/opportunityDataSet.ts:333-341 | the loop collects each year's truthy won entry, then its truthy predicted entry |
| Trend.LineThrough | SoW/utils/opportunityDataSet.ts:370-377 | the `years.map` gives one point per year on the line through the two anchors |
| Trend.FallbackPoints | SoW/utils/opportunityDataSet.ts:321-326 | with fewer than two years, each year gets its won, else predicted, else 0 revenue |
| Trend.SlopeIntercept | SoW/utils/opportunityDataSet.ts:370-372 | `slope * y + intercept` is the two-point form of the line |
| Trend.OnLineEndpoints | SoW/utils/opportunityDataSet.ts:349-372 | the line passes through both anchors |
| Trend.TrendLine | SoW/utils/opportunityDataSet.ts:310-380 | one point per entry of the sorted list of both dictionaries' years, in that order, each point carrying its year |
| Trend.TrendLineSorted | SoW/utils/opportunityDataSet.ts:310-380 | the points' years are in ascending order |
| Trend.SingleYearPoints | SoW/utils/opportunityDataSet.ts:361-367 | when the first and last years coincide, the line is two points carrying those years |
| Trend.SingleYearHasTwo | SoW/utils/opportunityDataSet.ts:361-367 | all years coincide only when there are exactly two entries, one per dictionary |
| Trend.LinePointsCollinear | SoW/utils/opportunityDataSet.ts:370-377 | every point has the slope of the two anchors |
| Trend.TrendLineOnLine | SoW/utils/opportunityDataSet.ts:349-377 | with two distinct end years, the points run from the first anchor to the last along one line |
| Trend.TrendLineExample | SoW/utils/opportunityDataSet.ts:310-380 | won 100 in 2022 and predicted 300 in 2024 give exactly those two points |
| Trend.TwoYearLine | SoW/utils/opportunityDataSet.ts:310-380 | one won year before one predicted year: the line is the won point followed by the predicted point |
| Trend.TwoYears | SoW/utils/opportunityDataSet.ts:315-318 | one won year before one predicted year sort to exactly those two years in order |
| ProductData.ProcessProductData | SoW/utils/productDataSet.ts:9-77 | a loading or failed dataset is returned as it is; otherwise only the kept products remain, rebuilt, and their ids are listed |
| ProductData.ProductStep | SoW/utils/productDataSet.ts:18-69 | one loop step adds the next id to both results exactly when its product is kept |
| ProductData.KeptIff | SoW/utils/productDataSet.ts:30-38 | a product is kept exactly when it is listed and its SOW lookup is an object with a non-empty id or guid |
| ProductData.RebuiltAccessors | SoW/utils/productDataSet.ts:24-68 | rebuilt records answer the product name, revenue and SOW lookup and "" for any other column, with the formatted values as text and the original record id |
| ProductData.RebuiltStaysValid | SoW/utils/productDataSet.ts:24-68 | a rebuilt product resolves to the same SOW id and name, so it would be kept again |
| ProductData.ProcessedWellFormed | SoW/utils/productDataSet.ts:72-76 | the output lists exactly its records |
| ProductData.KeptOrder | SoW/utils/productDataSet.ts:72-76 | with distinct, non-index ids, the output ids are the kept ids in their original relative order |
| ProductChart.NormalizeCountryName | SoW/utils/ProcessProductData.ts:38-40 | the result is the input with white space removed from both ends only: a slice of the input, with white space before and after it, that neither starts nor ends with white space |
| ProductChart.NormalizeIdempotent | SoW/utils/ProcessProductData.ts:38-40 | normalising a country name twice is normalising it once |
| ProductChart.ReadCountryName | SoW/utils/ProcessProductData.ts:69-79 | a SOW's country is its lookup name, else its text value, else its formatted value, trimmed |
| ProductChart.BuildSowCountryMap | SoW/utils/ProcessProductData.ts:68-85 | the first loop builds the SOW-to-country dictionary and the distinct country names in first-seen order |
| ProductChart.SowCountriesNormalised | SoW/utils/ProcessProductData.ts:68-85 | every stored country name is non-empty, trimmed, and among the chart's labels |
| ProductChart.SowCountriesDomain | SoW/utils/ProcessProductData.ts:68-85 | a SOW id is stored exactly when a listed record under it names a country |
| ProductChart.SowLoopStep | SoW/utils/ProcessProductData.ts:68-85 | one step of the first loop, on the dictionary and the name set |
| ProductChart.AccumulateProducts | SoW/utils/ProcessProductData.ts:87-126 | the second loop builds the distinct product names in first-seen order and the pivot of the sales |
| ProductChart.AddToProductMap | SoW/utils/ProcessProductData.ts:113-121 | one update adds a sale's revenue to its product and country cell |
| ProductChart.ProductLoopStep | SoW/utils/ProcessProductData.ts:87-126 | one step of the second loop, on the names and on the pivot |
| ProductChart.PivotStep | SoW/utils/ProcessProductData.ts:113-121 | the pivot of one more sale is the old pivot with that sale added |
| ProductChart.NoSaleWithoutCountry | SoW/utils/ProcessProductData.ts:93-104 | a product whose lookup has no id, or whose SOW has no country, contributes nothing |
| ProductChart.PivotCell | SoW/utils/ProcessProductData.ts:106-121 | a cell exists exactly when some sale has that product and country, and holds their summed revenue |
| ProductChart.ChartLabelsSpec | SoW/utils/ProcessProductData.ts:126-141 | labels keep their order; when all countries are shown they are unchanged, otherwise a label is kept exactly when some product earned in that country |
| ProductChart.FilterLabels | SoW/utils/ProcessProductData.ts:126-141 | the label filter computes the specified labels |
| ProductChart.DataColumn | SoW/utils/ProcessProductData.ts:145-154 | the data column has one entry per label: the product's positive revenue there, else null |
| ProductChart.CellMeaning | SoW/utils/ProcessProductData.ts:147-153 | an entry is drawn exactly when the pivot has a positive revenue for it, and it is that revenue |
| ProductChart.BuildDatasets | SoW/utils/ProcessProductData.ts:144-160 | the loop builds the specified datasets |
| ProductChart.DatasetsSpec | SoW/utils/ProcessProductData.ts:144-160 | dataset k is product k, coloured by palette entry k mod 7, with one cell per label |
| ProductChart.ProcessProductDataForChart | SoW/utils/ProcessProductData.ts:42-166 | the chart's labels and datasets are those of the SOW countries, the sales and their pivot |
| Dropdowns.OptionText | SoW/utils/utils.tsx:15-27 | a record contributes a lookup object's name, else its raw value; never null or "" |
| Dropdowns.OptionsOf | SoW/utils/utils.tsx:29-34 | one option per text, with key equal to text |
| Dropdowns.UniqueOptions | SoW/utils/utils.tsx:3-35 | an empty field or a missing dataset gives none; options have distinct, non-empty texts, key equal to text, at most one per listed id |
| Dropdowns.CandidatesShown | SoW/utils/utils.tsx:15-27 | no contribution is null or "" |
| Dropdowns.CandidatesMembers | SoW/utils/utils.tsx:15-27 | a value is contributed exactly when a listed record behind an id shows it |
| Dropdowns.OptionsMembers | SoW/utils/utils.tsx:3-35 | the option texts are exactly the values some listed record shows |
| Dropdowns.OptionsOrder | SoW/utils/utils.tsx:11-34 | options come in the order their texts first appear |
| Dropdowns.MissingRecordsSkipped | SoW/utils/utils.tsx:15-18 | ids without a record are skipped as if not listed |
| Dropdowns.DuplicateGivesOneOption | SoW/utils/utils.tsx:3-35 | two listed records showing the same text in the column give exactly one option, keyed and labelled with that text |
| GeoJson.WithFillColor | SoW/utils/ProcessMapData.ts:33-36 | a stamped feature keeps its geometry and its other properties, and `fillColor` is the row colour |
| MapData.ProcessMapData | SoW/utils/ProcessMapData.ts:12-68 | the method's loops compute the features of the listed records, record after record |
| MapData.PushPolygons | SoW/utils/ProcessMapData.ts:28-44 | the inner loop appends the collection's stamped polygon features |
| MapData.CollectionFeatures | SoW/utils/ProcessMapData.ts:28-44 | a collection yields at most as many features as it has |
| MapData.CollectionIsStampedFilter | SoW/utils/ProcessMapData.ts:28-44 | a collection yields its polygon and multi-polygon features, in order, each stamped with the row colour |
| MapData.RecordFeaturesStamped | SoW/utils/ProcessMapData.ts:27-62 | every emitted feature is a polygon or multi-polygon whose `fillColor` is its record's colour |
| MapData.SkippedRecord | SoW/utils/ProcessMapData.ts:23-25 | a record with a falsy polygon value or text that does not parse adds nothing, and later records still count |
| MapData.MapFeatures | SoW/utils/ProcessMapData.ts:12-68 | every feature of the listed records is a polygon or multi-polygon whose `fillColor` is the colour of one of the listed records |
| MapData.MapFeaturesAppend | SoW/utils/ProcessMapData.ts:18-44 | output order is record order |
| BoundingBox.GetGeoJsonBoundingBox | SoW/utils/calcBoundingBox.ts:3-31 | the nested loops compute the box of the polygon positions, none for an empty list |
| BoundingBox.ScanRings | SoW/utils/calcBoundingBox.ts:17-26 | the ring loop widens the bounds by every position of every ring |
| BoundingBox.ScanRing | SoW/utils/calcBoundingBox.ts:18-25 | the position loop widens the bounds by each position |
| BoundingBox.BoxContains | SoW/utils/calcBoundingBox.ts:18-25 | the box of at least one position is finite and holds every position |
| BoundingBox.BoxAttained | SoW/utils/calcBoundingBox.ts:18-25 | each bound is the coordinate of some position |
| BoundingBox.NoPositionsNoBox | SoW/utils/calcBoundingBox.ts:8-29 | features without polygons give the untouched start values |
| BoundingBox.OnlyPolygonsCount | SoW/utils/calcBoundingBox.ts:13-16 | features that are not polygons change nothing |
| BoundingBox.PositionsMembers | SoW/utils/calcBoundingBox.ts:13-16 | a position is looked at exactly when it lies in a ring of a polygon feature, multi-polygons flattened one level |
| BoundingBox.SquareExample | SoW/utils/calcBoundingBox.ts:3-31 | the box of one two-point ring |
| Main.BuiltFeatures | SoW/components/main/mainComponent.tsx:61-88 | the builder stamps every feature of a collection with the row colour or null, without a geometry test, keeps a bare feature as it is, and gives nothing otherwise |
| Main.RecordsOf | SoW/components/main/mainComponent.tsx:62-64 | the records of the listed ids, in list order |
| Main.FeaturesOf | SoW/components/main/mainComponent.tsx:61-88 | a feature is built exactly when it comes from one of the records |
| Main.SelectedHaveGeometry | SoW/components/main/mainComponent.tsx:149-182 | the features of a filtered set of records are among those of all of them |
| Main.Toggle | SoW/components/main/mainComponent.tsx:123-130 | selecting appends the text after the current selection; deselecting removes every copy of the text and keeps every copy of each other text, in order (an ordered sub-sequence with the same multiset apart from the text, and as many fewer entries as the text had copies) |
| Main.SelectThenDeselect | SoW/components/main/mainComponent.tsx:123-130 | selecting a new text and deselecting it again restores the selection |
| Main.SelectedItemsInOrder | SoW/components/main/mainComponent.tsx:187 | the kept grid rows are exactly those whose country is selected, in order |
| Main.MainComponent.constructor | SoW/components/main/mainComponent.tsx:61-104 | the initial state: the built features, the grid rows, empty selections, everything shown, no box |
| Main.MainComponent.HandleCountryDropdownChange | SoW/components/main/mainComponent.tsx:117-136 | no option changes nothing; otherwise the country selection is toggled and shown; the region selection is untouched |
| Main.MainComponent.HandleRegionDropdownChange | SoW/components/main/mainComponent.tsx:194-209 | the same for regions; the country selection is untouched |
| Main.MainComponent.FilterBy | SoW/components/main/mainComponent.tsx:139-190 | an empty selection shows all features and rows; otherwise the selected records' features and the matching rows; the box is always that of the shown features |
| MapView.CalculateCardPosition | SoW/components/main/map.tsx:110-132 | the card opens 15 past the cursor, or before it on an axis where it would cross the edge; neither coordinate is negative; when it fits it lies inside the map |
| MapView.SizeOr0 | SoW/components/main/map.tsx:112-113 | the container's size, or 0 without one |
| MapView.ClickedName | SoW/components/main/map.tsx:165 | the clicked name, or "Unknown" when it is falsy |
| MapView.LastNamed | SoW/components/main/map.tsx:168-177 | the index of the last record named like the clicked country, or none |
| MapView.FindSowRecordId | SoW/components/main/map.tsx:168-177 | the loop picks the id of the last matching record |
| MapView.LaterMatchWins | SoW/components/main/map.tsx:168-177 | a later record of the same name replaces an earlier match |
| MapView.CardState.constructor | SoW/components/main/map.tsx:45-48 | a hidden card at the origin with no country and no SOW |
| MapView.CardState.CardShown | SoW/components/main/map.tsx:240 | the card receives `cardVisible && showCard` |
| MapView.CardState.SetShowCard | SoW/components/main/map.tsx:51-55 | turning `showCard` off hides the card |
| MapView.CardState.PolygonClick | SoW/components/main/map.tsx:157-189 | with the captured `showCard` on, a shape and a position: selects the clicked country and its last-matching SOW, places the card and makes it visible; otherwise nothing changes |
| MapView.CardState.MapClick | SoW/components/main/map.tsx:192-203 | a click with no shape under it hides the card and clears the country |
| MapView.CardState.Close | SoW/components/main/map.tsx:135-138 | closing hides the card and clears the country, leaving the SOW and position |
| Grid.GetTrendBox | SoW/components/sidebar/grid/grid.tsx:37-68 | Increasing exactly above 5, Steady exactly in 0..5, Declining exactly below 0 |
| Grid.NameOrNA | SoW/components/sidebar/grid/grid.tsx:100-101 | a lookup's non-empty name, else "N/A" |
| Grid.ItemOf | SoW/components/sidebar/grid/grid.tsx:95-105 | a row's country and region are the lookup names or "N/A"; each number is its value, or 0 when falsy |
| Grid.MapDatasetToItems | SoW/components/sidebar/grid/grid.tsx:86-107 | one row per listed record, in list order |
| Grid.ItemsWithTotals | SoW/components/sidebar/grid/grid.tsx:262 | the totals row comes first, then the rows |
| Host.RoundTo2 | SoW/components/sidebar/grid/grid.tsx:163-166 | `parseFloat(x.toFixed(2))`: the result is a whole number of hundredths within half a cent of x, and non-negative for non-negative x |
| Grid.TotalsRow | SoW/components/sidebar/grid/grid.tsx:160-168 | the row is labelled "Totals" with an empty region; the two sums and the mean change are rounded to two decimals (a whole number of hundredths) and lie within half a cent of the exact values; no rows give a mean of 0 |
| Grid.TotalsClose | SoW/components/sidebar/grid/grid.tsx:160-168 | the totals have two decimals and are within half a cent of the exact sums and mean, 0 for no rows, and non-negative for non-negative rows |
| Grid.RecordCountry | SoW/components/sidebar/grid/grid.tsx:130-137 | a non-empty country is the name of the lookup object in the country column; a value that is not a lookup with a name gives "" |
| Grid.HandleItemClick | SoW/components/sidebar/grid/grid.tsx:109-151 | nothing for the totals row or without a primary column; a form that opens is for the target entity and a non-empty id of the first listed record whose country is the row's |
| Grid.FindCountry | SoW/components/sidebar/grid/grid.tsx:128-140 | the first listed record whose country is the row's, or none |
| Grid.ClickOpensFirstMatch | SoW/components/sidebar/grid/grid.tsx:109-151 | a record row opens exactly the first record of its country, when the dataset has a primary column and the id is not "" |
| Grid.ClickOpensNothing | SoW/components/sidebar/grid/grid.tsx:109-151 | the totals row, a dataset without a primary column, or an unmatched country opens nothing |
| Card.KpisOf | SoW/components/main/card.tsx:849-863 | counts and sums of the deals; the average probability is 0 or within 1/2 of the mean; the win/loss ratio is within 0..100, 0 with no closed deals, within 1/2 of the won share; the average deal size times the wins is the won revenue |
| Card.AvgProbabilityInRange | SoW/components/main/card.tsx:851-853 | with percentages as probabilities, the rounded average is a percentage |
| Card.RatioIsWinRate | SoW/components/main/card.tsx:857-859 | the card's ratio is the yearly chart's win rate over all closed deals |
| Card.BarHeightsInRange | SoW/components/main/card.tsx:231-232 | each bar is at least 0%, the stacked won and lost bars never pass 100%, and the year with the largest total fills 100% |
| Card.BarHeight | SoW/components/main/card.tsx:231-232 | a height is never negative; it is 0 without a positive largest count or for a zero count; at most 100 when the count is at most the largest; exactly 100 for the largest |
| Card.ShownCountIsLarge | SoW/components/main/card.tsx:247 | a printed count belongs to a bar above 15% of a positive maximum |
| Card.AllYears | SoW/components/main/card.tsx:350-354 | the won, predicted and trend years, each once, ascending |
| Card.XPosition | SoW/components/main/card.tsx:380-385 | every axis year is placed within 0..320, the first at 0 and, when the years differ, the last at 320 |
| Card.AxisYearsOnChart | SoW/components/main/card.tsx:380-385 | axis years are placed left to right in year order |
| Card.OpportunitiesForYear | SoW/components/main/card.tsx:409-431 | the won (or predicted-win) opportunities that close in the year, in order, and only those |
| Card.ClosesIn | SoW/components/main/card.tsx:411-419 | a date that closes in a year has exactly two '/' |
| Card.DisplayDateClosesIn | SoW/components/main/card.tsx:413-418 | a D/M/YYYY date, with any trailing text that starts with a non-digit, closes in its year |
| Card.NoSlashNoYear | SoW/components/main/card.tsx:413-418 | a date without '/' closes in no year |
| Card.FourPartDate | SoW/components/main/card.tsx:413-418 | a four-part date has a year for the won/lost chart but none for the card: the two year rules disagree |
| Card.TooltipLeft | SoW/components/main/card.tsx:581-594 | `min(x + 8, 60)` in the chart's left half, so at most 60 and 10 from the right edge; `max(x - 258, 10)` in the right half, so at least 10 from the left edge; inside the chart for a point on it |
| Card.TooltipTop | SoW/components/main/card.tsx:595 | 80 above the point but never above 10 |
| Card.ListedOpportunities | SoW/components/main/card.tsx:657 | at most the first five opportunities |
| Card.MoreLabel | SoW/components/main/card.tsx:692-699 | "+N more..." exactly when more than five, N being the rest |
| Styles.RatioColor | SoW/styles.ts:856-871 | green exactly from 70, blue exactly in 50..70, purple exactly below 50 |
| Styles.GetWinLossBarStyles | SoW/styles.ts:856-871 | the bar is `ratio`% wide in the ratio's colour band |
| Styles.GetCircularProgressStyles | SoW/styles.ts:937-941 | the ring's colour is the bar's colour |
| Styles.GetStackedBarStyles | SoW/styles.ts:443-457 | a minimum height of 2px exactly for a non-empty bar; a shadow exactly when hovered |
| Styles.GetCardStyle | SoW/styles.ts:995-1011 | the card at its position, `block` exactly when visible, `none` exactly when not |
| Styles.OutlierIndicatorColor | SoW/styles.ts:798-805 | orange exactly for a low confidence, red otherwise |
| Styles.OutlierItemStyles | SoW/styles.ts:789-796 | no bottom margin and no separator exactly for the last item |
| Styles.IndicatorFollowsConfidence | SoW/styles.ts:798-805 | the indicator is orange exactly when the confidence is below 50 |
| Config.FirstWithAlias | SoW/index.ts:105-115 | the index of the first column with the alias, or none |
| Config.GetColumnName | SoW/index.ts:105-115 | "" when no column has the alias; otherwise the name of the first column with it |
| Config.ColumnNameFirst | SoW/index.ts:105-115 | the column name found is that of the first column with the alias, and "" without one |
| Config.RawOr | SoW/index.ts:28-33 | `raw \|\| d`: a non-empty raw text, else the default |
| Config.SettingsOf | SoW/index.ts:28-33 | countries without revenue are shown only for the text "true"; the card and the visual are on for a missing, empty or "true" value; the key and polygon field default to "" |

## Left out

- Rendering: React and JSX, SVG path strings, chart.js, the Azure Maps SDK (map, layers, camera, mouse events, cursor), the sidebar wrappers, and `recordModal.tsx` (browser plumbing around an iframe) are not modelled.
- Console logging, `Intl.NumberFormat` currency and number formatting, and the style constant objects are not modelled.
- Numbers are exact reals: IEEE rounding error and NaN propagation are not modelled, apart from the NaN and ±Infinity values the code produces on purpose.
- `JSON.parse`, `new Date(d).getFullYear()`, `toLocaleDateString` and `Number.prototype.toString` are function parameters, not models of the host's parsers.
- A field value of a type other than the one a column expects (say a boolean in a text column) reads as the column's default.
- React state updates are modelled as immediate, sequential field updates; batching and re-rendering are not modelled.
- The main component's effect that copies the prop's features into state, and its recomputed `useMemo`, are constants of `Main.MainComponent`. The prop computed in `index.ts` is replaced by the component's own features, as in the code.
- Main.MainComponent.constructor: requires every built feature to have a geometry, because the bounding box reads `feature.geometry.type` without testing for it and would throw; the crash itself is not modelled.
- BoundingBox.GetGeoJsonBoundingBox: requires every feature to have a geometry, for the same reason.
- Grid.MapDatasetToItems, Grid.HandleItemClick, MapData.ProcessMapData, MapView.FindSowRecordId, MapView.CardState.PolygonClick, Main.MainComponent.constructor, ProductData.ProcessProductData and ProductChart.ProcessProductDataForChart: require every listed id to have a record, because the code reads `dataset.records[id]` without testing for it (for the click handlers in map.tsx:169-171 and grid.tsx:128-130, for the main component in mainComponent.tsx:62-64); the exception a missing record would raise is not modelled.
- YearBuckets.ProcessOpportunitiesByYear: requires no lost opportunity to equal a won one. The code tells them apart by object identity, and values have no identity.
- Opportunities.ProcessOpportunitiesForSow: the pushes done before an exception are discarded, as the `catch` returns `[]`. The in-place sort is modelled as a stable insertion sort on a sequence.
- MapView.CardState.PolygonClick: states only that the card's coordinates are non-negative, not the exact position; `CalculateCardPosition` states the position.
- MapView.CardState: the polygon click handler registered when the map is created keeps the `showCard` of that render (`clickShowCard`); later changes of the prop do not reach it. It also keeps that render's `dataset` (map.tsx:157-189). `PolygonClick` takes the dataset as a parameter, so the model does not capture that a later dataset never reaches the handler.
- MapData.ProcessMapData: a `null` entry inside a collection's `features` throws inside the `try` (ProcessMapData.ts:24-63): the polygons before it stay pushed, the rest of that collection is skipped, and the next record is read. A `Feature` value here cannot be null, so this path is not modelled.
- Main.BuiltFeatures: a `null` entry inside a collection's `features` makes `feature.properties` throw inside the `try` (mainComponent.tsx:68-86); the catch then gives that record no features at all. The cause is the same as for MapData.ProcessMapData: a `Feature` value here cannot be null, so this path is not modelled.
- Opportunities.ProcessOpportunityData: the `!opportunityDataset` test (opportunityDataSet.ts:8) is not modelled, because a `DataSet` value is never missing.
- Opportunities.ParseDecimalValue: the text "Infinity" or "-Infinity" gives 0 in the model, because `JsText.ParseFloat` reads no number from it; JavaScript's `parseFloat` gives ±Infinity there, and `parseDecimalValue` would return Infinity or -Infinity.
- Trend.TrendYearIsKey: the anchor's fallback to the average revenue cannot be reached, because every listed year is a key. It is therefore not modelled separately.
- The set-based deduplications (`new Set`, `includes`) compare values, while JavaScript compares lookup objects by identity; for texts and numbers the two agree.
- Object keys are listed as `Object.keys` lists them: integer-like keys first, ascending, then the others in insertion order.
- The card's tab and toggle state, the grid's column-width effect (DOM measurement and timers), and the grid's cell formatting are not modelled.
- Three rules read a year from a close date: the won/lost chart's, the revenue chart's (`yearOf`, a parameter), and the card's. `Card.FourPartDate` shows a date on which the won/lost chart and the card disagree.
