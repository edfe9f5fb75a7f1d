# Grizzly bear habitat-state tools: a Dafny model of the cell rules

The GBTools scripts compute grizzly bear habitat rasters inside the ArcGIS raster engine.
Almost every statement is an engine call. Beneath the calls, each tool applies a fixed set of
cell-by-cell rules and constant tables, and this project models those rules and proves their
properties. Every raster is a sequence indexed by cell, and every engine product (burned
polygons, focal statistics, cursor COUNT rows, raster sizes) is an input.

`HabitatStatesVersionX.py` is the same program as `HabitatStates.py`, with one extra header line.
So the line numbers of the second file are those of the first plus one. One model serves both
files, and the table below cites lines of either file.

The modules follow the tools:

- `Classify` models the engine's reclassification tables. Integer tables hold inclusive ranges.
  For real breakpoint tables the model fixes `[lo, hi)` ranges, except the last one, which holds
  1; the engine's own rule may differ at exactly the breakpoints. Both are
  applied with the "DATA" option. An integer value that no range holds keeps its own value. A
  real value outside [0, 1] gets no class (`None`), so that pass-through is not modelled.
- `Clearings` holds the attribute rule of new clearings in `addClearing`: AGE, REGEN, CC,
  GRIDCODE and _EXISTS, computed from the clearing year, the base year 2018 and the forecast year.
  Its update-cursor pass is a loop over an array of rows.
- `Scenario` holds the landscape layers of a run as a class. Every layer (land cover, regen,
  regen age, percent conifer, crown closure in regen and in treed) is a field, and each scenario
  edit overwrites the fields in place:
  - `addClearing` burns existing clearings last-wins;
  - `addLnHerb`, `addRoads` and the fixed-type `rclmRoads` are priority-`Pick` edits;
  - the match-neighbours `rclmRoads` takes focal statistics, with NoData majorities back-filled;
  - `fAge` is forecast ageing.

  The regen reset in `fAge` is written `Con((fa > 50) | fa == 0, 0, 1)`. Python binds `|`
  tighter than `==`, so it tests `((fa > 50) | fa) == 0`. The model evaluates it as written,
  which resets regen only where the forecast age is 0. A separate lemma states how this differs
  from the stated intent, which is to reset blocks older than 50 years as well.
- `Secondary` holds the land-cover masks of `secInputs`.
- `RsfTables` holds the seasonal RSF models: five population units times three seasons, each
  with 16 coefficients and 9 breakpoints.
- `Habitat` holds the classifications of `calRSF` (the seasonal 10-class RSF, rsf_max,
  habitat deletions and the three tiers), of `calRisk` (11 risk classes and sink/source) and the
  product that `calHState` forms.
- `Sections` holds the section gates of `main` and the order in which they run.
- `Denning` holds the road-replacement flags of `DenningRSF.py`, the candidate mask that road and
  habitat removals update in place, the hard-coded rescale, the 7-class reclassification and the
  final masked product.
- `ChangeDetection` holds the report arithmetic of `ChangeDetection.py`:
  - splitting and labelling the layer selection;
  - the choice of mask raster;
  - the sign of the difference raster;
  - changed areas;
  - the areas of each class, loaded from the value/count rows;
  - percent change per class and in total, with Python 2 `round` (module `Rounding`).

Python exceptions become `Failure`/`None` results:
- `list.index` on a value outside the class list;
- the `NameError` of `del row` after a cursor with no rows;
- a division by zero;
- an unknown population unit, which leaves the coefficients unbound.

## Model

| member | source | states |
|---|---|---|
| Rounding.Round | ChangeDetection.py:362 | round(x, places) keeps the sign of x: nonnegative for x >= 0, nonpositive for x <= 0 |
| Rounding.RoundOdd | ChangeDetection.py:537 | rounding halves away from zero is symmetric: round(-x) == -round(x) |
| Rounding.RoundAtError | ChangeDetection.py:419 | rounding to multiples of 1/s moves a value by at most half of 1/s |
| Rounding.RoundTenths | ChangeDetection.py:559 | round(x, 1) lies within 0.05 of x |
| Rounding.RoundHundredths | ChangeDetection.py:362 | round(x, 2) lies within 0.005 of x |
| Rounding.RoundMonotone | ChangeDetection.py:558 | rounding never reverses the order of two values |
| Classify.RemapIntFirst | HabitatStates.py:1249 | an integer table maps a value to the output of the first range that holds it |
| Classify.RemapIntMiss | HabitatStates.py:1716 | a value that no range holds is kept unchanged ("DATA") |
| Classify.RemapRangeCounts | HabitatStates.py:1573-1576 | with valid breakpoints the table partitions [0, 1]: v lands in base + (number of breakpoints <= v); a value outside [0, 1] is unclassified |
| Classify.RemapRangeMonotone | HabitatStatesVersionX.py:1574-1577 | a value in [0, 1] gets a class in base .. base + n, and a larger value never gets a smaller class |
| RsfTables.Model | HabitatStates.py:1333-1501 | a model exists exactly for Yellowhead, Grande Cache, Clearwater, Livingstone-Castle and Swan Hills in seasons 1 to 3, and each is well formed |
| RsfTables.Yellowhead | HabitatStates.py:1336-1371 | each season has 16 coefficients and 9 strictly increasing breakpoints inside (0, 1) |
| RsfTables.GrandeCache | HabitatStates.py:1372-1407 | each season has 16 coefficients and 9 strictly increasing breakpoints inside (0, 1) |
| RsfTables.Clearwater | HabitatStates.py:1408-1440 | each season has 16 coefficients and 9 strictly increasing breakpoints inside (0, 1) |
| RsfTables.LivingstoneCastle | HabitatStates.py:1441-1470 | each season has 16 coefficients and 9 strictly increasing breakpoints inside (0, 1) |
| RsfTables.SwanHills | HabitatStatesVersionX.py:1472-1502 | each season has 16 coefficients and 9 strictly increasing breakpoints inside (0, 1) |
| Clearings.ClearingCC | HabitatStates.py:703-707 | CC is the canopy curve at abs(age) clamped at 0: never negative, and either 0 or the curve |
| Clearings.GridCode | HabitatStates.py:710-717 | GRIDCODE is total over ages: 7 iff age <= 3, 3 iff 3 < age <= 30 (herb and shrub alike), 1 iff age > 30 |
| Clearings.Attributes | HabitatStates.py:693-724 | AGE = 2018 - year; REGEN = 1 iff 0 <= fcst - year <= 50; _EXISTS = 1 iff fcst >= year; REGEN = 1 implies _EXISTS = 1; CC is ClearingCC(AGE), so max(0, curve(abs(AGE))); GRIDCODE is GridCode(AGE) |
| Clearings.DefaultAttributes | HabitatStates.py:733-737 | without a year field every row gets AGE 0, REGEN 1, CC 0, GRIDCODE 7, _EXISTS 1 |
| Clearings.DefaultIsBaseYearClearing | HabitatStatesVersionX.py:694-738 | the default attributes are those of a clearing made in 2018, for any forecast year up to 2068 |
| Clearings.CanopyCurvePositive | HabitatStates.py:1118 | the crown-closure curve is positive at every whole age from 2 to 112 years |
| Clearings.CanopyCurveBelow70 | HabitatStates.py:1121-1122 | the crown-closure curve never reaches the saturation closure 70 |
| Clearings.CalculateFields | HabitatStates.py:688-737 | after the cursor pass every row keeps its year and holds Attributes(year, fcst), or the defaults when no year field is named |
| Scenario.PickFollowsChange | HabitatStates.py:816-833 | with the priority grid of change and code, Pick takes the first raster on cells with change == code and the second on cells with change == 0 |
| Scenario.PickOrderPassesThrough | HabitatStates.py:806 | a change value that is neither the code nor 0 is its own priority |
| Scenario.PickLayer | HabitatStates.py:884-900 | on a footprint-only change raster, the picked layer is the Pick of the two inputs at every cell |
| Scenario.ForecastAge | HabitatStates.py:1098-1100 | forecast age is increment + regen age, reset to 0 when the sum exceeds 9999, so it never exceeds 9999 |
| Scenario.RegenAsWrittenOnlyResetsZero | HabitatStates.py:1108 | as written, the regen reset gives 0 exactly where the forecast age is 0, and 1 everywhere else |
| Scenario.RegenResetGap | HabitatStatesVersionX.py:1104-1109 | the written reset and the stated reset agree up to 50 years and differ on every older block |
| Scenario.GrownFixedAbove70 | HabitatStates.py:1121-1122 | crown closure at or above 70 is unchanged by ageing |
| Scenario.GrownBounded | HabitatStatesVersionX.py:1122-1123 | with an increment in [0, 70], grown crown closure stays between its old value and 70 |
| Scenario.AgeingGrowsCrownClosure | HabitatStates.py:1118-1123 | ageing by 2 to 112 years never lowers crown closure and never lifts it past 70 |
| Scenario.AgedRegenCrownClosure | HabitatStates.py:1150-1151 | after ageing, crown closure in regen is 0 wherever regen is 0 and the grown closure wherever regen is 1 |
| Scenario.AgedOldBlocks | HabitatStates.py:1138-1184 | a block older than 50 years becomes upland tree with 90 percent conifer, and its treed crown closure is the grown closure |
| Scenario.ReclaimCode | HabitatStates.py:928-937 | "#" and Barren give 7, Herb gives 3, every other type gives 99 (match neighbours) |
| Scenario.MatchedKeepsCover | HabitatStates.py:967-1005 | matching neighbours, with NoData majorities filled as 3, keeps land cover within the legend |
| Scenario.BurnedWhole | HabitatStates.py:743-758 | a cell covered by one existing clearing gets all four of its fields in the attribute rasters; a missing clearing or one with _EXISTS 0 leaves the cell NoData in all four |
| Scenario.ClearedFields | HabitatStates.py:767-782 | each of regen, regen age, crown closure in regen and land cover takes its own clearing raster where that has a value and keeps its old value elsewhere; percent conifer is untouched; treed crown closure follows the new regen |
| Scenario.ClearedCell | HabitatStates.py:767-782 | a cell burned by one clearing takes its regen, age and land cover, and its treed crown closure is 0 in regen and the base closure otherwise |
| Scenario.MixedFieldsExample | HabitatStates.py:743-758 | with the four fields rasterised separately, overlapping clearings can leave a cell with a regen age of 2 and land cover 3, a pair no clearing's attributes hold |
| Scenario.ClearedSplit | HabitatStates.py:776-777 | burning a clearing always leaves treed crown closure equal to the base closure off regen and 0 on it; an unburned cell where that split held is unchanged |
| Scenario.Landscape.ClipData | HabitatStates.py:624-629 | base crown closure is split into crown closure in regen (rgn == 1) and in treed (rgn == 0); the other layers are the clipped inputs; every cell satisfies CrownSplit |
| Scenario.Landscape.AddClearing | HabitatStates.py:743-782 | rows get their attributes; each cell's regen, age, CC and land cover are mosaicked (last wins) from the REGEN, AGE, CC and GRIDCODE rasters, each of which takes its own _EXISTS 1 row at the cell, and treed crown closure is recomputed from rgn and the base closure, so every cell keeps the clip's crown-closure split; a cell none of the four rasters covers keeps all its layers when the split held there, as it does after ClipData |
| Scenario.Landscape.PickEdit | HabitatStatesVersionX.py:807-834 | on the footprint land cover becomes the code and regen, both crown closures and (when edited) percent conifer become 0; all cells with change 0 and all regen ages are unchanged |
| Scenario.Landscape.AddLnHerb | HabitatStates.py:795-861 | herb lines: the footprint gets land cover 3 and zero regen, crown closures and percent conifer; nothing else changes |
| Scenario.Landscape.AddRoads | HabitatStates.py:866-921 | new roads: the footprint gets land cover 7 and zero regen and crown closures; percent conifer is never touched |
| Scenario.Landscape.RclmRoads | HabitatStates.py:926-1084 | a Barren/Herb reclaim is the pick edit with its code over five layers; any other type gives each footprint cell its neighbourhood statistics, with NoData filled as 3 and 0 |
| Scenario.Landscape.FAge | HabitatStates.py:1091-1202 | returns the forecast ages; every cell is aged by the increment (regen reset as written, grown closure, over-50 and over-30 rules), with regen age kept |
| Secondary.SecInputs | HabitatStates.py:1224-1225 | forest is always derived; the class masks are derived exactly when the process is not 3 (risk only) |
| Secondary.ForestMask | HabitatStates.py:1217 | forest is 1 exactly for land-cover classes 1 and 2 |
| Secondary.RegenCellsMasked | HabitatStates.py:1228-1239 | in a regen cell the erased land cover and every class mask are 0 |
| Secondary.NovegMask | HabitatStates.py:1217 | the nonveg mask is 1 exactly on classes 6 to 10 |
| Secondary.UherbMask | HabitatStates.py:1218 | the upland herb mask is 1 exactly on class 3 |
| Secondary.WtreeMask | HabitatStatesVersionX.py:1219 | the wet treed mask is 1 exactly on class 2 |
| Secondary.UtreeMask | HabitatStates.py:1219 | the upland treed mask is 1 exactly on class 1 |
| Secondary.WherbMask | HabitatStatesVersionX.py:1220 | the wet herb mask is 1 exactly on class 4 |
| Secondary.ShrubMask | HabitatStates.py:1220 | the shrub mask is 1 exactly on class 5 |
| Secondary.MasksPartition | HabitatStates.py:1226-1313 | outside regen exactly one class mask is set, the one of the cell's class, and species composition is percent conifer on upland tree and 0 elsewhere |
| Habitat.SeasonClass | HabitatStates.py:1573-1577 | a masked RSF value in [0, 1] gets one of the classes 1 to 10 |
| Habitat.SeasonClassMonotone | HabitatStatesVersionX.py:1574-1578 | a higher RSF value never gets a lower class |
| Habitat.Max3 | HabitatStates.py:1589-1590 | rsf_max is at least each seasonal class and equal to one of them |
| Habitat.Deleted | HabitatStates.py:1625-1634 | the deletion priority grid and Pick give 0 on deletions and keep rsf_max elsewhere |
| Habitat.TierValues | HabitatStates.py:1651-1653 | classes 1-4 become 0, 5-7 become 1, 8-10 become 2, and a deleted cell keeps 0 |
| Habitat.TierMonotone | HabitatStatesVersionX.py:1652-1654 | the tier lies in 0 .. 2 and never decreases with the class |
| Habitat.CalRsf | HabitatStates.py:1333-1590 | fails exactly for an unknown unit; otherwise each season is the unit's 10-class map of its values, rsf_max is their maximum zeroed on deletions, and rsf_class is its tier |
| Habitat.SeasonRaster | HabitatStatesVersionX.py:1577-1578 | a season's class raster holds the 10-class value of every cell |
| Habitat.ClassifySeasons | HabitatStates.py:1333-1581 | the season loop fails exactly for an unknown unit and otherwise yields three rasters, each classified by the unit's model for its season |
| Habitat.CombineSeasons | HabitatStates.py:1597-1653 | rsf_max is the cellwise maximum except 0 on deleted cells, and rsf_class is its tier |
| Habitat.RsfMaxBounds | HabitatStatesVersionX.py:1590-1635 | rsf_max is 0 on a deletion; elsewhere it lies in 1 .. 10 and bounds every season; its tier lies in 0 .. 2 |
| Habitat.RiskClass | HabitatStates.py:1699-1703 | a rescaled risk value in [0, 1] gets one of the classes 0 to 10 |
| Habitat.RiskClassMonotone | HabitatStatesVersionX.py:1700-1704 | a higher risk never gets a lower class |
| Habitat.SinkSourceValues | HabitatStates.py:1716-1717 | risk classes 0-5 are sinks (1), 6-10 sources (-1) |
| Habitat.HabStateRange | HabitatStates.py:1737 | the habitat state lies in -2 .. 2; positive exactly for low risk on secondary or primary habitat, negative exactly for high risk on it, 0 exactly on non-critical habitat |
| Sections.Select | HabitatStatesVersionX.py:330-447 | keeps exactly the sections whose gates pass, in their order |
| Sections.Plan | HabitatStates.py:329-446 | main runs exactly the sections whose gates pass, in the order clearings, herb, roads, reclaim, ageing, secondary inputs, RSF, risk, state |
| Sections.AgeingGate | HabitatStatesVersionX.py:396-402 | ageing runs exactly when the forecast year is more than one year past the base year |
| Sections.HabitatStateNeedsInputs | HabitatStatesVersionX.py:429-447 | the habitat state runs exactly for process 1, which also runs RSF and risk |
| Sections.RsfOnlyPlan | HabitatStates.py:377-446 | process 2 runs RSF and never reclaims roads, computes risk or forms the state |
| Sections.ClipLayers | HabitatStatesVersionX.py:610-611 | process 2 clips only the four land layers 0 .. 3; otherwise all seven |
| Sections.ClipLayersForPlan | HabitatStatesVersionX.py:600-611 | the four land layers are always clipped; the three negative-decay layers exactly when process != 2, so whenever the risk section, which reads them, is planned |
| Denning.CommandLineRequest | DenningRSF.py:209 | a command-line string requests replacement only when it is "true" |
| Denning.RoadFlags | DenningRSF.py:207-212 | userRD is "Y" exactly when replacement is requested and new roads are given, and then the input roads are the new ones; otherwise "N" with the base roads |
| Denning.RoadLayerSources | DenningRSF.py:207-249 | with the flags main sets, the clipped road layer (line 418, appended at 454-457) is the new roads alone when they replace the base roads, base then new roads when added, the base roads alone when only decommissioned roads are given, and absent otherwise |
| Denning.SwapValues | DenningRSF.py:476 | the 0/1 swap maps a footprint value f to 1 - f |
| Denning.MaskUpdateEffect | DenningRSF.py:476-484 | the update zeroes the footprint and keeps every other cell, the mask stays 0/1, no cell goes from 0 to 1, and a second update changes nothing |
| Denning.Candidates.constructor | DenningRSF.py:403-412 | the mask starts as the clipped denning mask |
| Denning.Candidates.AddRoads | DenningRSF.py:474-484 | the mask becomes the update of the old mask by the road footprint |
| Denning.Candidates.RemoveHabitat | DenningRSF.py:582-592 | the mask becomes the update of the old mask by the removal footprint |
| Denning.RescaleProperties | DenningRSF.py:638-641 | the rescale sends the minimum to 0 and the maximum to 1, is strictly increasing, and maps [min, max] into [0, 1] |
| Denning.DenBreaksValid | DenningRSF.py:615-617 | the six denning breakpoints are strictly increasing inside (0, 1) |
| Denning.DenClassMonotone | DenningRSF.py:648-650 | a rescaled value in [0, 1] gets a class in 0 .. 6, and a higher value never a lower class |
| Denning.DenRsfMasked | DenningRSF.py:658-659 | den_rsf is 0 where the mask is 0 and the class, in 0 .. 6, where it is 1 |
| ChangeDetection.Split | ChangeDetection.py:116 | split gives at least one piece and no piece contains the separator |
| ChangeDetection.JoinSplit | ChangeDetection.py:116 | joining the pieces of a split with the separator gives back the string |
| ChangeDetection.SplitJoin | ChangeDetection.py:116 | splitting a join of separator-free pieces gives back the pieces |
| ChangeDetection.SelectedLabels | ChangeDetection.py:120-155 | a (name, plot name) pair is selected exactly when some item carries its label; unknown items give nothing |
| ChangeDetection.SelectedAppend | ChangeDetection.py:120-155 | the selection of concatenated items is the concatenation of the selections, so input order is kept |
| ChangeDetection.SelectLayers | ChangeDetection.py:116-155 | the name list and the plot-name list are equally long and aligned with the labels of the split selection, in order |
| ChangeDetection.MaskSide | ChangeDetection.py:265-275 | the mask has no more cells than either raster, and a tie picks the reference |
| ChangeDetection.ChooseMasks | ChangeDetection.py:201-275 | one mask per raster pair, in order, each with the smaller cell count |
| ChangeDetection.ChangeSign | ChangeDetection.py:345-351 | the change is NoData exactly where the values agree; otherwise ref - scn for Risk and scn - ref for the other layers |
| ChangeDetection.Area | ChangeDetection.py:362 | a row's area in km2 is nonnegative and within 0.005 of count * cell^2 * 1e-6 |
| ChangeDetection.RowAreas | ChangeDetection.py:360-363 | one area per value/count row, in cursor order |
| ChangeDetection.ChangedAreas | ChangeDetection.py:356-367 | the row areas, or [0] when the change raster has no rows; their sum is nonnegative |
| ChangeDetection.ChangedAreaError | ChangeDetection.py:360-363 | the summed rounded areas differ from the exact area by at most 0.005 km2 per row |
| ChangeDetection.BinValues | ChangeDetection.py:407-409 | five habitat-state classes, eleven risk classes, ten RSF classes |
| ChangeDetection.BinValuesIncreasing | ChangeDetection.py:407-409 | each class list is strictly increasing, so a value has at most one bin |
| ChangeDetection.IndexOf | ChangeDetection.py:418 | the index found holds the value, and there is none exactly when the value is not in the list (ValueError) |
| ChangeDetection.BinAreas | ChangeDetection.py:398-498 | fails exactly when there are no rows or a value has no bin; otherwise each bin holds the summed area of its values, RSF class 0 counting in bin 1 |
| ChangeDetection.AddRow | ChangeDetection.py:417-420 | one cursor row: raises exactly when its value has no bin, and otherwise adds its area to its bin, keeping the bins equal to the reference areas |
| ChangeDetection.BinsTotal | ChangeDetection.py:551 | the bins add up to the summed row areas, so the total area loses nothing |
| ChangeDetection.PctChangeOfAreas | ChangeDetection.py:526-538 | for nonnegative areas the change is defined, has the sign of scn - ref, is at least -100, and is 0 for equal areas |
| ChangeDetection.PctChangeExamples | ChangeDetection.py:529-537 | 2 to 4 is +100, 9 to 5.4 is -40, 0 to 3 is 100 |
| ChangeDetection.PercentChanges | ChangeDetection.py:526-538 | one entry per bin pair, in bin order, each the percent change of the pair; fails on a division by zero |
| ChangeDetection.ReportTotals | ChangeDetection.py:551-560 | total area is the scenario sum; zero change reports 0 and 0; otherwise fails exactly for a zero total; the changed and total areas are round(·, 1) of the sums, the percentage is round(changed / total · 100, 1) and lies within 0.05 of the exact share, and in [0, 100] when the change is at most the total |
| ChangeDetection.TotalPctBounds | ChangeDetection.py:558 | the rounded share of a changed area in [0, total] lies in [0, 100] |

## Left out

- Engine geoprocessing is taken as given inputs: Clip, Buffer, Union, PolygonToRaster (including which polygon each field's raster takes at a cell), Mosaic, Contour, EucDistance, CostDistance, LineDensity, FocalStatistics, ZonalStatisticsAsTable, ExtractByMask, GetCount, GetRasterProperties, Exists and ListRasters.
- The RSF and risk linear predictors, the logistic transform exp(x)/(1 + exp(x)) and the range and mask scaling that precedes classification (HabitatStates.py:1541-1565, 1672-1693) are floating-point maths; the model takes the masked RSF and the rescaled risk as inputs in [0, 1].
- The exponential denning predictor (DenningRSF.py:620-622) is left out for the same reason; Denning.RescaleProperties takes the raw value as input.
- The distance-to-edge and decay surfaces (distFEdge, prepLines and the exp(-0.01 d) layers) and the ned layers are engine products not modelled; Scenario.Landscape holds only the layers the edits overwrite.
- calRisk's table of mean risk and calRSF's table of mean rsf_max are zonal statistics and are left out.
- dcmRoads in DenningRSF.py (decommissioned roads) is not part of this model.
- Reading arguments, licensing, logging, folder handling, layer files, map export and plotting are I/O and are left out.
- Binary floating point is not modelled: values are `real`, and Python 2 `round` rounds exact decimals half away from zero.
- Clearings.Attributes: CC is a real; the truncation of CC into the short-integer field is left out.
- Scenario.Landscape.PickEdit: requires a change raster holding only 0 and the edit code, as a rasterised footprint does; another value would be its own priority and is covered only by Scenario.PickOrderPassesThrough.
- Scenario.Landscape.RclmRoads: the focal mean statistics are taken as numbers; a NoData mean is not modelled.
- Habitat.CalRsf: requires the masked seasonal values in [0, 1], the range of the logistic transform scaled by a range value and a mask.
- Classify.RemapRange: the model fixes real ranges as [lo, hi), with the last range holding 1; the engine's own boundary convention may give a value exactly at a breakpoint to the lower range instead, and no file of the repository states it.
- Classify.RemapRange: a real value outside [0, 1], which the "DATA" option would pass through unchanged, gives `None`; every classifying caller (Habitat.SeasonClass, Habitat.RiskClass, Denning.DenClass) is stated for values in [0, 1].
- Denning.DenRsf: a rescaled value outside [0, 1] under mask 1, which the source passes through the reclass and multiplies by the mask, gives `None`; Denning.DenRsfMasked covers raw values in [rMIN, rMAX], which rescale into [0, 1].
- ChangeDetection.BinAreas: RSF class 0 is folded into bin 1 whatever the cursor order and whether or not a class-1 row exists; the source keeps a class-0 area only when the class-1 row follows it, and may add an area left over from an earlier layer. A bin receives the sum of its rows where the source assigns; the value/count rows of a raster attribute table have distinct values, so the two agree.
- ChangeDetection.ChooseMasks: the cell-size and coordinate-system checks that stop the tool before this point are engine describe calls and are left out.
- ChangeDetection.PercentChanges: a zero reference area with a negative scenario area divides by zero in the source; the model reports a failure there.
- The pairing of the listed rasters with the plot names and the raster mean values in the report (ChangeDetection.py:541-544) are engine queries and are left out.
