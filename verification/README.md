# Sound-signature classification of frequency-response curves

This project models the core of `DatasetMaker.py`, a script that sorts in-ear
monitor measurements into four sound-signature classes. One measurement is a
curve given as two parallel columns: frequency in Hz and sound pressure level
(SPL) in dB. The script labels each curve in four stages:

1. **Normalisation** (`Normalizer`): the mean SPL is subtracted from every sample.
2. **Band aggregation** (`Bands`): the normalised level is averaged over each of
   seven fixed half-open bands `[low, high)`: sub-bass 20–60, mid-bass 60–250,
   low mids 250–500, mids 500–2000, upper mids 2000–4000, presence 4000–6000
   and brilliance 6000–12000 Hz. A band with no sample is `None`.
3. **Region combination** (`Regions`): Bass merges sub-bass and mid-bass.
   Mid merges the three mid bands. Treble merges presence and brilliance.
   Only the bands that have data are averaged.
4. **Classification** (`Classifier`): `bassDiff = Bass - Mid` and
   `trebleDiff = Treble - Mid` are compared with the 3.0 dB `Threshold` in a
   first-match cascade. The result is V-shape, Bright, Warm or Neutral.
   Neutral is also the result when any region is missing.

`Pipeline` chains the four stages. `ClassifyCurve` is the per-file body of
the script's loop, without the file handling. Levels are exact `real`s. The
"no data" marker is `Wrappers.Option`. The band table is the `BandName`
enumeration, with `Bands.BandOf` giving each band's bounds and
`Bands.BandOrder` giving the order in which the table is walked.

The only precondition of the modelled operations (`BandMean`,
`ComputeBandMeans`, `CurveLabel`, `ClassifyCurve`) is `|freqs| == |spl|`.
It holds because both sequences are columns of one table. Subtracting the
mean of an empty array leaves it empty, so every band is `None` and the label
is Neutral (`Pipeline.FlatCurveIsNeutral` covers this). The code does not
reject an empty curve, and the model follows the code.

`Classifier.ClassifyExamples` runs the cascade on five sample region triples
at the 3.0 dB threshold. Regions (5, 0, 5) give V-shape, (0, 0, 6) Bright,
(4, 0, 1) Warm and (1, 0, 1) Neutral. A triple with Treble missing gives
Neutral.

## Model

| member | source | states |
|---|---|---|
| `Normalizer.Normalize` | DatasetMaker.py:48 | the normalised curve has the same length as `spl`; when `spl` is non-empty each element is `spl[i]` minus the mean of `spl`; an empty curve stays empty |
| `Normalizer.NormalizeSumsToZero` | DatasetMaker.py:48 | the normalised levels of a non-empty curve sum to zero, so their mean is zero |
| `Normalizer.NormalizeShiftInvariant` | DatasetMaker.py:48 | raising or lowering every level by the same constant yields the same normalised curve |
| `Normalizer.NormalizeFlat` | DatasetMaker.py:48 | a curve whose levels are all equal normalises to all zeros |
| `Bands.BandTableContiguous` | DatasetMaker.py:23-31 | the table has 7 bands; each is non-empty and starts where the previous one ends; they span 20 Hz to 12000 Hz |
| `Bands.AtMostOneBand` | DatasetMaker.py:53 | in any contiguous band table the half-open mask puts a frequency in at most one band |
| `Bands.SomeBand` | DatasetMaker.py:53 | in any contiguous band table a frequency between the lowest and the highest edge lies in some band |
| `Bands.ExactlyOneBand` | DatasetMaker.py:23-31 | a frequency in [20, 12000) lies in exactly one of the seven bands; any other frequency lies in none |
| `Bands.SharedEdgeInHigherBand` | DatasetMaker.py:53 | a frequency on an edge shared by two neighbouring bands (60, 250, 500, 2000, 4000 or 6000 Hz) is counted in the higher band only |
| `Bands.BandLevelsMember` | DatasetMaker.py:53-55 | a level is among the selected ones exactly when some sample with `low <= f < high` carries it |
| `Bands.BandLevelsCountAndSum` | DatasetMaker.py:53-55 | the selected levels number exactly the in-band samples, repeats included, and sum to the sum of the in-band levels |
| `Bands.BandMean` | DatasetMaker.py:54-57 | the band mean is `None` exactly when no sample frequency lies in the band; otherwise it times the number of in-band samples equals the sum of their levels (the mean with repeats counted), and some in-band sample lies at or below it and some at or above it |
| `Bands.ComputeBandMeans` | DatasetMaker.py:50-57 | the loop over the table fills an entry for all seven bands, and each entry is that band's `BandMean` |
| `Regions.CombinePair` | DatasetMaker.py:61-65 | the rule for Bass (and for Treble, lines 73-76): `None` exactly when both bands are `None`; the one defined band when only one is; otherwise the value times the number of defined bands equals the sum of the defined bands |
| `Regions.CombinePairIsMeanOfDefined` | DatasetMaker.py:61-65 | the two-band rule equals the mean of the defined operands, the rule Mid uses |
| `Regions.CombineMid` | DatasetMaker.py:68-70 | Mid is `None` exactly when all three mid bands are `None`; otherwise it is the arithmetic mean of the defined bands only |
| `Classifier.ClassName` | DatasetMaker.py:15 | every label is filed under one of the four class folder names |
| `Classifier.ClassNamesMatchClasses` | DatasetMaker.py:15 | distinct labels get distinct folders, and every class folder belongs to some label |
| `Classifier.SignaturePartition` | DatasetMaker.py:85-92 | the four labels own the four quadrants cut by the threshold lines: V-shape when both differences reach the threshold, Bright when only the treble difference does, Warm when only the bass difference does, Neutral when neither does |
| `Classifier.ClassifyRegions` | DatasetMaker.py:79-92 | with a region missing the label is Neutral; otherwise each label holds exactly when its quadrant condition on `bassDiff` and `trebleDiff` holds |
| `Pipeline.ClassifyCurve` | DatasetMaker.py:45-92 | returns the normalised curve (zero-sum when non-empty) and the label that the band, region and cascade definitions give for the curve |
| `Pipeline.ShiftKeepsLabel` | DatasetMaker.py:48-92 | adding a constant to every level leaves the label unchanged |
| `Pipeline.FlatCurveIsNeutral` | DatasetMaker.py:48-92 | a curve with all levels equal, the empty curve included, is Neutral |
| `Pipeline.NoTrebleDataIsNeutral` | DatasetMaker.py:73-80 | with no sample in [4000, 12000) Hz, Treble is `None` and the label is Neutral |
| `Pipeline.TrebleFallsBackToPresence` | DatasetMaker.py:73-76 | with no sample at or above 6000 Hz, Treble is the presence band mean alone |

## Left out

- Creating the output folders (DatasetMaker.py:18-20): file-system side effects only.
- Listing the input directory and the `.csv` suffix filter (DatasetMaker.py:37-39): I/O.
- Reading the CSV file and skipping files with fewer than two columns (DatasetMaker.py:42-46): a library call. The model takes the two columns as sequences of equal length.
- Plotting and saving the PNG image (DatasetMaker.py:95-114): rendering through a library that is not part of this model.
- Copying the CSV file into its class folder and building output paths (DatasetMaker.py:111-118): I/O.
- Floating-point rounding, NaN and the runtime warning that the mean of an empty array raises: levels and frequencies are exact reals.
