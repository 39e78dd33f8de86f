# Patch sampling of ImageLibrary.py, in Dafny

A model of the patch-sampling core of `ImageLibrary.py`. Brain scans come in five co-registered
240×240×155 volumes: flair, t1, t1ce, t2 and the ground-truth segmentation. The core cuts 33×33
windows out of these volumes and stacks the four modalities into one training sample. It labels
each sample from the segmentation. The model covers:

- `BrainImage.getPatch` and `getValueAt` (`volume.dfy`, module `Volumes`). A volume is
  `seq<seq<seq<int>>>` indexed `data[x][y][z]`. `np.argwhere` is modelled as `Argwhere`: the
  coordinates holding a value, each once, in row-major order.
- `PatientData` and `getGroundTruth` (`patient.dfy`, module `Patient`). A `Stack` is the
  `np.stack((flair, t1, t1ce, t2))` of the four patches at one centre.
- `validatePatch` (`validate.dfy`, module `Validation`). A method counts the zeros entry by entry
  and is proved against `Informative`, which says the zero count is at most 653. `nditer` visits
  the entries in memory order (column after column for a nibabel volume); the count does not
  depend on the order.
- `getNPatches` (`sampler.dfy`, module `Sampler`; layout lemmas in `sampler_layout.dfy`, module
  `SamplerLayout`).
  - The random draws are an explicit `Draws` input. `Plan` states which centres and labels a
    call returns, or which exception it raises.
  - `GetNPatches` follows the source loop by loop: the background `while` loop, the filler, then
    the three foreground loops. It is proved to return exactly `Render(Plan(...))`.
  - The layout lemmas give, position by position, what a successful call contains.
- `getPredictDataLine` (`line_sampler.dfy`, module `LineSampler`).
- `oldGetNPatches` (`old_sampler.dfy`, module `OldSampler`). Its spec is `OldPlan`, the drawn
  centres that pass the filter, in draw order.

Behaviour of the source worth knowing:

- The quota is `int(num/4)`, which truncates toward zero. For `num` ≤ -4 it is negative and
  `randint` raises (`NegativeQuota`). For -3 ≤ `num` ≤ 3 it is 0: no background draw happens, and
  the filler then reads the unbound `z` (`NoBackgroundSlice`).
- There is no explicit "insufficient samples" check. The model assumes numpy before 1.17, where
  `randint(0, size=n)` raises even for n = 0, so an empty class 1, 2 or 4 list is `EmptyClass`.
  Class 0 is drawn from only inside the background loop, so an empty class 0 matters only when
  the quota is positive.
- `getPatch` does not check its centre. In `getNPatches` every centre comes from `argwhere` and is
  never negative, so a foreground centre within 16 voxels of the x/y edge gives a short or empty
  slice. The exception comes later, from `reshape(1, 4, 33, 33)`. This is `PatchOutOfBounds`.
- `getPredictDataLine(numSlice, numLine)` varies the second coordinate (y = 16 … 223) along the
  fixed row x = `numLine`, not the first one. Its arguments are read as numpy reads indices: a
  row in [-224, -18] has both slice bounds counting from the end, so the line of row
  `numLine + 240` is returned; a plane index in [-155, 0) stands for plane `numSlice + 155`, and
  one outside [-155, 155) raises `IndexError` (`PlaneOutOfRange`).

## Model

| member | source | states |
|---|---|---|
| Volumes.GetPatch | ImageLibrary.py:35-36 | for a centre whose window fits, the patch is 33×33 and entry (i, j) is `data[x-16+i][y-16+j][z]` |
| Volumes.PatchCentreIsValue | ImageLibrary.py:35-47 | the centre entry (16, 16) of `getPatch(x, y, z)` is `getValueAt(x, y, z)` |
| Volumes.ValueAtPartitions | ImageLibrary.py:46-47 | `getValueAt` reads the voxel `argwhere` tests: a voxel is listed for value k exactly when `getValueAt` there is k, so each voxel is in exactly one list |
| Volumes.Argwhere | ImageLibrary.py:107-110 | every listed coordinate is a voxel holding the searched value |
| Volumes.ArgwhereMembership | ImageLibrary.py:107-110 | a coordinate is listed exactly when the voxel there holds the value (both directions) |
| Volumes.ArgwhereRowMajor | ImageLibrary.py:107-110 | the listed coordinates are strictly increasing in (x, y, z) order, so none repeats and an index drawn into a class list names one voxel |
| Patient.GroundTruthClass | ImageLibrary.py:62-63 | `getGroundTruth` at a voxel is the one class whose coordinate list contains the voxel |
| Patient.StackCentre | ImageLibrary.py:78 | `np.stack` puts flair, t1, t1ce, t2 in that order: the centre entry of each channel is that modality's voxel at the centre |
| Patient.ClassMembership | ImageLibrary.py:62-63 | a coordinate is in class k's list exactly when it is a voxel whose `getGroundTruth` is k |
| Validation.ValidatePatch | ImageLibrary.py:220-229 | the counting loop returns true exactly when the patch has at most 653 zeros |
| Validation.ZeroCountFlatten | ImageLibrary.py:222-225 | the count does not depend on the order `nditer` visits the entries: counting row by row equals counting along the flattened patch and equals the multiplicity of 0 |
| Validation.NonZeroValuesIrrelevant | ImageLibrary.py:220-229 | two patches with zeros in the same places get the same zero count and the same verdict |
| Validation.AllBackgroundRejected | ImageLibrary.py:220-229 | an all-zero 33×33 patch has 1089 zeros and is rejected |
| Validation.NoBackgroundAccepted | ImageLibrary.py:220-229 | a patch without zeros has zero count 0 and is accepted |
| Sampler.Quota | ImageLibrary.py:114 | `int(num/4)` truncates toward zero: `4q <= num < 4q+4` for num ≥ 0, `4q-4 < num <= 4q <= 0` otherwise |
| Sampler.MarginIsWindow | ImageLibrary.py:126-127 | on a plane of the volume, the edge check `16 <= x,y < 224` holds exactly when the 33×33 window fits |
| Sampler.BackgroundHits | ImageLibrary.py:121-136 | the accepted background centres number at most the draws and are all class-0 coordinates |
| Sampler.BackgroundHitsAccepted | ImageLibrary.py:126-133 | every accepted centre is a voxel that passes the edge check, has a full window and has a flair patch passing `validatePatch` |
| Sampler.BackgroundHitsPrefix | ImageLibrary.py:121-136 | more draws only extend the accepted centres: rejected draws add nothing and order is kept |
| Sampler.BackgroundHitsStep | ImageLibrary.py:121-136 | one more draw appends its centre exactly when the edge check and the density filter accept it |
| Sampler.BackgroundSnoc | ImageLibrary.py:135-136 | appending an accepted centre appends one entry labelled 0 |
| Sampler.StratumSnoc | ImageLibrary.py:146-157 | one more drawn index appends the centre `cls[i]` with the stratum's label |
| Sampler.ForegroundMargins | ImageLibrary.py:146-183 | all foreground windows fit exactly when they fit in each of the three strata |
| Sampler.ForegroundInWindow | ImageLibrary.py:146-183 | when every foreground centre passes the margin, every foreground window is full |
| Sampler.AssembledInWindow | ImageLibrary.py:138-183 | background block + filler + foreground has `q + 1 + |foreground|` entries, all with full windows |
| Sampler.Plan | ImageLibrary.py:105-194 | a successful call has exactly `4*int(num/4)+1` entries, every one with a full window |
| Sampler.PlanSucceeds | ImageLibrary.py:105-194 | a feasible call returns the first q accepted background centres, the filler, then the foreground |
| Sampler.PlanFailures | ImageLibrary.py:114-188 | the exceptions in the order they are met: empty class 1, negative quota, empty class 2, empty class 4, unbound `z` at quota 0, empty class 0, draws exhausted, a foreground window leaving the volume |
| Sampler.RenderedSnoc | ImageLibrary.py:185-192 | appending a centre appends its stack and its label |
| Sampler.RenderedAt | ImageLibrary.py:185-192 | in a rendered batch, entry i is the stack at centre i with label i |
| Sampler.RenderedIsRender | ImageLibrary.py:185-192 | the entry-by-entry rendering equals `Render`: stacks and labels of the centres, in order |
| Sampler.AppendStratum | ImageLibrary.py:146-157 | one foreground loop succeeds exactly when every drawn centre passes the margin, and then appends that stratum's stacks and labels |
| Sampler.SampleForeground | ImageLibrary.py:146-183 | the three foreground loops succeed exactly when every foreground centre passes the margin, and then append the foreground's stacks and labels |
| Sampler.SampleBackground | ImageLibrary.py:119-136 | fails on an empty class 0 or exhausted draws; otherwise returns the first q accepted centres' stacks with label 0, and `z` is the plane of the last of them |
| Sampler.GetNPatches | ImageLibrary.py:105-194 | the result is exactly `Plan` rendered, or the same exception; on success `4*int(num/4)+1` patches and as many labels |
| SamplerLayout.PlanOkIff | ImageLibrary.py:105-194 | a call returns exactly when all four classes are present, the quota is positive, the draws give enough background and every foreground window fits |
| SamplerLayout.AssembleEntries | ImageLibrary.py:119-183 | positions 0..q-1 hold the background centres with label 0, position q the filler (18, 18, z of the last one), then the foreground |
| SamplerLayout.ForegroundEntries | ImageLibrary.py:146-183 | the j-th draws of classes 1, 2 and 4 sit at j, q+j and 2q+j of the foreground with labels 1, 2 and 3 |
| SamplerLayout.PlanBackgroundEntry | ImageLibrary.py:121-136 | entry i < q is the i-th accepted draw, labelled 0: a class-0 voxel with ground truth 0, inside the margin, with a flair patch passing `validatePatch` |
| SamplerLayout.PlanFillerEntry | ImageLibrary.py:138-144 | entry q is centred at (18, 18, z of entry q-1) and labelled 0 |
| SamplerLayout.PlanForegroundEntry | ImageLibrary.py:146-183 | entries q+1+j, 2q+1+j and 3q+1+j are the j-th draws of classes 1, 2 and 4, labelled 1, 2 and 3, with raw ground truth 1, 2 and 4 |
| SamplerLayout.PlanTargets | ImageLibrary.py:136-183 | every label of a successful call lies in {0, 1, 2, 3} |
| LineSampler.RowSlice | ImageLibrary.py:35-36 | numpy's x slice `numLine-16 : numLine+17` has 33 rows exactly for 16 ≤ numLine < 224 or -224 ≤ numLine ≤ -18, and is then the window of row numLine (numLine + 240 when negative) |
| LineSampler.GetPredictDataLine | ImageLibrary.py:197-217 | a plane outside [-155, 155) raises; a row outside 16 ≤ numLine < 224 and -224 ≤ numLine ≤ -18 makes the reshape fail; otherwise 208 stacks, stack k taken at (numLine, 16+k, numSlice) with negative indices wrapped |
| LineSampler.LineCentres | ImageLibrary.py:200-206 | the centre of the k-th flair patch is the flair voxel at (numLine, 16+k, numSlice) |
| OldSampler.OldPlan | ImageLibrary.py:66-102 | at most as many kept entries as draws, all with full windows |
| OldSampler.OldPlanSound | ImageLibrary.py:84-89 | every kept entry is a drawn centre whose flair patch passes `validatePatch`, labelled with the raw ground truth there |
| OldSampler.OldPlanComplete | ImageLibrary.py:84-89 | every drawn centre whose flair patch passes is kept, with its raw ground-truth label |
| OldSampler.OldPlanPrefix | ImageLibrary.py:84-89 | the kept entries of the first k draws come first: relative order is preserved |
| OldSampler.OldPlanAllKept | ImageLibrary.py:84-89 | when every draw passes, all n are returned in draw order |
| OldSampler.OldPlanStep | ImageLibrary.py:84-89 | one more candidate appends its stack exactly when its flair patch passes |
| OldSampler.StackDraws | ImageLibrary.py:72-79 | the first loop yields one stack per draw, in draw order: entry j is the stack at the j-th drawn centre, whose window fits |
| OldSampler.OldGetNPatches | ImageLibrary.py:66-102 | the batch is the rendering of `OldPlan`: stacks of the kept draws with raw labels, at most n, with equal lengths |

## Left out

- Loading the volumes (`nib.load` in `BrainImage.__init__`, the path building in `PatientData.__init__`). Volumes are inputs of the fixed 240×240×155 shape (`Loaded`). Voxels are modelled as integers.
- `printInfo`, `getPNGFromSlice`, `getPNGFromPatch`, `getPNGFromAnyPatch`, `getHighlightedPNG` and the `__main__` script: these are output only and feed nothing back into sampling.
- The `time.time()` measurements in `getPredictDataLine`: they do not affect the result.
- `np.random`: the draws are supplied (`Draws`, `numlist`), and only the ranges `randint` guarantees are required of them. Nothing statistical (uniformity, class balance) is claimed.
- The background `while` loop of `getNPatches` can run forever. The model gives it a finite stream of draws and fails with `DrawsExhausted` when the stream runs out.
- The `reshape`/`vstack` loops: the result arrays are modelled as the sequences of stacks and labels. numpy dtypes are not modelled (in `oldGetNPatches` the result arrays are float).
- Sampler.GetNPatches: a foreground centre outside the margin stops the method at that centre with `PatchOutOfBounds`. The source raises the same failure later, at the `reshape`, so neither returns a result.
- Sampler.Quota: `num/4` is exact rational division. The float rounding of very large `num` is not modelled.
- Volumes.GetPatch: requires the window to fit. The short or empty arrays numpy returns for other centres are not modelled as values; each sampler fails with `PatchOutOfBounds` where such an array reaches the reshape, and `getPredictDataLine` reads negative rows and planes as numpy does.
