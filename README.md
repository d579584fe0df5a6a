# PingPong tracker — verified model of the tracking core

The tracker follows a ping-pong ball through a folder of video frames
(`motion_tracker.py`). It works in one of two modes.

- **Particle filter.** A population of states `(x, y, vx, vy)` starts around
  the midpoint of a user-selected region of interest (ROI). Once per frame,
  the population is propagated with a constant-velocity model plus scaled
  noise. Each particle is then measured: the intensity histogram of the frame
  under a ROI-sized box around it. The measurements are turned into weights,
  the population is resampled with the "smallest index whose cumulative
  weight is at least u" rule, and the MMSE estimate (the population mean) and
  its box are recomputed.
- **Circle detection.** The circles found by a Hough detector are given as
  input. One of them is chosen, and its position and radius are recorded for
  the frame. The displacement since the previous frame is converted into a
  velocity in cm/s using the known 4 cm ball diameter.

Around both modes, the frame list is sorted by the number in each file name.
Every frame gets a time step, taken from timestamps or from a fixed frame
period. A processed frame is stored as `image<number>.png`, with the number zero-padded to at least four digits.

The Dafny modules follow that structure:

| module | file | contents |
|---|---|---|
| `PySemantics` | py_semantics.dfy | Python's `int()` truncation toward zero and slice-bound rules |
| `ImageCrop` | image_crop.dfy | grayscale frames, the 2-D crop `g[r0:r1, c0:c1]`, `ravel` |
| `Histogram` | histogram.dfy | `np.histogram(..., bins=n, range=(0, 256))` over integer intensities |
| `Particles` | particles.dfy | the particle state, `A(dt)`, the diagonal noise scales, the ROI, boxes, the mean |
| `Weights` | weights.dfy | normalisation, uniform weights, `cumsum`, the ancestor rule, resampling as a function |
| `ParticleFilter` | particle_filter.dfy | class `MotionTracker`: arrays of particles, boxes and histograms updated in place |
| `Hough` | hough.dfy | candidate selection (as written and corrected), velocity, class `HoughTracker` |
| `FrameList` | frames.dfy | `extract_number`, the sort by it, the time-step list, the pairing of frames and steps |
| `StoreName` | store_name.dfy | the output name built from `re.search('([0-9]*).png', ...)` and zero padding |

Inputs the program gets from outside are parameters of the model:
- the grayscale frame, as `seq<seq<Pixel>>`;
- the selected rectangle `(r0, r1, r2, r3)`;
- the standard-normal draws, one `Vec4` per particle;
- the uniform draws of resampling;
- the likelihood, a function from a non-empty histogram to a density;
- the detected circles;
- the timestamps and the optional frame period.

Floating-point values are modelled as `real`, so "the weights sum to 1" holds
exactly in the model. The one floating-point value the model keeps is NaN in
the weights: an all-zero histogram is normalised as 0/0, and the weights are
then `Betas.AllNaN`, under which every resampling draw falls back to
particle 0.

Some members are definitions whose meaning the listed lemmas state:
- `Particles.Transition` (`A(dt)`, motion_tracker.py:205-207) is described by
  `TransitionAdd`, `TransitionTimes` and `PropagationComposes`.
- `Particles.Diag` (`P0_init`, `V_process_noise`, motion_tracker.py:143-151) is
  described by `DiagAdd` and `DiagTimes`.
- `ImageCrop.Ravel` (motion_tracker.py:265) is described by `RavelShape`,
  `RavelLength` and `RavelMembers`.
- `FrameList.DigitsValue` (`int(group)`, motion_tracker.py:368) is described by
  `StoreName.PaddedValue` and `StoreName.StoredNameKeepsNumber`.
- `Weights.Ancestor` is described by the contract of `AncestorIndex` and by
  `NaNResampleCollapses`.

## Model

| member | source | states |
|---|---|---|
| PySemantics.Trunc | motion_tracker.py:159-161 | `int()` of a float truncates toward zero: the result is within 1 of the argument, on the side of zero |
| PySemantics.TruncProperties | motion_tracker.py:159-161 | truncation fixes integers and commutes with negation |
| PySemantics.AdjustIndex | motion_tracker.py:261-264 | a slice bound is clamped into `[0, len]`, and a negative bound counts from the end |
| PySemantics.SliceLen | motion_tracker.py:261-264 | a slice has at most `len` elements, and it is empty exactly when the adjusted stop is not past the adjusted start |
| PySemantics.Slice | motion_tracker.py:261-264 | the slice has `SliceLen` elements, and element `k` is the element at the adjusted start plus `k` |
| PySemantics.SliceCases | motion_tracker.py:261-264 | in-range bounds give the ordinary subsequence; `-k` takes the last `k` elements; `start >= stop >= 0` gives the empty slice |
| PySemantics.NegativeStartEmpty | motion_tracker.py:261-264 | a negative start that counts back to or past a non-negative stop gives an empty slice, although start < stop |
| ImageCrop.Crop | motion_tracker.py:261-264 | the crop has `SliceLen` rows of `SliceLen` pixels each, and pixel `(i, j)` is the frame pixel at the adjusted row start plus `i` and the adjusted column start plus `j` |
| ImageCrop.RavelShape | motion_tracker.py:265 | `ravel` of a rows × w crop has rows·w pixels, and it holds exactly the pixels of the rows |
| ImageCrop.RavelLength | motion_tracker.py:265 | `ravel` of rows that are all w pixels long has rows·w pixels |
| ImageCrop.RavelMembers | motion_tracker.py:265 | a pixel is in the ravel exactly when it is in one of the rows |
| ImageCrop.CropPixelCount | motion_tracker.py:261-265 | the number of cropped pixels is the product of the two slice lengths; an empty row range or column range gives no pixels |
| ImageCrop.CropInside | motion_tracker.py:261-264 | a box inside the frame gives `(r1-r0)·(c1-c0)` pixels, each equal to the frame's pixel at the offset |
| Histogram.BinOf | motion_tracker.py:265-267 | intensity v falls in the bin b < n with `b·256 <= v·n < (b+1)·256`, the equal-width bin of `[0, 256)` that holds it |
| Histogram.Hist | motion_tracker.py:265-267 | the histogram has `n_bins` entries |
| Histogram.HistCountsBinMembers | motion_tracker.py:265-267 | entry b of the histogram counts exactly the pixels whose bin is b |
| Histogram.HistTotal | motion_tracker.py:265-267 | the counts add up to the number of pixels; no pixels give the all-zero histogram |
| Particles.RoiFromSelection | motion_tracker.py:159-166 | height and width are differences of truncated edges; the midpoint lies halfway between the truncated edges |
| Particles.BoxAround | motion_tracker.py:253-260 | a particle's box has the ROI's height along x and width along y, and it is centred on the particle |
| Particles.InitialPopulationComponents | motion_tracker.py:187-196 | particle i is `(mx + σpos·z0, my + σpos·z1, σvel·z2, σvel·z3)` for its draws z |
| Particles.PropagatedPopulationComponents | motion_tracker.py:204-210 | particle i moves to `(x + dt·vx + σpos·z0, y + dt·vy + σpos·z1, vx + σvel·z2, vy + σvel·z3)`, with nothing clamped |
| Particles.PropagatedPopulation | motion_tracker.py:204-210 | propagation keeps the number of particles |
| Particles.InitialPopulation | motion_tracker.py:187-196 | the initial state matrix has one particle per column of draws |
| Particles.Mean | motion_tracker.py:290 | n times the mean is the componentwise sum of the n particles |
| Particles.PropagationComposes | motion_tracker.py:204-207 | without noise, propagating by dt1 and then dt2 equals propagating by dt1 + dt2, and positions move along unchanged velocities |
| Particles.SumOfCopies | motion_tracker.py:290 | the sum of n copies of a particle is n times the particle |
| Particles.MeanOfCopies | motion_tracker.py:290 | the mean of copies of one particle is that particle |
| Particles.TransitionAdd | motion_tracker.py:204-207 | `A(dt)` applied to a sum is the sum of `A(dt)` applied to each term |
| Particles.TransitionTimes | motion_tracker.py:204-207 | `A(dt)` commutes with scaling |
| Particles.DiagAdd | motion_tracker.py:143-151 | the diagonal noise scale applied to a sum is the sum of the scaled terms |
| Particles.DiagTimes | motion_tracker.py:143-151 | the diagonal noise scale commutes with scaling |
| Particles.SumPropagated | motion_tracker.py:204-210 | the sum of the propagated population is the propagation of the sum with the summed draws |
| Particles.MeanPropagated | motion_tracker.py:204-210 | the mean after propagation is the propagated mean, with the mean draw as noise |
| Particles.SumInitial | motion_tracker.py:187-196 | the sum of the initial population is n copies of the midpoint plus the scaled sum of the draws |
| Particles.MeanInitial | motion_tracker.py:187-196 | the initial mean is the initial particle of the mean draw; with mean-zero draws it is the ROI midpoint at rest |
| Weights.Uniform | motion_tracker.py:200-201 | the initial weights are n non-negative entries |
| Weights.UniformSumsToOne | motion_tracker.py:200-201 | the initial weights `1/n` sum to 1 |
| Weights.Normalized | motion_tracker.py:224 | each weight times the total density gives back its density |
| Weights.NormalizedIsDistribution | motion_tracker.py:224 | non-negative densities with a positive total give weights in `[0, 1]` that sum to 1 |
| Weights.CumSum | motion_tracker.py:241 | entry i of `cumsum` is the sum of the first i+1 weights |
| Weights.FirstAtLeast | motion_tracker.py:245-246 | the first index whose cumulative weight is at least u, with every earlier one below u; none exactly when all are below u |
| Weights.AncestorIndex | motion_tracker.py:245-246 | the selected index is that first index, and 0 when no cumulative weight reaches u |
| Weights.Resampled | motion_tracker.py:239-248 | one slot per draw, and every slot holds a member of the prior population, whether the weights are numbers or NaN |
| Weights.NaNResampleCollapses | motion_tracker.py:245-248 | with NaN weights no comparison `u <= cumsum` holds, so every slot takes particle 0 |
| Weights.AncestorInBucket | motion_tracker.py:241-246 | a draw in `(0, total]` selects an ancestor whose bucket `(Sum(w[..a]), Sum(w[..a+1])]` contains it |
| Weights.BucketSelects | motion_tracker.py:241-246 | a draw inside ancestor j's bucket selects j |
| Weights.AncestorBucket | motion_tracker.py:241-246 | for a draw in `(0, total]`, ancestor j is selected if and only if the draw is in j's bucket, whose length is `w[j]`; a draw past the total selects 0 |
| Weights.PastTotalSelectsFirst | motion_tracker.py:245-246 | a draw larger than the total weight matches no cumulative weight, so `nonzero(...)[0][0]` falls back to index 0 |
| Weights.ConcentratedResample | motion_tracker.py:239-248 | with all weight on particle k and draws in `(0, 1]`, every slot becomes particle k |
| ParticleFilter.BoxHistogram | motion_tracker.py:261-267 | the histogram under a box has `n_bins` entries that add up to the product of the truncated slice lengths |
| ParticleFilter.CutBoxNonEmpty | motion_tracker.py:159-163 | a box whose truncated corners cut at least one row and one column gives a histogram with a positive total, so the target histogram of a non-empty selection is not all zero |
| ParticleFilter.MidpointParticleSeesTarget | motion_tracker.py:159-166 | a particle on the ROI midpoint has the selection's truncated corners as its box, so it measures the target histogram |
| ParticleFilter.Densities | motion_tracker.py:222-223 | one density per particle histogram |
| ParticleFilter.PositiveDensitiesGiveDistribution | motion_tracker.py:218-224 | when every particle histogram is non-empty, the densities are positive, their total is positive, and the normalised weights are non-negative and sum to 1 |
| ParticleFilter.ParticleBetas | motion_tracker.py:218-236 | the betas are NaN exactly when the target or some particle histogram is all zero (0/0 in the Hellinger normalisation); otherwise they are one non-negative weight per particle, summing to 1 |
| ParticleFilter.ParticleBetasShares | motion_tracker.py:222-224 | where the betas are numbers, each is its particle's density as a share of the total density |
| ParticleFilter.StraddlingBoxSeesNothing | motion_tracker.py:261-267 | a box whose negative top (or left) edge wraps to or past its other edge cuts no pixels, so its histogram is all zero |
| ParticleFilter.CollapsedEstimate | motion_tracker.py:239-248 | with NaN weights the resampled population is copies of particle 0, and so is its mean |
| ParticleFilter.EdgeParticleCollapses | motion_tracker.py:218-248 | one particle whose box straddles the top edge makes every weight NaN, and the population's mean after resampling is particle 0 |
| ParticleFilter.EdgeBoxExample | motion_tracker.py:253-264 | a particle at y = 21.8 with a 50-pixel-wide ROI cuts rows `[-3:46]` |
| ParticleFilter.GuardedDensities | motion_tracker.py:218-224 | corrected: each density is non-negative, and positive exactly when both the target and the particle histogram are non-empty |
| ParticleFilter.GuardedBetas | motion_tracker.py:218-224 | corrected: the weights always form a distribution, and they are exactly the uniform weights when the target or every particle histogram is empty |
| ParticleFilter.UnmeasurableDensitiesVanish | motion_tracker.py:218-229 | corrected: when the target or every particle histogram is empty, the guarded densities total 0 |
| ParticleFilter.GuardedBetasAgree | motion_tracker.py:218-224 | wherever the code's weights are numbers, the corrected weights equal them |
| ParticleFilter.GuardedBetasSkipEmptyCrops | motion_tracker.py:218-248 | with the corrected weights, once one particle is measurable, an empty-crop particle has weight 0 and no draw in (0, 1] selects it |
| ParticleFilter.ConcentratedEstimate | motion_tracker.py:239-248 | with all weight on particle k, the estimate after resampling is particle k |
| ParticleFilter.MotionTracker.constructor | motion_tracker.py:43-47 | from a selection that cuts at least one pixel, sets both noise scales, the ROI, the non-empty target histogram of the selection, the initial population from the draws, uniform weights summing to 1, zero boxes, zero histograms, and the mean estimate with its box |
| ParticleFilter.MotionTracker.PropagateParticles | motion_tracker.py:204-210 | the new state array is the propagated population of the old one |
| ParticleFilter.MotionTracker.UpdateParticlesHistograms | motion_tracker.py:250-267 | box i is centred on particle i, and histogram i is the histogram of the frame under box i |
| ParticleFilter.MotionTracker.ComputeParticleBetas | motion_tracker.py:218-236 | the betas are NaN exactly when the target or some particle histogram is all zero; otherwise the normalised densities, non-negative and summing to 1 |
| ParticleFilter.MotionTracker.ResampleParticles | motion_tracker.py:239-248 | the new population is the resampling of a snapshot of the old one, so earlier overwrites never affect later picks |
| ParticleFilter.MotionTracker.ComputeMmseEstimate | motion_tracker.py:289-298 | the estimate is the particle mean, and its box is the ROI-sized box centred on it |
| ParticleFilter.MotionTracker.UpdateParticles | motion_tracker.py:212-216 | measure, weigh, resample and estimate, in that order, each step as specified above; with NaN weights the estimate is the old particle 0 |
| ParticleFilter.MotionTracker.TrackFrame | motion_tracker.py:428-429 | one frame: boxes and histograms of the propagated particles, the betas (NaN, or summing to 1), resampling of the propagated population, and the mean estimate, which is propagated particle 0 when the betas are NaN |
| Hough.CmPerPixel | motion_tracker.py:84-86 | the scale times the ball's pixel diameter `2r` is the 4 cm diameter |
| Hough.Velocity | motion_tracker.py:87-90 | velocity times dt is the pixel displacement times the scale, in each coordinate |
| Hough.VelocityRoundTrip | motion_tracker.py:87-90 | moving for dt at the velocity, converted back to pixels, leads from the previous position to the new one |
| Hough.SelectCandidate | motion_tracker.py:71-82 | as written, the last candidate's centre and radius are chosen |
| Hough.ClosestCandidate | motion_tracker.py:79 | the first index whose radius is closest to the target radius |
| Hough.SelectClosestCandidate | motion_tracker.py:71-82 | with `min_distance` kept up to date, the loop picks the first closest candidate |
| Hough.FirstClosestIsUnique | motion_tracker.py:79 | an index that is closest and strictly closer than every earlier one is the one `ClosestCandidate` returns |
| Hough.LastCandidateNotClosest | motion_tracker.py:71-82 | for target radius 26 and candidates of radius 26 then 31, the closest is the first, yet the loop as written keeps the second |
| Hough.HoughTracker.constructor | motion_tracker.py:27-30 | zero buffers of `frames_to_process` entries, and a frame counter of -1 |
| Hough.HoughTracker.TrackBallHough | motion_tracker.py:60-93 | the counter always advances, and with no candidates nothing else changes; otherwise the frame's radius is the last candidate's; from the second frame on, a non-positive radius raises before the position is stored, and otherwise the velocity is the converted displacement and the position is stored |
| FrameList.RunEnd | motion_tracker.py:365 | the greedy digit run starting at p ends at the first non-digit |
| FrameList.MatchAtIsRegexMatch | motion_tracker.py:365 | `([0-9]+)\.png` matches at p exactly when the whole digit run there is followed by ".png", and that run is its only group there |
| FrameList.Search | motion_tracker.py:365 | the leftmost match position, with no match before it; none exactly when no position matches |
| FrameList.ExtractNumber | motion_tracker.py:364-369 | -1 exactly when there is no match; otherwise the value of the digits of the leftmost match |
| FrameList.ExtractNumberOfFrameName | motion_tracker.py:364-369 | `prefix + digits + ".png"` gives the digits' value when the prefix neither ends in a digit nor contains ".png" |
| FrameList.ExtractNumberAt | motion_tracker.py:364-369 | a match at m with no match before it makes `extract_number` the value of the digit run at m |
| FrameList.InsertBy | motion_tracker.py:348 | inserting into a key-sorted list keeps it sorted, and the result has the old items plus the new one |
| FrameList.SortBy | motion_tracker.py:348 | the result is sorted by key and is a permutation of the input |
| FrameList.SortFrames | motion_tracker.py:348 | the frame list holds the same names, in ascending order of `extract_number` |
| FrameList.FrameDts | motion_tracker.py:361-362 | step 0 is 0, and step i is timestamp i minus timestamp i-1; no timestamps give `[0.0]` |
| FrameList.DtsRecoverTimestamps | motion_tracker.py:361-362 | the first timestamp plus the steps of frames 0..i is timestamp i |
| FrameList.DtList | motion_tracker.py:349-352 | a set, non-zero frame period gives one constant step per frame; `None` or 0 gives the timestamp steps |
| FrameList.ImageDtList | motion_tracker.py:353 | `zip`: pairs as far as the shorter list goes, frame i with step i |
| FrameList.FramePairing | motion_tracker.py:349-353 | with a period every frame gets it; with one timestamp per frame every frame is paired and the first gets step 0; fewer timestamps drop the last frames |
| StoreName.GroupEnd | motion_tracker.py:416 | backtracking finds the largest end, not past the greedy end, at which `.png` follows |
| StoreName.SearchFrom | motion_tracker.py:416 | the first start from which backtracking succeeds, with none before it |
| StoreName.GroupEndIsLongest | motion_tracker.py:416 | at a fixed start, backtracking yields the longest group with which `([0-9]*).png` matches, and none exactly when nothing matches there |
| StoreName.Search | motion_tracker.py:416 | `re.search` finds nothing exactly when the expression matches nowhere; otherwise it finds the leftmost start with its longest group |
| StoreName.SearchIsLeftmost | motion_tracker.py:416 | the search over starts is the leftmost-longest match of the expression |
| StoreName.Padded | motion_tracker.py:419 | `'0' * (4 - d) + group` has length `max(4, d)`, ends with the group, and is zeros before it |
| StoreName.PaddedValue | motion_tracker.py:418-419 | the padded group is still all digits, at least four long, and has the group's value |
| StoreName.StoreName | motion_tracker.py:416-422 | no name (the run stops) exactly when the frame name does not match; otherwise folder, "image", the padded group of the leftmost-longest match, and ".png" |
| StoreName.StoredNameKeepsNumber | motion_tracker.py:416-419 | `extract_number` reads the value of the captured digits back from the stored name |
| StoreName.StoreNameOfFrameName | motion_tracker.py:416-419 | `folder + digits + ".png"`, with a folder that neither contains "png" nor ends in a digit, is stored under its own digits |
| StoreName.StoreNameAt | motion_tracker.py:416-419 | when the first start with a match is m and its group ends at e, the name is built from the digits between m and e |

## Findings

| source | as written | input that shows it | evidently intended | confidence | as-written member | corrected member |
|---|---|---|---|---|---|---|
| motion_tracker.py:71-82 | `min_distance` starts at -1 and is never assigned, so `min_distance < 0` holds for every candidate and the last candidate always wins | target radius 26; candidates of radius 26 and then 31; the loop keeps radius 31 | keep the candidate whose radius is closest to the target, by updating `min_distance` when a candidate is taken | high, not executed | Hough.SelectCandidate, Hough.LastCandidateNotClosest | Hough.SelectClosestCandidate, Hough.ClosestCandidate |
| motion_tracker.py:226-229 | each histogram is divided by its own total with no guard; an all-zero particle histogram (a box straddling the top or left edge, whose negative start wraps around) gives 0/0, so every beta is NaN, no `u <= cumsum` holds, and every slot is resampled from particle 0 | a particle at (125, 21.8) with a ROI of 50 × 50 on a 480-row frame cuts rows `[-3:46]`, which is empty | give an empty crop a zero likelihood, and fall back to uniform weights when no particle can be measured | high, not executed | ParticleFilter.ParticleBetas, ParticleFilter.EdgeParticleCollapses | ParticleFilter.GuardedBetas, ParticleFilter.GuardedBetasSkipEmptyCrops |

`Hough.HoughTracker.TrackBallHough` calls the as-written selection, and
`ParticleFilter.MotionTracker` the as-written weights, since that is what the
tracker does. The corrected versions are proved separately.

Two behaviours a reader might expect are absent from the code, and the model
follows the code:
- With no candidate circle, the code writes nothing for the frame. Its
  position stays at zero rather than holding the previous position.
- Undefined weights are not replaced by uniform weights; they are NaN.

## Left out

- Image loading, `cv2.selectROI`, the colour-to-gray conversion, and all drawing, plotting and saving of figures: these are foreign library calls and UI. The frame and the selected rectangle are parameters.
- `cv2.HoughCircles` and `cv2.medianBlur`, and the per-circle mask histograms of `compute_circle_hist`: these are foreign image algorithms. The candidates are a parameter.
- `compute_hellinger_distance` and `norm.pdf`: square roots and a transcendental density. They are a parameter `density`, required to be positive on every non-empty histogram, as a Gaussian density at a finite distance is. Empty histograms never reach it: the model gives NaN weights there.
- `np.random.normal` and `np.random.uniform`: the draws are parameters.
- JSON timestamp reading, `glob`, `os.mkdir`, `argparse`, timing and printing: I/O. The timestamps and the file names are parameters.
- The `considered_list` slicing of `main` and the order in which `main` drives the tracker: only one frame step (`TrackFrame`) is modelled.
- `X_p`, `n_steps` and `measurement_noise_sigma` are only storage or inputs of the foreign density. They are not modelled.
- Floating-point rounding, infinities and NaN other than NaN weights: all other arithmetic is on `real`.
- ParticleFilter.MotionTracker.constructor: `current_state` is a view of `X_p[0]` in the source; the model gives it its own array, so that aliasing is not captured.
- ParticleFilter.MotionTracker.constructor: requires a selection that cuts at least one row and one column. The colour conversion of an empty crop raises inside `get_ROI`, so the source never builds a tracker from one; the raise itself is not modelled.
- ParticleFilter.MotionTracker.constructor: requires at least one particle. The mean of an empty population is NaN in numpy, and NaN is not modelled.
- Hough.HoughTracker.TrackBallHough: requires `dt != 0` where the velocity is computed (a candidate, not the first frame, a positive radius), and a frame index inside the buffers when there is a candidate. The source would produce inf/NaN or raise IndexError there, and neither is modelled.
- FrameList.SortFrames: the stability of Python's `sorted` for equal keys is not stated.
- StoreName.StoreName: a match object is always truthy, so even an empty group is accepted; the model does the same and does not single that case out.
