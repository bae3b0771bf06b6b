# FeatureEngines orchestration, modelled in Dafny

FeatureEngines wraps OpenCV in two header-only classes. `KpEngine` extracts
keypoints and computes descriptors for one image, trying OpenCV's combined
`detectAndCompute` first and falling back to a separate `detect` and
`compute` when the combined call throws. `MatchEngine` matches two
descriptor sets with a brute-force matcher. It either runs a two-nearest-
neighbour search filtered by Lowe's ratio test (nearest distance divided by
second distance below 0.75) or a plain single-neighbour match.

The model covers the orchestration logic only. Every OpenCV call is a
function-valued field of a library record (`Matching.MatcherLib`,
`Keypoints.OpenCv`, `Keypoints.Feature2D`). The model then proves facts that
hold for every behaviour those calls could have. A call that throws a
`cv::Exception` returns `Err`. An engine method that lets one escape returns
`Raised`.

Files:

- `cv_types.dfy` (`CvTypes`) holds `Result`, `Outcome`, `KeyPoint` and
  `DMatch`.
- `ratio_test.dfy` (`RatioTest`) holds the ratio test. It models the C++
  float division, including infinities and NaN, and a division-free form of
  the same test that the filter uses. It also holds the filter over the
  neighbour rows, its reference index list, and the source's loop as a
  method.
- `match_engine.dfy` (`Matching`) models `MatchEngine.h` on the CPU path
  with `GPU_MATCHER 0` and `FLANN 0`.
- `kp_engine.dfy` (`Keypoints`) models `KpEngine.h`. The CPU path is the one
  the header ships with. The GPU path is modelled only as far as needed to
  show where an exception escapes. The sync methods are modelled under every
  switch setting.

Modelling assumptions:

- A failing OpenCV call leaves its output arguments as they were.
- Distances are reals, so `float` rounding is ignored. A zero divisor is
  read as +0.
- The library functions are deterministic. Calling `cvtColor` twice on one
  image gives the same outcome both times.
- The first neighbour of a row is its nearest one, which is how OpenCV
  orders `knnMatch` rows. Nothing in the model depends on this ordering. The
  filter is stated over row positions 0 and 1.

Three behaviours of the code worth knowing, each of which the model keeps:

- On the ratio branch, `match` never clears `v_DMatch`, so a second call
  appends the same matches again (`Matching.RatioBranchAccumulates`).
- A neighbour row with fewer than two entries is not skipped. The loop reads
  `[0]` and `[1]` unguarded, so the model makes at least two entries a
  precondition (`RatioTest.KnnRows`, `Matching.MatchDefined`).
- A mismatch in descriptor width is not checked by the engine. Any
  exception OpenCV throws for it escapes `match` as `Raised`.

## Model

| member | source | states |
|---|---|---|
| `Matching.NewMatchEngine` | MatchEngine.h:47-57 | the engine remembers the cross-check flag, builds a brute-force matcher with the same norm and flag, and holds no match yet |
| `Matching.Match` | MatchEngine.h:73-85 | the ratio branch runs exactly when `knn && !crossCheck`. It raises exactly when `knnMatch` throws. On success it keeps the previous matches as a prefix, appends exactly the filter of the rows, and adds at most one match per row. Otherwise the plain match's output (or its exception) is the result. The configuration never changes, and a raise leaves the engine unchanged |
| `Matching.RunMatch` | MatchEngine.h:73-85 | the imperative version of `match`, with the source's push-back loop, computes the same outcome as the functional model |
| `Matching.DefaultEngineUsesRatioTest` | MatchEngine.h:47-58 | with the default L2 norm, cross-check off and `knn` true, `match` takes the ratio branch and yields the filtered nearest neighbours |
| `Matching.CrossCheckIgnoresKnn` | MatchEngine.h:73-85 | with cross-check on, the `knn` argument makes no difference to the outcome |
| `Matching.RatioBranchAppendsAcceptedNeighbours` | MatchEngine.h:73-81 | on the ratio branch the old matches survive as a prefix. After them come exactly the nearest neighbours of the accepted rows, in row order |
| `Matching.RatioBranchAccumulates` | MatchEngine.h:73-85 | two identical ratio-branch calls append the filtered neighbours twice. If any row is accepted, the second call does not reproduce the first call's outcome |
| `Matching.LoweRatioExamples` | MatchEngine.h:77-80 | a row with distances 0.14 and 7.07 is kept. A row with distances 1.0 and 1.2 (ratio about 0.83) is dropped |
| `RatioTest.FloatDiv` | MatchEngine.h:79 | float division gives a finite quotient exactly when the divisor is non-zero, and NaN exactly for 0/0. A positive value over zero is +inf and a negative one -inf |
| `RatioTest.BelowLoweRatioIsFloatComparison` | MatchEngine.h:79-80 | the division-free acceptance test used by the filter agrees with dividing and comparing (`d0 / d1 < 0.75`, with infinities and NaN) for every pair of distances. For non-negative distances it is `d0 < 0.75 * d1`, which rejects whenever `d1` is zero |
| `RatioTest.RatioFilter` | MatchEngine.h:78-81 | the filter emits at most one match per row. Every emitted match is the nearest neighbour of a row that passes the test |
| `RatioTest.AcceptedRows` | MatchEngine.h:78-80 | lists the indices of the rows that pass the test, strictly ascending, with every passing row included |
| `RatioTest.Firsts` | MatchEngine.h:81 | the reference list of pushed matches: one entry per listed index, each the nearest neighbour of the row at that index |
| `RatioTest.RatioFilterIsFirstsOfAccepted` | MatchEngine.h:78-81 | the filter output equals the nearest neighbours taken at exactly the accepted row indices, in ascending order |
| `RatioTest.RatioFilterSelectsAcceptedRows` | MatchEngine.h:78-81 | the filter output is exactly the nearest neighbours of the accepted rows, taken in ascending row order (a subsequence, never a second neighbour) |
| `RatioTest.RatioFilterKeepsExactlyAccepted` | MatchEngine.h:79-80 | a row's index is selected iff the row passes the test, and a passing row's nearest neighbour appears in the output |
| `RatioTest.RatioFilterDistributes` | MatchEngine.h:78-81 | the filter of concatenated rows is the concatenation of the filters, since the loop handles each row on its own |
| `RatioTest.BoundaryRowsRejected` | MatchEngine.h:79-80 | a row whose ratio is exactly 0.75 is rejected because the comparison is strict. A row whose second distance is zero is also rejected (NaN or +inf) |
| `RatioTest.RatioTestLoop` | MatchEngine.h:77-81 | the loop appends exactly the filter of the rows to the existing vector, which it never clears |
| `Keypoints.NewKpEngine` | KpEngine.h:79-86 | a fresh engine holds no keypoints and empty matrices |
| `Keypoints.ExtractKpCpu` | KpEngine.h:113-120 | a single `detect` call runs on the image and no exception escapes. On success `v_kp` is the detected keypoints. On failure the engine is unchanged and "cannot extract" is reported. Only `v_kp` is ever written |
| `Keypoints.DescribeKpCpu` | KpEngine.h:136-143 | a single `compute` call runs on the image and the engine's current keypoints, and no exception escapes. On success `v_kp` and `d_kp` take its outputs. On failure the engine is unchanged and "cannot describe" is reported |
| `Keypoints.ExtrAndDescrKpCpu` | KpEngine.h:164-173 | no exception escapes and only `v_kp` and `d_kp` are written. If the combined call succeeds, its outputs are the state and no other call runs. If it throws, the outcome is `extractKp` followed by `describeKp` on the same image, with exactly those calls in that order |
| `Keypoints.ExtractKpGpu` | KpEngine.h:99-112 | the method raises iff the grey conversion throws, because that call is outside the `try`. A raise happens before anything is written. Host buffers are untouched |
| `Keypoints.DescribeKpGpu` | KpEngine.h:125-135 | the asynchronous compute on the device image and keypoints is the only call, and no exception escapes. On success `v_kp_gpu` and `d_kp_gpu` take its outputs. On failure the engine is unchanged and "can not describe" is reported. Only the two device buffers are ever written |
| `Keypoints.ExtrAndDescrKpGpu` | KpEngine.h:148-163 | the GPU combined method raises exactly when the grey conversion of the image throws. This holds whether the channel assertion, the conversion or the combined call sent it into the fallback |
| `Keypoints.FallbackGpu` | KpEngine.h:160-163 | the GPU catch block raises exactly when the grey conversion throws |
| `Keypoints.ExtractKp` | KpEngine.h:97-121 | with `KP_GPU` off, `extractKp` never raises and makes one `detect` call. With it on, it raises iff the grey conversion throws |
| `Keypoints.DescribeKp` | KpEngine.h:123-144 | `describeKp` never raises under any switch setting. On the CPU it describes the engine's current keypoints |
| `Keypoints.ExtrAndDescrKp` | KpEngine.h:146-174 | with `KP_GPU` off no `cv::Exception` escapes. With it on, one escapes iff the grey conversion throws |
| `Keypoints.GetKpFromGpu` | KpEngine.h:175-182 | only `v_kp` can change. Its new value comes from the SURF download when `SURF_GPU_EXTRACTOR` is set, or from `convert` when only `KP_GPU` is set. Otherwise the engine is unchanged |
| `Keypoints.GetDescFromGpu` | KpEngine.h:183-187 | only `d_kp` can change: it is downloaded when `KP_GPU` is on, and otherwise the engine is unchanged |
| `Keypoints.SourceConfigProperties` | KpEngine.h:146-187 | with the switches as shipped, the combined method never raises. Its fallback is the configured `extractKp` then `describeKp`. Both sync methods are no-ops |
| `Keypoints.CpuCallsStayOnImage` | KpEngine.h:166-172 | on the CPU the combined method only adds calls, all on the caller's image. The combined call comes first. A `detect` and then a `compute` follow exactly when the combined call threw |
| `Keypoints.CpuDoubleFailureDescribesOldKeypoints` | KpEngine.h:166-172 | if both the combined call and `detect` fail, `compute` still runs on the keypoints the engine already held. The extraction failure is reported before anything else |
| `Keypoints.DescribeBeforeExtract` | KpEngine.h:136-143 | describing on a fresh engine passes an empty keypoint list to `compute` and does not raise |
| `Keypoints.GpuDescribeThenSync` | KpEngine.h:175-187 | with `KP_GPU` on, a GPU describe followed by `getKpFromGpu` and `getDescFromGpu` puts `computeAsync`'s keypoints and descriptors on the host, or on failure what the device buffers held before |
| `Keypoints.GpuChannelFailureEscapes` | KpEngine.h:99-163 | on the GPU, a non-3-channel image whose grey conversion throws fails the assertion in the `try`. The conversion then throws again, uncaught, in the fallback. That conversion is the only call made and `describeKp` never runs |

## Left out

- OpenCV internals: `detect`, `compute`, `detectAndCompute`, their CUDA
  forms, `knnMatch`, `BFMatcher::match` and its cross-check computation.
  They are foreign calls, so they are parameters of the model.
- The GPU matcher: `matchAsync`, `matchConvert`, GpuMat uploads and the
  `match<cuda::GpuMat>` specialisation (MatchEngine.h:67-71, 88-94). These
  are device I/O and asynchronous execution.
- The FLANN constructor branch (MatchEngine.h:51-52). It leaves
  `m_crossCheck` uninitialised, so nothing can be stated about `match`
  under it.
- `float` rounding of the ratio and of distances. The model uses reals, and
  -0.0 is not distinguished from +0.0.
- The text written to `cerr`. Only which of the two messages is written is
  modelled.
- The difference between the SURF functor call shape and the `Ptr` call
  shape on the GPU. Each is one library call in the model, and the
  `SURF_GPU_DESCRIPTOR & SURF_GPU_EXTRACTOR` selection at KpEngine.h:154
  is not modelled.
- Exceptions other than `cv::Exception`, such as `std::bad_alloc`. These are
  not caught by the source and not modelled. Failures of `upload` and
  `download` are not modelled either.
- Equality of the combined and the separate paths' results, and descriptor
  rows matching the keypoint count. Both depend on OpenCV's algorithms,
  which are not part of this model.
- Keypoints.ExtractKpGpu: states the raise condition and the untouched
  host buffers, but not what the device buffers hold afterwards.
- Keypoints.ExtrAndDescrKpGpu: states when the method raises, not which
  device buffers it writes.
