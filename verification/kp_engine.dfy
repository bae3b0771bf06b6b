/** `KpEngine`: one feature extractor and one descriptor, the keypoints and
    descriptors they produce for the last image, and the combined
    detect-and-compute call that falls back to separate extraction and
    description when it throws.

    Images and descriptor matrices (`cv::Mat`) are the type `M`, device
    buffers (`cuda::GpuMat`) the type `G`. The compile-time switches
    `KP_GPU`, `SURF_GPU_EXTRACTOR` and `SURF_GPU_DESCRIPTOR` become a
    `KpConfig`; the header ships with all three off.
 */
module Keypoints {
  import opened CvTypes

  /** The three compile-time switches of the header. */
  datatype KpConfig = KpConfig(kpGpu: bool, surfGpuExtractor: bool, surfGpuDescriptor: bool)

  /** The switches as the header sets them: CPU only. */
  const SourceConfig: KpConfig := KpConfig(false, false, false)

  /** The engine's buffers: host keypoints and descriptors, and the device
      image, keypoints and descriptors used when `KP_GPU` is on. */
  datatype KpEngine<M, G> = KpEngine(vKp: seq<KeyPoint>, dKp: M, imGpu: G, vKpGpu: G, dKpGpu: G)

  /** The calls one OpenCV `Feature2D` object (or its CUDA counterpart)
      offers. `compute` may drop keypoints, so it returns them with the
      descriptors. */
  datatype Feature2D<!M, !G> = Feature2D(
    detect: M -> Result<seq<KeyPoint>>,
    compute: (M, seq<KeyPoint>) -> Result<(seq<KeyPoint>, M)>,
    detectAndCompute: M -> Result<(seq<KeyPoint>, M)>,
    detectAsync: G -> Result<G>,
    computeAsync: (G, G) -> Result<(G, G)>,
    detectAndComputeAsync: G -> Result<(G, G)>,
    convert: G -> seq<KeyPoint>,
    downloadKeypoints: G -> seq<KeyPoint>)

  /** The engine's extractor and descriptor objects and the free OpenCV
      functions it uses. */
  datatype OpenCv<!M, !G> = OpenCv(
    extractor: Feature2D<M, G>,
    descriptor: Feature2D<M, G>,
    channels: M -> int,
    cvtColor: M -> Result<M>,
    upload: M -> G,
    download: G -> M)

  /** The OpenCV calls that may throw, with the arguments they were given. */
  datatype CvCall<M, G> =
    | Detect(image: M)
    | Compute(image: M, keypoints: seq<KeyPoint>)
    | DetectAndCompute(image: M)
    | CvtColor(image: M)
    | DetectAsync(gpuImage: G)
    | ComputeAsync(gpuImage: G, gpuKeypoints: G)
    | DetectAndComputeAsync(gpuImage: G)

  /** The two messages written to `cerr` when a call is swallowed. */
  datatype Diagnostic = CannotExtract | CannotDescribe

  /** An engine together with the calls made so far and the messages written. */
  datatype Run<M, G> = Run(engine: KpEngine<M, G>, calls: seq<CvCall<M, G>>, log: seq<Diagnostic>)

  /** `KpEngine()`: empty keypoint list and empty matrices. */
  function NewKpEngine<M, G>(emptyMat: M, emptyGpuMat: G): (e: KpEngine<M, G>)
    ensures e.vKp == [] && e.dKp == emptyMat
    ensures e.imGpu == emptyGpuMat && e.vKpGpu == emptyGpuMat && e.dKpGpu == emptyGpuMat
  {
    KpEngine([], emptyMat, emptyGpuMat, emptyGpuMat, emptyGpuMat)
  }

  // ---------------------------------------------------------------- CPU path

  /** `extractKp` with `KP_GPU` off: `detect` on the image into `v_kp`; a
      `cv::Exception` is reported and swallowed. Only `v_kp` is written. */
  function ExtractKpCpu<M, G>(lib: OpenCv<M, G>, run: Run<M, G>, im: M): (o: Outcome<Run<M, G>>)
    ensures o.Returned?
    ensures o.state.calls == run.calls + [Detect(im)]
    ensures o.state.engine == run.engine.(vKp := o.state.engine.vKp)
    ensures match lib.extractor.detect(im)
            case Ok(kps) => o.state.engine.vKp == kps && o.state.log == run.log
            case Err(_) => o.state.engine == run.engine && o.state.log == run.log + [CannotExtract]
  {
    var r := run.(calls := run.calls + [Detect(im)]);
    match lib.extractor.detect(im)
    case Ok(kps) => Returned(r.(engine := r.engine.(vKp := kps)))
    case Err(_) => Returned(r.(log := r.log + [CannotExtract]))
  }

  /** `describeKp` with `KP_GPU` off: `compute` on the image and the engine's
      current keypoints, into `v_kp` and `d_kp`; a `cv::Exception` is reported
      and swallowed. No device buffer is written. */
  function DescribeKpCpu<M, G>(lib: OpenCv<M, G>, run: Run<M, G>, im: M): (o: Outcome<Run<M, G>>)
    ensures o.Returned?
    ensures o.state.calls == run.calls + [Compute(im, run.engine.vKp)]
    ensures o.state.engine == run.engine.(vKp := o.state.engine.vKp, dKp := o.state.engine.dKp)
    ensures match lib.descriptor.compute(im, run.engine.vKp)
            case Ok(out) => o.state.engine.vKp == out.0 && o.state.engine.dKp == out.1
                            && o.state.log == run.log
            case Err(_) => o.state.engine == run.engine && o.state.log == run.log + [CannotDescribe]
  {
    var r := run.(calls := run.calls + [Compute(im, run.engine.vKp)]);
    match lib.descriptor.compute(im, run.engine.vKp)
    case Ok(out) => Returned(r.(engine := r.engine.(vKp := out.0, dKp := out.1)))
    case Err(_) => Returned(r.(log := r.log + [CannotDescribe]))
  }

  /** `extrAndDescrKp` with `KP_GPU` off. When the combined call succeeds its
      outputs become `v_kp` and `d_kp` and no other call is made; when it
      throws, `extractKp` and then `describeKp` run on the same image and
      the exception goes no further. */
  function ExtrAndDescrKpCpu<M, G>(lib: OpenCv<M, G>, run: Run<M, G>, im: M): (o: Outcome<Run<M, G>>)
    ensures o.Returned?
    ensures o.state.engine == run.engine.(vKp := o.state.engine.vKp, dKp := o.state.engine.dKp)
    ensures lib.extractor.detectAndCompute(im).Ok? ==>
              && o.state.engine.vKp == lib.extractor.detectAndCompute(im).value.0
              && o.state.engine.dKp == lib.extractor.detectAndCompute(im).value.1
              && o.state.calls == run.calls + [DetectAndCompute(im)]
              && o.state.log == run.log
    ensures lib.extractor.detectAndCompute(im).Err? ==>
              var extracted := ExtractKpCpu(lib, run.(calls := run.calls + [DetectAndCompute(im)]), im);
              && o == DescribeKpCpu(lib, extracted.state, im)
              && o.state.calls == run.calls + [DetectAndCompute(im), Detect(im),
                                               Compute(im, extracted.state.engine.vKp)]
  {
    var r := run.(calls := run.calls + [DetectAndCompute(im)]);
    match lib.extractor.detectAndCompute(im)
    case Ok(out) => Returned(r.(engine := r.engine.(vKp := out.0, dKp := out.1)))
    case Err(_) =>
      var extracted := ExtractKpCpu(lib, r, im);
      if extracted.Raised? then extracted else DescribeKpCpu(lib, extracted.state, im)
  }

  // ---------------------------------------------------------------- GPU path

  /** `extractKp` with `KP_GPU` on: the grey conversion runs outside the
      `try`, so its exception escapes; the asynchronous detection inside it
      is reported and swallowed. */
  function ExtractKpGpu<M, G>(lib: OpenCv<M, G>, run: Run<M, G>, im: M): (o: Outcome<Run<M, G>>)
    ensures o.Raised? <==> lib.cvtColor(im).Err?
    ensures o.Raised? ==> o.state.calls == run.calls + [CvtColor(im)] && o.state.engine == run.engine
    ensures o.state.engine.vKp == run.engine.vKp && o.state.engine.dKp == run.engine.dKp
  {
    var r := run.(calls := run.calls + [CvtColor(im)]);
    match lib.cvtColor(im)
    case Err(x) => Raised(r, x)
    case Ok(gray) =>
      var g := lib.upload(gray);
      var r1 := r.(engine := r.engine.(imGpu := g), calls := r.calls + [DetectAsync(g)]);
      match lib.extractor.detectAsync(g)
      case Ok(kpg) => Returned(r1.(engine := r1.engine.(vKpGpu := kpg)))
      case Err(_) => Returned(r1.(log := r1.log + [CannotExtract]))
  }

  /** `describeKp` with `KP_GPU` on: the asynchronous computation on the
      uploaded image and device keypoints, into `v_kp_gpu` and `d_kp_gpu`,
      is inside the `try`; a `cv::Exception` is reported and swallowed. No
      host buffer is written. */
  function DescribeKpGpu<M, G>(lib: OpenCv<M, G>, run: Run<M, G>, im: M): (o: Outcome<Run<M, G>>)
    ensures o.Returned?
    ensures o.state.calls == run.calls + [ComputeAsync(run.engine.imGpu, run.engine.vKpGpu)]
    ensures o.state.engine.vKp == run.engine.vKp && o.state.engine.dKp == run.engine.dKp
    ensures o.state.engine == run.engine.(vKpGpu := o.state.engine.vKpGpu, dKpGpu := o.state.engine.dKpGpu)
    ensures match lib.descriptor.computeAsync(run.engine.imGpu, run.engine.vKpGpu)
            case Ok(out) => o.state.engine.vKpGpu == out.0 && o.state.engine.dKpGpu == out.1
                            && o.state.log == run.log
            case Err(_) => o.state.engine == run.engine && o.state.log == run.log + [CannotDescribe]
  {
    var e := run.engine;
    var r := run.(calls := run.calls + [ComputeAsync(e.imGpu, e.vKpGpu)]);
    match lib.descriptor.computeAsync(e.imGpu, e.vKpGpu)
    case Ok(out) => Returned(r.(engine := r.engine.(vKpGpu := out.0, dKpGpu := out.1)))
    case Err(_) => Returned(r.(log := r.log + [CannotDescribe]))
  }

  /** `extrAndDescrKp` with `KP_GPU` on. The channel assertion, the grey
      conversion and the combined call all sit in the `try`; the fallback
      then repeats the conversion outside any `try`. So the method lets an
      exception escape exactly when the grey conversion of the image fails. */
  function ExtrAndDescrKpGpu<M, G>(lib: OpenCv<M, G>, run: Run<M, G>, im: M): (o: Outcome<Run<M, G>>)
    ensures o.Raised? <==> lib.cvtColor(im).Err?
    ensures o.state.engine.vKp == run.engine.vKp && o.state.engine.dKp == run.engine.dKp
  {
    if lib.channels(im) != 3 then
      FallbackGpu(lib, run, im)
    else
      var r := run.(calls := run.calls + [CvtColor(im)]);
      match lib.cvtColor(im)
      case Err(_) => FallbackGpu(lib, r, im)
      case Ok(gray) =>
        var g := lib.upload(gray);
        var r1 := r.(engine := r.engine.(imGpu := g), calls := r.calls + [DetectAndComputeAsync(g)]);
        match lib.extractor.detectAndComputeAsync(g)
        case Ok(out) => Returned(r1.(engine := r1.engine.(vKpGpu := out.0, dKpGpu := out.1)))
        case Err(_) => FallbackGpu(lib, r1, im)
  }

  /** The `catch` block of the GPU `extrAndDescrKp`. */
  function FallbackGpu<M, G>(lib: OpenCv<M, G>, run: Run<M, G>, im: M): (o: Outcome<Run<M, G>>)
    ensures o.Raised? <==> lib.cvtColor(im).Err?
    ensures o.state.engine.vKp == run.engine.vKp && o.state.engine.dKp == run.engine.dKp
  {
    var extracted := ExtractKpGpu(lib, run, im);
    if extracted.Raised? then extracted else DescribeKpGpu(lib, extracted.state, im)
  }

  // ------------------------------------------------------ configured methods

  /** `KpEngine::extractKp` under the given switches. */
  function ExtractKp<M, G>(cfg: KpConfig, lib: OpenCv<M, G>, run: Run<M, G>, im: M): (o: Outcome<Run<M, G>>)
    ensures !cfg.kpGpu ==> o.Returned? && o.state.calls == run.calls + [Detect(im)]
    ensures cfg.kpGpu ==> (o.Raised? <==> lib.cvtColor(im).Err?)
  {
    if cfg.kpGpu then ExtractKpGpu(lib, run, im) else ExtractKpCpu(lib, run, im)
  }

  /** `KpEngine::describeKp` under the given switches. */
  function DescribeKp<M, G>(cfg: KpConfig, lib: OpenCv<M, G>, run: Run<M, G>, im: M): (o: Outcome<Run<M, G>>)
    ensures o.Returned?
    ensures !cfg.kpGpu ==> o.state.calls == run.calls + [Compute(im, run.engine.vKp)]
  {
    if cfg.kpGpu then DescribeKpGpu(lib, run, im) else DescribeKpCpu(lib, run, im)
  }

  /** `KpEngine::extrAndDescrKp` under the given switches: on the CPU no
      `cv::Exception` escapes; on the GPU one escapes exactly when the grey
      conversion of the image throws. */
  function ExtrAndDescrKp<M, G>(cfg: KpConfig, lib: OpenCv<M, G>, run: Run<M, G>, im: M): (o: Outcome<Run<M, G>>)
    ensures !cfg.kpGpu ==> o.Returned?
    ensures cfg.kpGpu ==> (o.Raised? <==> lib.cvtColor(im).Err?)
  {
    if cfg.kpGpu then ExtrAndDescrKpGpu(lib, run, im) else ExtrAndDescrKpCpu(lib, run, im)
  }

  /** `getKpFromGpu`: brings device keypoints to `v_kp` when a GPU
      extractor is configured; only `v_kp` can change. */
  function GetKpFromGpu<M, G>(cfg: KpConfig, lib: OpenCv<M, G>, e: KpEngine<M, G>): (r: KpEngine<M, G>)
    ensures r == e.(vKp := r.vKp)
    ensures cfg.surfGpuExtractor ==> r.vKp == lib.extractor.downloadKeypoints(e.vKpGpu)
    ensures !cfg.surfGpuExtractor && cfg.kpGpu ==> r.vKp == lib.extractor.convert(e.vKpGpu)
    ensures !cfg.surfGpuExtractor && !cfg.kpGpu ==> r == e
  {
    if cfg.surfGpuExtractor then e.(vKp := lib.extractor.downloadKeypoints(e.vKpGpu))
    else if cfg.kpGpu then e.(vKp := lib.extractor.convert(e.vKpGpu))
    else e
  }

  /** `getDescFromGpu`: downloads the device descriptors into `d_kp` when
      `KP_GPU` is on; only `d_kp` can change. */
  function GetDescFromGpu<M, G>(cfg: KpConfig, lib: OpenCv<M, G>, e: KpEngine<M, G>): (r: KpEngine<M, G>)
    ensures r == e.(dKp := r.dKp)
    ensures cfg.kpGpu ==> r.dKp == lib.download(e.dKpGpu)
    ensures !cfg.kpGpu ==> r == e
  {
    if cfg.kpGpu then e.(dKp := lib.download(e.dKpGpu)) else e
  }

  // ---------------------------------------------------------------- lemmas

  /** With the switches as shipped, the fallback never lets an exception out,
      the two calls of the fallback are the configured `extractKp` and
      `describeKp`, and both synchronisation methods leave the engine as it is. */
  lemma SourceConfigProperties<M, G>(lib: OpenCv<M, G>, run: Run<M, G>, im: M)
    ensures ExtrAndDescrKp(SourceConfig, lib, run, im).Returned?
    ensures lib.extractor.detectAndCompute(im).Err? ==>
              ExtrAndDescrKp(SourceConfig, lib, run, im)
              == DescribeKp(SourceConfig, lib,
                   ExtractKp(SourceConfig, lib, run.(calls := run.calls + [DetectAndCompute(im)]), im).state, im)
    ensures GetKpFromGpu(SourceConfig, lib, run.engine) == run.engine
    ensures GetDescFromGpu(SourceConfig, lib, run.engine) == run.engine
  {
  }

  /** A CPU call made on the host image `im`. */
  ghost predicate HostCallOn<M, G>(c: CvCall<M, G>, im: M)
  {
    match c
    case Detect(i) => i == im
    case Compute(i, _) => i == im
    case DetectAndCompute(i) => i == im
    case _ => false
  }

  /** On the CPU the combined method only adds calls: first the combined
      call, then, exactly when it threw, a detection followed by a
      description, every one of them on the caller's image. */
  lemma CpuCallsStayOnImage<M, G>(lib: OpenCv<M, G>, run: Run<M, G>, im: M)
    ensures var calls := ExtrAndDescrKpCpu(lib, run, im).state.calls;
            && |run.calls| < |calls|
            && calls[..|run.calls|] == run.calls
            && var added := calls[|run.calls|..];
               && added[0] == DetectAndCompute(im)
               && (forall k :: 0 <= k < |added| ==> HostCallOn(added[k], im))
               && (|added| > 1 <==> lib.extractor.detectAndCompute(im).Err?)
               && (|added| > 1 ==> |added| == 3 && added[1].Detect? && added[2].Compute?)
  {
  }

  /** When both the combined call and the separate detection fail on the CPU,
      the descriptor still runs, on the keypoints the engine already held,
      and both failures are reported in order. */
  lemma CpuDoubleFailureDescribesOldKeypoints<M, G>(lib: OpenCv<M, G>, run: Run<M, G>, im: M)
    requires lib.extractor.detectAndCompute(im).Err?
    requires lib.extractor.detect(im).Err?
    ensures var o := ExtrAndDescrKpCpu(lib, run, im);
            && o.Returned?
            && o.state.calls == run.calls + [DetectAndCompute(im), Detect(im), Compute(im, run.engine.vKp)]
            && o.state.log[..|run.log| + 1] == run.log + [CannotExtract]
  {
  }

  /** A describe before any extraction hands the descriptor an empty
      keypoint list: it is not an error in itself. */
  lemma DescribeBeforeExtract<M, G>(lib: OpenCv<M, G>, emptyMat: M, emptyGpuMat: G, im: M)
    ensures var o := DescribeKpCpu(lib, Run(NewKpEngine(emptyMat, emptyGpuMat), [], []), im);
            o.Returned? && o.state.calls == [Compute(im, [])]
  {
  }

  /** With `KP_GPU` on and the `Ptr` extractor, a successful GPU describe
      followed by the two synchronisation methods leaves on the host the
      keypoints and descriptors `computeAsync` produced; a failed one leaves
      the host with what the device buffers held before. */
  lemma GpuDescribeThenSync<M, G>(cfg: KpConfig, lib: OpenCv<M, G>, run: Run<M, G>, im: M)
    requires cfg.kpGpu && !cfg.surfGpuExtractor
    ensures var synced := GetDescFromGpu(cfg, lib, GetKpFromGpu(cfg, lib, DescribeKp(cfg, lib, run, im).state.engine));
            match lib.descriptor.computeAsync(run.engine.imGpu, run.engine.vKpGpu)
            case Ok(out) => synced.vKp == lib.extractor.convert(out.0) && synced.dKp == lib.download(out.1)
            case Err(_) => synced.vKp == lib.extractor.convert(run.engine.vKpGpu)
                           && synced.dKp == lib.download(run.engine.dKpGpu)
  {
  }

  /** On the GPU a three-channel check failure falls into the fallback, whose
      grey conversion is outside any `try`: if that conversion throws, the
      exception escapes, the only call made is that conversion, and the
      describe step never runs. */
  lemma GpuChannelFailureEscapes<M, G>(lib: OpenCv<M, G>, run: Run<M, G>, im: M)
    requires lib.channels(im) != 3
    requires lib.cvtColor(im).Err?
    ensures var o := ExtrAndDescrKp(KpConfig(true, false, false), lib, run, im);
            && o == Raised(run.(calls := run.calls + [CvtColor(im)]), lib.cvtColor(im).error)
  {
  }
}
