/** `MatchEngine` on the CPU brute-force configuration (`GPU_MATCHER 0`,
    `FLANN 0`): a matcher built once from a norm and a cross-check flag, and a
    `match` call that either runs a 2-nearest-neighbour search followed by
    Lowe's ratio test or a plain single-neighbour match.
 */
module Matching {
  import opened CvTypes
  import opened RatioTest

  /** The `normType` values a `BFMatcher` accepts. */
  datatype NormType = NormInf | NormL1 | NormL2 | NormL2Sqr | NormHamming | NormHamming2

  /** The `BFMatcher` the constructor creates, identified by its settings. */
  datatype BFMatcher = BFMatcher(normType: NormType, crossCheck: bool)

  /** Engine state: the public match vector, the cross-check flag the engine
      keeps for itself and the matcher it owns. */
  datatype MatchEngine = MatchEngine(vDMatch: seq<DMatch>, crossCheck: bool, matcher: BFMatcher)

  /** The two `DescriptorMatcher` calls the engine makes, over descriptor
      matrices of type `T` (the template parameter of `match`). `knnMatch`
      writes a fresh vector of rows; `match` receives the engine's vector as
      its output argument and yields what that vector holds afterwards. */
  datatype MatcherLib<!T> = MatcherLib(
    knnMatch: (BFMatcher, T, T, int) -> Result<seq<seq<DMatch>>>,
    bestMatch: (BFMatcher, T, T, seq<DMatch>) -> Result<seq<DMatch>>)

  /** Default constructor arguments and the default `knn` argument of `match`. */
  const DefaultNorm: NormType := NormL2
  const DefaultCrossCheck: bool := false
  const DefaultKnn: bool := true

  /** Number of neighbours asked of `knnMatch`. */
  const KnnK: int := 2

  /** `MatchEngine(normType, crossCheck)`: remembers the flag and builds a
      brute-force matcher with the same settings; no match is held yet. */
  function NewMatchEngine(normType: NormType, crossCheck: bool): (e: MatchEngine)
    ensures e.vDMatch == []
    ensures e.crossCheck == crossCheck
    ensures e.matcher.normType == normType && e.matcher.crossCheck == crossCheck
  {
    MatchEngine([], crossCheck, BFMatcher(normType, crossCheck))
  }

  /** The ratio-test branch is taken exactly when `knn && !m_crossCheck`. */
  predicate UsesRatioTest(e: MatchEngine, knn: bool)
  {
    knn && !e.crossCheck
  }

  /** What `match` needs of the library: on the ratio branch, every row the
      neighbour search returns has the two entries the loop reads unguarded. */
  predicate MatchDefined<T>(e: MatchEngine, lib: MatcherLib<T>, query: T, train: T, knn: bool)
  {
    UsesRatioTest(e, knn) && lib.knnMatch(e.matcher, query, train, KnnK).Ok? ==>
      KnnRows(lib.knnMatch(e.matcher, query, train, KnnK).value)
  }

  /** `MatchEngine::match<T>(queryDesc, trainDesc, knn)` on the CPU. A
      `cv::Exception` from either OpenCV call is not caught. */
  function Match<T>(e: MatchEngine, lib: MatcherLib<T>, query: T, train: T, knn: bool): (o: Outcome<MatchEngine>)
    requires MatchDefined(e, lib, query, train, knn)
    ensures o.state.crossCheck == e.crossCheck && o.state.matcher == e.matcher
    ensures o.Raised? ==> o.state == e
    ensures UsesRatioTest(e, knn) ==>
              (o.Raised? <==> lib.knnMatch(e.matcher, query, train, KnnK).Err?)
    ensures UsesRatioTest(e, knn) && o.Returned? ==>
              var rows := lib.knnMatch(e.matcher, query, train, KnnK).value;
              && |e.vDMatch| <= |o.state.vDMatch| <= |e.vDMatch| + |rows|
              && o.state.vDMatch[..|e.vDMatch|] == e.vDMatch
              && o.state.vDMatch[|e.vDMatch|..] == RatioFilter(rows)
    ensures !UsesRatioTest(e, knn) ==>
              match lib.bestMatch(e.matcher, query, train, e.vDMatch)
              case Ok(v) => o == Returned(e.(vDMatch := v))
              case Err(x) => o == Raised(e, x)
  {
    if UsesRatioTest(e, knn) then
      match lib.knnMatch(e.matcher, query, train, KnnK)
      case Err(x) => Raised(e, x)
      case Ok(rows) => Returned(e.(vDMatch := e.vDMatch + RatioFilter(rows)))
    else
      match lib.bestMatch(e.matcher, query, train, e.vDMatch)
      case Err(x) => Raised(e, x)
      case Ok(v) => Returned(e.(vDMatch := v))
  }

  /** The same call written as the source's loop over the neighbour rows. */
  method RunMatch<T>(e: MatchEngine, lib: MatcherLib<T>, query: T, train: T, knn: bool)
    returns (o: Outcome<MatchEngine>)
    requires MatchDefined(e, lib, query, train, knn)
    ensures o == Match(e, lib, query, train, knn)
  {
    if knn && !e.crossCheck {
      var found := lib.knnMatch(e.matcher, query, train, KnnK);
      if found.Err? {
        return Raised(e, found.error);
      }
      var v := RatioTestLoop(found.value, e.vDMatch);
      o := Returned(e.(vDMatch := v));
    } else {
      var res := lib.bestMatch(e.matcher, query, train, e.vDMatch);
      if res.Err? {
        return Raised(e, res.error);
      }
      o := Returned(e.(vDMatch := res.value));
    }
  }

  /** A default-constructed engine called with the default `knn` takes the
      ratio branch: it appends the accepted nearest neighbours to its
      (empty) vector and never consults the plain `match`. */
  lemma DefaultEngineUsesRatioTest<T>(lib: MatcherLib<T>, query: T, train: T, rows: seq<seq<DMatch>>)
    requires lib.knnMatch(BFMatcher(DefaultNorm, DefaultCrossCheck), query, train, KnnK) == Ok(rows)
    requires KnnRows(rows)
    ensures NewMatchEngine(DefaultNorm, DefaultCrossCheck).matcher.normType == NormL2
    ensures UsesRatioTest(NewMatchEngine(DefaultNorm, DefaultCrossCheck), DefaultKnn)
    ensures Match(NewMatchEngine(DefaultNorm, DefaultCrossCheck), lib, query, train, DefaultKnn)
            == Returned(MatchEngine(RatioFilter(rows), false, BFMatcher(NormL2, false)))
  {
  }

  /** With cross-check on, `knn` is ignored: both values of the flag give the
      plain match's result. */
  lemma CrossCheckIgnoresKnn<T>(e: MatchEngine, lib: MatcherLib<T>, query: T, train: T)
    requires e.crossCheck
    ensures Match(e, lib, query, train, true) == Match(e, lib, query, train, false)
  {
  }

  /** On the ratio branch the vector is never cleared: the previous matches
      survive as a prefix, every new entry is the nearest neighbour of a row
      that passes the test, every passing row contributes its nearest
      neighbour, in row order. */
  lemma {:induction false} RatioBranchAppendsAcceptedNeighbours<T>(
    e: MatchEngine, lib: MatcherLib<T>, query: T, train: T, rows: seq<seq<DMatch>>)
    requires !e.crossCheck
    requires lib.knnMatch(e.matcher, query, train, KnnK) == Ok(rows)
    requires KnnRows(rows)
    ensures Match(e, lib, query, train, true).Returned?
    ensures var v := Match(e, lib, query, train, true).state.vDMatch;
            var idx := AcceptedRows(rows);
            && |v| == |e.vDMatch| + |idx|
            && v[..|e.vDMatch|] == e.vDMatch
            && (forall k :: 0 <= k < |idx| ==> v[|e.vDMatch| + k] == rows[idx[k]][0])
  {
    RatioFilterSelectsAcceptedRows(rows);
  }

  /** Calling `match` twice on the ratio branch with the same inputs does not
      reproduce the first result: the second call appends the same accepted
      neighbours again. */
  lemma {:induction false} RatioBranchAccumulates<T>(
    e: MatchEngine, lib: MatcherLib<T>, query: T, train: T, rows: seq<seq<DMatch>>)
    requires !e.crossCheck
    requires lib.knnMatch(e.matcher, query, train, KnnK) == Ok(rows)
    requires KnnRows(rows)
    ensures var once := Match(e, lib, query, train, true).state;
            var twice := Match(once, lib, query, train, true).state;
            twice.vDMatch == e.vDMatch + RatioFilter(rows) + RatioFilter(rows)
    ensures |AcceptedRows(rows)| > 0 ==>
              Match(Match(e, lib, query, train, true).state, lib, query, train, true)
              != Match(e, lib, query, train, true)
  {
    RatioFilterSelectsAcceptedRows(rows);
    var once := Match(e, lib, query, train, true).state;
    assert once.vDMatch == e.vDMatch + RatioFilter(rows);
    assert once.matcher == e.matcher && !once.crossCheck;
    var twice := Match(once, lib, query, train, true).state;
    assert twice.vDMatch == once.vDMatch + RatioFilter(rows);
    if |AcceptedRows(rows)| > 0 {
      assert |twice.vDMatch| > |once.vDMatch|;
    }
  }

  /** The two worked cases of the ratio test: nearest 0.14 against second
      7.07 is kept, nearest 1.0 against second 1.2 is dropped. */
  lemma LoweRatioExamples<T>(e: MatchEngine, lib: MatcherLib<T>, query: T, train: T)
    requires !e.crossCheck
    requires lib.knnMatch(e.matcher, query, train, KnnK)
             == Ok([[DMatch(0, 0, 0.14), DMatch(0, 1, 7.07)],
                    [DMatch(1, 2, 1.0), DMatch(1, 3, 1.2)]])
    ensures Match(e, lib, query, train, true).state.vDMatch == e.vDMatch + [DMatch(0, 0, 0.14)]
  {
    var rows := [[DMatch(0, 0, 0.14), DMatch(0, 1, 7.07)], [DMatch(1, 2, 1.0), DMatch(1, 3, 1.2)]];
    assert RowAccepted(rows[0]);
    assert !RowAccepted(rows[1]);
    assert rows[..1] == [rows[0]];
    assert rows[..1][..0] == [];
  }
}
