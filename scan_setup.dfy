/** Resolution of the scan-mapper configuration performed by
    MultiScanRegistration::setup: a lidar model name is tried first, then the
    explicit (min angle, max angle, ring count) triple, and when neither is
    complete the existing default mapper is kept. Parameter lookups are
    pre-fetched: a missing parameter is `None`. */
module ScanSetup {

  datatype Option<+T> = None | Some(value: T)

  /** The Velodyne sensors that have a built-in scan mapper preset. */
  datatype LidarModel = VLP16 | HDL32 | HDL64E

  /** The parameter value that selects each preset. */
  function ModelName(m: LidarModel): string {
    match m
    case VLP16 => "VLP-16"
    case HDL32 => "HDL-32"
    case HDL64E => "HDL-64E"
  }

  /** Exact, case-sensitive match of a lidar model parameter against the
      supported names. */
  function ParseLidarModel(name: string): (r: Option<LidarModel>)
    ensures r.Some? ==> ModelName(r.value) == name
    ensures r.None? <==> forall m :: ModelName(m) != name
  {
    if name == ModelName(VLP16) then Some(VLP16)
    else if name == ModelName(HDL32) then Some(HDL32)
    else if name == ModelName(HDL64E) then Some(HDL64E)
    else None
  }

  /** Every supported name is recognised as the preset it names. */
  lemma ParseModelNameRoundTrip(m: LidarModel)
    ensures ParseLidarModel(ModelName(m)) == Some(m)
  {
  }

  /** The registration parameters as read from the parameter server.
      `lidarModel` is /loam/registration/lidar_model; the other three are
      min_vertical_angle, max_vertical_angle and n_scan_rings. */
  datatype Params = Params(
    lidarModel: Option<string>,
    minVerticalAngle: Option<real>,
    maxVerticalAngle: Option<real>,
    nScanRings: Option<int>)

  /** All three members of the explicit triple are present. */
  predicate HasTriple(p: Params) {
    p.minVerticalAngle.Some? && p.maxVerticalAngle.Some? && p.nScanRings.Some?
  }

  /** Why setup returned false. */
  datatype SetupError =
    | BaseSetupFailed
    | InvalidLidarModel(name: string)
    | InvalidVerticalRange
    | InvalidRingCount

  /** What setup does to the scan mapper when it succeeds. */
  datatype MapperChoice =
    | Preset(model: LidarModel)
    | Linear(vAngleMin: real, vAngleMax: real, nScanRings: int)
    | KeepDefault

  datatype SetupResult = Fail(error: SetupError) | Ok(choice: MapperChoice)

  /** The decision chain of setup. `baseOk` is the result of the base class
      setup, which runs first. */
  function Resolve(baseOk: bool, p: Params): (r: SetupResult)
    ensures r.Ok? ==> baseOk
    ensures r.Ok? && r.choice.Preset? ==> p.lidarModel == Some(ModelName(r.choice.model))
    ensures r.Ok? && r.choice.Linear? ==>
      p.lidarModel.None? && r.choice.vAngleMin < r.choice.vAngleMax && r.choice.nScanRings >= 2
    ensures r.Ok? && r.choice.KeepDefault? ==> p.lidarModel.None? && !HasTriple(p)
  {
    if !baseOk then Fail(BaseSetupFailed)
    else if p.lidarModel.Some? then
      match ParseLidarModel(p.lidarModel.value)
      case Some(m) => Ok(Preset(m))
      case None => Fail(InvalidLidarModel(p.lidarModel.value))
    else if HasTriple(p) then
      var lo, hi, n := p.minVerticalAngle.value, p.maxVerticalAngle.value, p.nScanRings.value;
      if lo >= hi then Fail(InvalidVerticalRange)
      else if n < 2 then Fail(InvalidRingCount)
      else Ok(Linear(lo, hi, n))
    else Ok(KeepDefault)
  }

  /** When the base setup fails nothing else is looked at. */
  lemma BaseFailureStops(p: Params)
    ensures Resolve(false, p) == Fail(BaseSetupFailed)
  {
  }

  /** A present model name succeeds exactly when it is one of the three
      supported names, and then selects the preset it names. */
  lemma LidarModelSelectsPreset(p: Params, m: LidarModel)
    requires p.lidarModel.Some?
    ensures Resolve(true, p) == Ok(Preset(m)) <==> p.lidarModel.value == ModelName(m)
    ensures Resolve(true, p).Ok? <==> p.lidarModel.value in {"VLP-16", "HDL-32", "HDL-64E"}
    ensures Resolve(true, p).Fail? ==> Resolve(true, p).error == InvalidLidarModel(p.lidarModel.value)
  {
  }

  /** A present model name takes precedence: the explicit triple is never
      consulted, whatever its values. */
  lemma ModelNameTakesPrecedence(baseOk: bool, p: Params, q: Params)
    requires p.lidarModel.Some? && q.lidarModel == p.lidarModel
    ensures Resolve(baseOk, p) == Resolve(baseOk, q)
  {
  }

  /** An empty vertical range is rejected, and it is checked before the ring
      count: the error is the range error even when the ring count is bad too. */
  lemma InvalidRangeCheckedFirst(p: Params)
    requires p.lidarModel.None? && HasTriple(p)
    requires p.minVerticalAngle.value >= p.maxVerticalAngle.value
    ensures Resolve(true, p) == Fail(InvalidVerticalRange)
  {
  }

  /** A valid range with fewer than two rings is rejected. */
  lemma InvalidRingCountRejected(p: Params)
    requires p.lidarModel.None? && HasTriple(p)
    requires p.minVerticalAngle.value < p.maxVerticalAngle.value && p.nScanRings.value < 2
    ensures Resolve(true, p) == Fail(InvalidRingCount)
  {
  }

  /** The linear mapper is chosen with exactly the given values, and only
      when no model name is present and the triple passes both checks. */
  lemma ValidTripleSetsLinear(baseOk: bool, p: Params, lo: real, hi: real, n: int)
    ensures Resolve(baseOk, p) == Ok(Linear(lo, hi, n)) <==>
      baseOk && p.lidarModel.None? &&
      p.minVerticalAngle == Some(lo) && p.maxVerticalAngle == Some(hi) && p.nScanRings == Some(n) &&
      lo < hi && n >= 2
  {
  }

  /** With no model name and an incomplete triple setup still succeeds and
      leaves the mapper as it was; this is the only way to reach KeepDefault. */
  lemma IncompleteParamsKeepDefault(baseOk: bool, p: Params)
    ensures Resolve(baseOk, p) == Ok(KeepDefault) <==> baseOk && p.lidarModel.None? && !HasTriple(p)
  {
  }

  /** The value setup returns, stated without the decision chain: true
      exactly when the base setup succeeded, a present model name is
      supported, and a complete triple (consulted only without a name) is
      valid. */
  lemma SetupSucceedsIff(baseOk: bool, p: Params)
    ensures Resolve(baseOk, p).Ok? <==>
      baseOk &&
      (p.lidarModel.Some? ==> exists m :: ModelName(m) == p.lidarModel.value) &&
      (p.lidarModel.None? && HasTriple(p) ==>
        p.minVerticalAngle.value < p.maxVerticalAngle.value && p.nScanRings.value >= 2)
  {
  }

  /** A lidar model name other than the three supported ones fails setup. */
  lemma UnknownModelExample()
    ensures Resolve(true, Params(Some("bad-model"), None, None, None)) == Fail(InvalidLidarModel("bad-model"))
  {
  }

  /** An inverted vertical range fails setup. */
  lemma InvertedRangeExample()
    ensures Resolve(true, Params(None, Some(10.0), Some(5.0), Some(16))) == Fail(InvalidVerticalRange)
  {
  }
}
