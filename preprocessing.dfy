/** The preprocessing stages: each builds a fresh parameter map from its
    arguments and fixed constants and hands it, with the input product, to
    one toolkit operator. The operator itself is the `engine` argument. */
module Preprocessing {
  import opened Common
  import opened Snap
  import opened Wkt
  import opened BoundingBox
  import opened Polarisation

  /** r is what a stage returns for the operator answer o: the operator's
      product, or its exception passed on with the message unchanged. */
  predicate PassesOn(o: Outcome, r: Result<Product, Error>) {
    && (o.Produced? ==> r == Success(o.product))
    && (o.Raised? ==> r == Failure(OperatorFailure(o.message)))
  }

  function Propagate(o: Outcome): (r: Result<Product, Error>)
    ensures PassesOn(o, r)
    ensures r.Failure? ==> r.error.OperatorFailure?
  {
    match o
    case Produced(p) => Success(p)
    case Raised(m) => Failure(OperatorFailure(m))
  }

  // ---------------------------------------------------------------- loader

  function NotFoundMessage(path: string): string {
    "Product path not found: " + path
  }

  /** Opens a product, failing with a message that names the path when the
      path does not exist; the toolkit reader is not consulted then. */
  function ReadSafeProduct(pathExists: string -> bool, readProduct: string -> Outcome, path: string): (r: Result<Product, Error>)
    ensures !pathExists(path) ==> r == Failure(NotFound(NotFoundMessage(path)))
    ensures !pathExists(path) ==> r.Failure? && r.error.NotFound? && Contains(r.error.message, path)
    ensures pathExists(path) ==> PassesOn(readProduct(path), r)
    ensures r.Failure? && r.error.NotFound? <==> !pathExists(path)
  {
    if !pathExists(path) then
      ContainsInfix("Product path not found: ", path, "");
      assert NotFoundMessage(path) == "Product path not found: " + path + "";
      Failure(NotFound(NotFoundMessage(path)))
    else Propagate(readProduct(path))
  }

  // ----------------------------------------------------------- orbit file

  const OrbitType := "Sentinel Precise (Auto Download)"

  /** Precise orbits, downloaded automatically; `continueOnFail` is the
      string "false", not a boolean. */
  function OrbitParameters(): (m: Params)
    ensures m.Keys == {"orbitType", "continueOnFail"}
    ensures m["orbitType"] == Str(OrbitType)
    ensures m["continueOnFail"] == Str("false")
  {
    Put(Put(map[], "orbitType", Str(OrbitType)), "continueOnFail", Str("false"))
  }

  function ApplyOrbitFile(engine: Engine, product: Product): (r: Result<Product, Error>)
    ensures PassesOn(engine(Invocation("Apply-Orbit-File", OrbitParameters(), product)), r)
  {
    Propagate(engine(Invocation("Apply-Orbit-File", OrbitParameters(), product)))
  }

  // --------------------------------------------------------------- subset

  function SubsetParameters(geometry: Geometry): (m: Params)
    ensures m.Keys == {"copyMetadata", "geoRegion"}
    ensures m["copyMetadata"] == Bool(true)
    ensures m["geoRegion"] == Geom(geometry)
  {
    Put(Put(map[], "copyMetadata", Bool(true)), "geoRegion", Geom(geometry))
  }

  function GeometryFailureMessage(cause: string, wkt: string): string {
    "Error converting WKT to SNAP geometry: " + cause + "\nWKT: " + wkt
  }

  /** Crops a product to a bounding box. A malformed box fails before the
      geometry reader or the operator is consulted, the same way whatever
      they would do; a reader failure is re-raised with the WKT attached;
      otherwise the Subset operator receives the geometry read from the
      box's ring. */
  function SubsetAoi(engine: Engine, reader: WktReader, product: Product, bbox: Option<seq<int>>): (r: Result<Product, Error>)
    ensures !IsWellFormed(bbox) ==> r == Failure(InvalidArgument(BboxMessage))
    ensures r.Failure? && r.error.InvalidArgument? <==> !IsWellFormed(bbox)
    ensures IsWellFormed(bbox) ==>
      var wkt := GeometryWkt(bbox).value;
      && ReadPolygon(wkt) == Some(Ring(bbox.value))
      && (reader(wkt).ParseFailed? ==>
            r.Failure? && r.error == GeometryFailure(GeometryFailureMessage(reader(wkt).message, wkt))
            && Contains(r.error.message, wkt))
      && (reader(wkt).Parsed? ==>
            PassesOn(engine(Invocation("Subset", SubsetParameters(reader(wkt).geometry), product)), r))
  {
    match GeometryWkt(bbox)
    case Failure(e) => Failure(e)
    case Success(wkt) =>
      match reader(wkt)
      case ParseFailed(cause) =>
        ContainsInfix("Error converting WKT to SNAP geometry: " + cause + "\nWKT: ", wkt, "");
        assert GeometryFailureMessage(cause, wkt) == "Error converting WKT to SNAP geometry: " + cause + "\nWKT: " + wkt + "";
        Failure(GeometryFailure(GeometryFailureMessage(cause, wkt)))
      case Parsed(g) => Propagate(engine(Invocation("Subset", SubsetParameters(g), product)))
  }

  // ------------------------------------------------------- thermal noise

  function ThermalNoiseParameters(): (m: Params)
    ensures m.Keys == {"removeThermalNoise"}
    ensures m["removeThermalNoise"] == Bool(true)
  {
    Put(map[], "removeThermalNoise", Bool(true))
  }

  function ThermalNoiseRemoval(engine: Engine, product: Product): (r: Result<Product, Error>)
    ensures PassesOn(engine(Invocation("ThermalNoiseRemoval", ThermalNoiseParameters(), product)), r)
  {
    Propagate(engine(Invocation("ThermalNoiseRemoval", ThermalNoiseParameters(), product)))
  }

  // ---------------------------------------------------------- calibration

  /** The calibration map: sigma-nought on a linear scale whatever the mode,
      the mode's source bands, and the caller's polarisations as given; or
      the ValueError naming an unknown mode. */
  function CalibrationParameters(mode: string, polsSelected: string): (r: Result<Params, Error>)
    ensures r.Success? <==> IsKnownMode(mode)
    ensures r.Failure? ==> r.error.InvalidArgument? && Contains(r.error.message, mode)
    ensures r.Success? ==>
      && r.value.Keys == {"outputSigmaBand", "outputImageScaleInDb", "sourceBands", "selectedPolarisations"}
      && r.value["outputSigmaBand"] == Bool(true)
      && r.value["outputImageScaleInDb"] == Bool(false)
      && r.value["sourceBands"] == Str(SourceBands(mode).value)
      && r.value["selectedPolarisations"] == Str(polsSelected)
  {
    var m := Put(Put(map[], "outputSigmaBand", Bool(true)), "outputImageScaleInDb", Bool(false));
    match SourceBands(mode)
    case Failure(e) => Failure(e)
    case Success(bands) => Success(Put(Put(m, "sourceBands", Str(bands)), "selectedPolarisations", Str(polsSelected)))
  }

  /** An unknown mode fails before the operator is consulted. */
  function RadiometricCalibration(engine: Engine, product: Product, mode: string, polsSelected: string): (r: Result<Product, Error>)
    ensures r.Failure? && r.error.InvalidArgument? <==> !IsKnownMode(mode)
    ensures !IsKnownMode(mode) ==> r == Failure(CalibrationParameters(mode, polsSelected).error)
    ensures IsKnownMode(mode) ==>
      PassesOn(engine(Invocation("Calibration", CalibrationParameters(mode, polsSelected).value, product)), r)
  {
    match CalibrationParameters(mode, polsSelected)
    case Failure(e) => Failure(e)
    case Success(m) => Propagate(engine(Invocation("Calibration", m, product)))
  }

  /** Aliased modes configure calibration identically. */
  lemma CalibrationAliasesAgree(m1: string, m2: string, polsSelected: string)
    requires IsKnownMode(m1) && Aliases(m1, m2)
    ensures CalibrationParameters(m1, polsSelected) == CalibrationParameters(m2, polsSelected)
  {
    SameBandsIffAliases(m1, m2);
  }

  /** The output scale is linear sigma-nought for every accepted mode and
      every polarisation list. */
  lemma CalibrationAlwaysLinear(mode: string, polsSelected: string)
    requires CalibrationParameters(mode, polsSelected).Success?
    ensures CalibrationParameters(mode, polsSelected).value["outputImageScaleInDb"] == Bool(false)
    ensures CalibrationParameters(mode, polsSelected).value["outputSigmaBand"] == Bool(true)
  {
  }

  // ---------------------------------------------------- speckle filtering

  /** The speckle map: the filter by name and a square window of the given
      size; by default a 5 x 5 Lee filter. No check is made on the size. */
  function SpeckleParameters(filterType: string := "Lee", filterSize: Int32 := 5): (m: Params)
    ensures m.Keys == {"filter", "filterSizeX", "filterSizeY"}
    ensures m["filter"] == Str(filterType)
    ensures m["filterSizeX"] == m["filterSizeY"] == Int(filterSize)
  {
    Put(Put(Put(map[], "filter", Str(filterType)), "filterSizeX", Int(filterSize)), "filterSizeY", Int(filterSize))
  }

  function SpeckleFiltering(engine: Engine, product: Product, filterType: string := "Lee", filterSize: Int32 := 5): (r: Result<Product, Error>)
    ensures PassesOn(engine(Invocation("Speckle-Filter", SpeckleParameters(filterType, filterSize), product)), r)
  {
    Propagate(engine(Invocation("Speckle-Filter", SpeckleParameters(filterType, filterSize), product)))
  }

  /** Called without a filter type or size, the stage runs a 5 x 5 Lee filter. */
  lemma SpeckleDefaults(engine: Engine, product: Product)
    ensures SpeckleFiltering(engine, product) == SpeckleFiltering(engine, product, "Lee", 5)
    ensures SpeckleParameters()["filter"] == Str("Lee")
    ensures SpeckleParameters()["filterSizeX"] == SpeckleParameters()["filterSizeY"] == Int(5)
  {
  }

  // --------------------------------------------------- terrain correction

  /** The DEM name and the pixel spacing, both passed through unchecked. */
  function TerrainParameters(demName: string, pixelSpacing: Float64): (m: Params)
    ensures m.Keys == {"demName", "pixelSpacingInMeter"}
    ensures m["demName"] == Str(demName)
    ensures m["pixelSpacingInMeter"] == Float(pixelSpacing)
  {
    Put(Put(map[], "demName", Str(demName)), "pixelSpacingInMeter", Float(pixelSpacing))
  }

  function TerrainCorrection(engine: Engine, product: Product, demName: string, pixelSpacing: Float64): (r: Result<Product, Error>)
    ensures PassesOn(engine(Invocation("Terrain-Correction", TerrainParameters(demName, pixelSpacing), product)), r)
  {
    Propagate(engine(Invocation("Terrain-Correction", TerrainParameters(demName, pixelSpacing), product)))
  }
}
