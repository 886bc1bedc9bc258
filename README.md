# Sentinel-1 GRD preprocessing: a Dafny model of the parameter building

`A4/s1_preprocessing.py` drives the SNAP toolkit through a fixed chain of
operators (read product, apply orbit file, subset to an area of interest,
thermal noise removal, radiometric calibration, speckle filtering, terrain
correction). The script's own logic is what it does before each operator
call: it checks its arguments, builds a fresh `HashMap` of operator
parameters from them and from fixed constants, and hands that map with the
input product to `GPF.createProduct`. This project models that logic and
proves what each stage promises about it.

- `common.dfy` (`Common`): `Option`, `Result`, the four kinds of error the
  script raises (`NotFound`, `InvalidArgument`, `GeometryFailure`,
  `OperatorFailure`) and substring containment for their messages.
- `snap.dfy` (`Snap`): the toolkit as the script sees it. Products and
  geometries are opaque handles. A parameter value is a string, a boolean,
  a `java.lang.Integer`, an opaque float or a geometry. `Put` is
  `HashMap.put`. The operator call and the JTS WKT reader are function types
  (`Engine`, `WktReader`). Each stage receives them as arguments and never
  looks inside them.
- `decimal.dfy` (`Decimal`): the decimal text CPython writes for an integer
  wherever it writes one, and a reader
  that proves that text unambiguous.
- `wkt.dfy` (`Wkt`): a polygon with one ring as a sequence of points. It
  is serialised as Well-Known Text, `POLYGON((x y, x y, ...))`, following
  clause 7 of OGC Simple Features Access Part 1 (06-103r4). There is a reader
  for exactly that form, and the round trip is proved.
- `bbox.dfy` (`BoundingBox`): the bounding-box check of `subset_AOI`, the
  closed five-vertex ring built from the box, and the WKT handed to the
  geometry reader. Its layout, a worked example, the ring's signed area and
  its corners are proved.
- `polarisation.dfy` (`Polarisation`): the mode to `sourceBands` table of
  `radiometric_calibration`, its aliases and its error.
- `preprocessing.dfy` (`Preprocessing`): one parameter-map function and
  one stage function per operator call.

Every stage returns `Result<Product, Error>`. A stage that checks its
arguments (subset, calibration, loader) fails before the engine is
consulted. Its result is then the same whatever the engine would do. Engine
failures come back as `OperatorFailure` with the operator's message
unchanged.

## Model

| member | source | states |
|---|---|---|
| `Common.ContainsInfix` | A4/s1_preprocessing.py:170-171 | a message built around a text contains that text (used for every error message that names its input) |
| `Snap.Put` | A4/s1_preprocessing.py:68-70 | `HashMap.put`: the key is present with the new value and every other entry is unchanged |
| `Decimal.NatText` | A4/s1_preprocessing.py:100-101 | the decimal text of a number is non-empty, starts with a digit, and starts with `0` only for zero, which is written `0` |
| `Decimal.NatTextDigits` | A4/s1_preprocessing.py:100-101 | every character of the decimal text of a number is a digit |
| `Decimal.NatTextValue` | A4/s1_preprocessing.py:100-101 | the digits of the decimal text of `n` denote `n` |
| `Decimal.IntText` | A4/s1_preprocessing.py:100-101 | the text is non-empty and starts with `-` exactly for a negative number |
| `Decimal.ReadIntText` | A4/s1_preprocessing.py:100-101 | reading back the decimal text of any integer, followed by a non-digit, gives that integer and the remaining text |
| `Decimal.IntTextInjective` | A4/s1_preprocessing.py:100-101 | two integers have the same decimal text exactly when they are equal |
| `Decimal.ReadInt` | A4/s1_preprocessing.py:100-101 | when it succeeds, it consumes at least one character and takes the whole run of digits: the rest does not start with a digit |
| `Wkt.ReadCoordinatesText` | A4/s1_preprocessing.py:99-102 | reading a rendered coordinate list gives back exactly its points, for any non-empty list |
| `Wkt.ReadPolygonText` | A4/s1_preprocessing.py:99-102 | reading the polygon text `Wkt.PolygonText` writes for any non-empty ring gives back exactly that ring, so the reader is handed exactly the ring's vertices |
| `Wkt.PolygonTextInjective` | A4/s1_preprocessing.py:99-102 | two rings render to the same text exactly when they are equal |
| `BoundingBox.Ring` | A4/s1_preprocessing.py:99-102 | the ring built from a 4-number box has 5 vertices and is closed: the last vertex equals the first, as a LinearRing requires |
| `BoundingBox.GeometryWkt` | A4/s1_preprocessing.py:91-102 | a box is rejected with the fixed ValueError message exactly when it is None, empty or not of length 4; otherwise the WKT reads back as the box's ring |
| `BoundingBox.RingCoordinates` | A4/s1_preprocessing.py:99-102 | the coordinate list is (b0 b1), (b2 b1), (b2 b3), (b0 b3), (b0 b1), in that order |
| `BoundingBox.RingTextLayout` | A4/s1_preprocessing.py:99-102 | for any 4-number box the WKT is the source's format string, vertex by vertex |
| `BoundingBox.ExampleWkt` | A4/s1_preprocessing.py:99-102 | `[10, 20, 30, 40]` becomes `POLYGON((10 20, 30 20, 30 40, 10 40, 10 20))` |
| `BoundingBox.ExamplePoints` | A4/s1_preprocessing.py:100-101 | the four vertices of the example are written `10 20`, `30 20`, `30 40`, `10 40` |
| `BoundingBox.RingArea` | A4/s1_preprocessing.py:83-102 | twice the signed area of the ring is `2 * (maxLon - minLon) * (maxLat - minLat)` |
| `BoundingBox.OrderedBoxIsCounterClockwise` | A4/s1_preprocessing.py:83-102 | a box given in its documented order, minimum below maximum on both axes, yields a counter-clockwise ring |
| `BoundingBox.RingEdgesAxisAligned` | A4/s1_preprocessing.py:99-102 | the ring's edges alternate: bottom and top along a parallel, right and left along a meridian |
| `BoundingBox.CornersDistinct` | A4/s1_preprocessing.py:91-102 | the four corners are pairwise distinct exactly when the box has non-zero width and height; `subset_AOI`'s length check at line 91 does not ensure this |
| `Polarisation.SourceBands` | A4/s1_preprocessing.py:160-171 | a mode is accepted exactly when it is one of DH, DV, SH, HH, SV, VV; any other mode is an InvalidArgument whose message contains the mode |
| `Polarisation.TableEntries` | A4/s1_preprocessing.py:161-168 | DH selects `Intensity_HH,Intensity_HV`, DV `Intensity_VH,Intensity_VV`, SH and HH `Intensity_HH`, SV and VV `Intensity_VV` |
| `Polarisation.SameBandsIffAliases` | A4/s1_preprocessing.py:160-168 | two accepted modes select the same bands exactly when they are the same mode or the aliases SH/HH or SV/VV |
| `Preprocessing.Propagate` | A4/s1_preprocessing.py:72-74 | the stage returns the operator's product, or the operator's failure with its message unchanged |
| `Preprocessing.ReadSafeProduct` | A4/s1_preprocessing.py:46-52 | a missing path is a NotFound error naming the path, and only a missing path is; otherwise the toolkit reader's answer is passed on |
| `Preprocessing.OrbitParameters` | A4/s1_preprocessing.py:68-70 | the orbit map holds exactly `orbitType` = "Sentinel Precise (Auto Download)" and `continueOnFail` = the string "false" |
| `Preprocessing.ApplyOrbitFile` | A4/s1_preprocessing.py:68-74 | the Apply-Orbit-File operator receives the orbit map and the input product, and its answer is passed on |
| `Preprocessing.SubsetParameters` | A4/s1_preprocessing.py:104-109 | the subset map holds exactly `copyMetadata` = true and `geoRegion` = the geometry read from the WKT |
| `Preprocessing.SubsetAoi` | A4/s1_preprocessing.py:91-115 | a malformed box is an InvalidArgument whatever the reader and engine do, and only a malformed box is; the reader gets the ring's WKT; a reader failure is a GeometryFailure whose message contains the WKT; otherwise the Subset operator receives the subset map |
| `Preprocessing.ThermalNoiseParameters` | A4/s1_preprocessing.py:132-133 | the map holds exactly `removeThermalNoise` = true |
| `Preprocessing.ThermalNoiseRemoval` | A4/s1_preprocessing.py:132-135 | the ThermalNoiseRemoval operator receives that map and the input product, and its answer is passed on |
| `Preprocessing.CalibrationParameters` | A4/s1_preprocessing.py:155-174 | for an accepted mode the map holds exactly `outputSigmaBand` = true, `outputImageScaleInDb` = false, the mode's `sourceBands` and `selectedPolarisations` = the caller's string unchanged; an unknown mode yields no map, only an InvalidArgument naming it |
| `Preprocessing.RadiometricCalibration` | A4/s1_preprocessing.py:155-178 | an unknown mode fails with InvalidArgument before the operator is consulted, and only an unknown mode does; otherwise the Calibration operator receives the calibration map |
| `Preprocessing.CalibrationAliasesAgree` | A4/s1_preprocessing.py:165-168 | aliased modes produce the same calibration map |
| `Preprocessing.CalibrationAlwaysLinear` | A4/s1_preprocessing.py:156-158 | every calibration map that is built asks for a linear sigma-nought band, never dB |
| `Preprocessing.SpeckleParameters` | A4/s1_preprocessing.py:197-200 | the map holds exactly `filter` = the filter type and `filterSizeX` = `filterSizeY` = the window size |
| `Preprocessing.SpeckleFiltering` | A4/s1_preprocessing.py:180-204 | the Speckle-Filter operator receives the speckle map and the input product, and its answer is passed on |
| `Preprocessing.SpeckleDefaults` | A4/s1_preprocessing.py:180 | called without type or size, the stage runs a 5 x 5 Lee filter |
| `Preprocessing.TerrainParameters` | A4/s1_preprocessing.py:224-226 | the map holds exactly `demName` = the DEM name and `pixelSpacingInMeter` = the spacing, both unchanged |
| `Preprocessing.TerrainCorrection` | A4/s1_preprocessing.py:224-229 | the Terrain-Correction operator receives that map and the input product, and its answer is passed on |

## Left out

- `plotBand` (lines 233-269): it reads a float raster into a numpy buffer and draws it with matplotlib. That is display work over foreign data.
- The operator-registry load at import (line 27), `ProductIO.readProduct`, `GPF.createProduct` and the JTS `WKTReader`: these are native toolkit calls. They appear only as the function arguments `readProduct`, `engine` and `reader`, and nothing is assumed about them.
- The filesystem check of `read_SAFE_product` is the argument `pathExists`.
- All console output.
- Decimal.IntText: CPython refuses to write an integer with more than 4300 decimal digits unless `sys.set_int_max_str_digits` allows it. The limit is configurable and is not modelled: the text is written for every integer. So for a well-formed box with such a coordinate, BoundingBox.GeometryWkt gives a WKT and Preprocessing.SubsetAoi goes on to the reader. The source raises a ValueError at the print on line 94, before any WKT is built and outside the `try`.
- Preprocessing.SubsetAoi: bounding-box coordinates are integers. The source accepts Python floats, and the model does not capture how Python writes a float.
- Wkt.ReadPolygon: it reads only the spacing the serialiser writes. It is not a reader for the whole WKT grammar.
- Preprocessing.SpeckleParameters: the window size has type `Int32`, the range of `java.lang.Integer`. The model does not capture what jpy does with a Python int outside that range.
- Preprocessing.TerrainParameters: the pixel spacing is an opaque 64-bit pattern that is passed through. No arithmetic is done on it.
- Preprocessing.ReadSafeProduct: a `null` returned by `ProductIO.readProduct` is not told apart from a product.
- Python's dynamic typing: the box is a list of integers, and the mode and polarisations are strings. So the model does not capture a 4-character string accepted as a box, or a non-string mode falling through to the error.
- The docstring of `terrain_correction` says the pixel spacing defaults to 10.0. The signature has no default, and the model follows the code.
- A degenerate box (zero width or height) is accepted by the source and by the model. `BoundingBox.CornersDistinct` states what the ring is then.
