/** The records that the crack generator passes around (the dataclasses under
    `crack_generation/model`, `crack_generation/models` and
    `dataset_generation/models`). They have no behaviour of their own. */
module CrackModel {
  import opened Geometry

  /** A sample of a crack path: heading, width and integer centre. */
  datatype Point = Point(angle: real, width: real, center: Pos)

  /** The surface seen by the `path_functions` generation: a height map
      (only its shape matters here), the distance transform of its inverse and
      the gradient angles of that transform, plus brick and mortar sizes in
      pixels. */
  datatype Surface = Surface(
    heightMap: Grid<real>,
    distanceTransform: Grid<real>,
    gradientAngles: Grid<real>,
    brickWidth: int,
    brickHeight: int,
    mortarSize: int)
  {
    predicate Wf()
    {
      heightMap.Wf() && distanceTransform.Wf() && gradientAngles.Wf()
      && heightMap.SameShape(distanceTransform) && heightMap.SameShape(gradientAngles)
    }

    function Height(): nat { heightMap.rows }
    function Width(): nat { heightMap.cols }
  }

  /** The surface map seen by the `operations` and `util` generations: the
      surface image, the object mask (true on bricks), the distance transforms
      and gradient angles of the mask and of its inverse, and the factor from
      physical size to pixels. */
  datatype SurfaceMap = SurfaceMap(
    surface: Grid<real>,
    mask: Grid<bool>,
    distanceTransform: Grid<real>,
    gradientAngles: Grid<real>,
    inverseGradientAngles: Grid<real>,
    gridFactor: real)
  {
    predicate Wf()
    {
      surface.Wf() && mask.Wf() && distanceTransform.Wf() && gradientAngles.Wf() && inverseGradientAngles.Wf()
      && surface.SameShape(mask) && surface.SameShape(distanceTransform)
      && surface.SameShape(gradientAngles) && surface.SameShape(inverseGradientAngles)
    }
  }

  /** `SurfaceParameters`: brick and mortar sizes and the map. */
  datatype SurfaceParameters = SurfaceParameters(
    brickWidth: real,
    brickHeight: real,
    mortarWidth: real,
    mortarHeight: real,
    surfaceMap: SurfaceMap)

  /** `CrackParameters` of the `operations` generation. */
  datatype CrackParameters = CrackParameters(
    depth: real,
    width: real,
    startPointiness: int,
    endPointiness: int,
    depthResolution: int,
    stepSize: real,
    gradientInfluence: real,
    widthUpdateChance: real,
    breakthroughChance: real)

  /** `CrackPathParameters` of the `path_functions` generation. */
  datatype PathParameters = PathParameters(
    stepSize: real,
    gradientInfluence: real,
    widthUpdateChance: real,
    breakthroughChance: real,
    minDistance: real,
    minWidth: real,
    maxWidthGrow: real,
    smoothingType: string,
    smoothing: int,
    distanceImprovementThreshold: real)

  datatype TrajectoryParameters = TrajectoryParameters(
    alongBottomChance: real,
    alongDiagonalChance: real,
    alongSideChance: real,
    maxPivotBrickWidths: int,
    maxPivotBrickHeights: int,
    maxPivotPoints: int,
    rowSearchSpacePercent: real,
    columnSearchSpacePercent: real)

  datatype DimensionParameters = DimensionParameters(
    width: real,
    depth: real,
    depthResolution: int,
    sigma: real,
    widthStdsOffset: real)

  datatype GenerationParameters = GenerationParameters(
    dimensionParameters: DimensionParameters,
    pathParameters: PathParameters,
    trajectoryParameters: TrajectoryParameters)

  /** A finished crack: its path, the pivot points it was steered through and
      its height map. */
  datatype Crack = Crack(path: seq<Point>, trajectory: seq<Pos>, heightMap: Grid<real>)

  /** The two side lines of a crack (`CrackPath`): row i of each is one sample. */
  datatype CrackPath = CrackPath(topLine: seq<Pos>, botLine: seq<Pos>)
}
