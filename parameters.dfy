/** `src/dataset_generation/load_functions/parameters.py` and the records it
    fills. A configuration dictionary is taken already split into its
    sections, each section a record with the dictionary's keys as fields. */
module Parameters {
  import opened Text
  import opened CrackModel

  const IMAGES_OUTPUT_DIR: string := "images"
  const LABELS_OUTPUT_DIR: string := "labels"

  /** The crack section: its `dimensions`, `path` and `trajectory`
      entries, each already the keyword arguments of its record. */
  datatype CrackConfig = CrackConfig(dimensions: DimensionParameters, path: PathParameters, trajectory: TrajectoryParameters)

  /** `load_crack_parameters`: each section becomes its part of the crack
      generation parameters. */
  function LoadCrackParameters(config: CrackConfig): (p: GenerationParameters)
    ensures p.dimensionParameters == config.dimensions
    ensures p.pathParameters == config.path
    ensures p.trajectoryParameters == config.trajectory
  {
    GenerationParameters(config.dimensions, config.path, config.trajectory)
  }

  /** Nothing of the crack section is lost: different sections load into
      different parameters. */
  lemma LoadCrackParametersInjective(a: CrackConfig, b: CrackConfig)
    requires LoadCrackParameters(a) == LoadCrackParameters(b)
    ensures a == b
  {
  }

  /** An `(x, y, z)` tuple. */
  datatype Triple = Triple(x: real, y: real, z: real)

  /** One `{'min': .., 'max': ..}` entry. */
  datatype Range = Range(min: real, max: real)

  /** The `x`, `y` and `z` entries of the `rotation` or `translation`
      section. */
  datatype AxisRanges = AxisRanges(x: Range, y: Range, z: Range)

  /** The camera section: the camera's object name and its two ranges. */
  datatype CameraConfig = CameraConfig(objectName: string, rotation: AxisRanges, translation: AxisRanges)

  /** `CameraParameters`, naming its camera object. */
  datatype CameraParameters = CameraParameters(
    cameraObject: string,
    rotationMin: Triple,
    rotationMax: Triple,
    translationMin: Triple,
    translationMax: Triple)

  /** Axis 0, 1 or 2 of a tuple. */
  function Component(t: Triple, axis: nat): real
    requires axis < 3
  {
    if axis == 0 then t.x else if axis == 1 then t.y else t.z
  }

  /** The range given for axis 0, 1 or 2. */
  function AxisRange(r: AxisRanges, axis: nat): Range
    requires axis < 3
  {
    if axis == 0 then r.x else if axis == 1 then r.y else r.z
  }

  /** `load_camera_parameters`: the per-axis ranges regrouped into a tuple of
      minima and a tuple of maxima, for rotation and for translation; the
      `i`-th entries of a pair of tuples give back the `i`-th axis's range. */
  function LoadCameraParameters(config: CameraConfig): (p: CameraParameters)
    ensures p.cameraObject == config.objectName
    ensures forall axis :: 0 <= axis < 3 ==>
      Range(Component(p.rotationMin, axis), Component(p.rotationMax, axis)) == AxisRange(config.rotation, axis)
      && Range(Component(p.translationMin, axis), Component(p.translationMax, axis)) == AxisRange(config.translation, axis)
  {
    var r, t := config.rotation, config.translation;
    CameraParameters(
      config.objectName,
      Triple(r.x.min, r.y.min, r.z.min),
      Triple(r.x.max, r.y.max, r.z.max),
      Triple(t.x.min, t.y.min, t.z.min),
      Triple(t.x.max, t.y.max, t.z.max))
  }

  /** The `thresholding` section. */
  datatype Thresholding = Thresholding(minActivePixels: int, imageThreshold: real, uvThreshold: real, aoThreshold: real)

  /** The label section: the patch count and the thresholds. */
  datatype LabelConfig = LabelConfig(patches: int, thresholding: Thresholding)

  /** `LabelParameters`, in its field order. */
  datatype LabelParameters = LabelParameters(
    numPatches: int,
    minActivePixels: int,
    imageThreshold: real,
    uvThreshold: real,
    aoThreshold: real,
    baseOutputDirectory: string,
    imageOutputDirectory: string,
    labelOutputDirectory: string)

  predicate EndsWith(s: string, suffix: string)
  {
    |suffix| <= |s| && s[|s| - |suffix|..] == suffix
  }

  /** The base output directory: the output directory itself when it is
      absolute, and otherwise the output directory under the working
      directory `cwd`. Either way it ends with the output directory. */
  function BaseOutputDirectory(outputDirectory: string, cwd: string): (base: string)
    ensures EndsWith(base, outputDirectory)
    ensures StartsWith(cwd, [SEP]) ==> StartsWith(base, [SEP])
  {
    if StartsWith(outputDirectory, [SEP]) then outputDirectory else Join(cwd, outputDirectory)
  }

  /** With the absolute working directory `os.getcwd()` returns, the output
      directory is used verbatim exactly when it is absolute. */
  lemma BaseOutputDirectoryVerbatim(outputDirectory: string, cwd: string)
    requires StartsWith(cwd, [SEP])
    ensures BaseOutputDirectory(outputDirectory, cwd) == outputDirectory <==> StartsWith(outputDirectory, [SEP])
  {
  }

  /** `load_label_parameters`: the patch count and thresholds copied in
      order, then the base directory and the images and labels directories
      inside it. */
  function LoadLabelParameters(config: LabelConfig, outputDirectory: string, cwd: string): (r: LabelParameters)
    ensures r.numPatches == config.patches && r.minActivePixels == config.thresholding.minActivePixels
    ensures r.imageThreshold == config.thresholding.imageThreshold && r.uvThreshold == config.thresholding.uvThreshold
    ensures r.aoThreshold == config.thresholding.aoThreshold
    ensures r.baseOutputDirectory == BaseOutputDirectory(outputDirectory, cwd)
    ensures r.imageOutputDirectory == Join(r.baseOutputDirectory, IMAGES_OUTPUT_DIR)
    ensures r.labelOutputDirectory == Join(r.baseOutputDirectory, LABELS_OUTPUT_DIR)
  {
    var base := BaseOutputDirectory(outputDirectory, cwd);
    var t := config.thresholding;
    LabelParameters(
      config.patches, t.minActivePixels, t.imageThreshold, t.uvThreshold, t.aoThreshold,
      base, Join(base, IMAGES_OUTPUT_DIR), Join(base, LABELS_OUTPUT_DIR))
  }

  /** The images and labels directories are `images` and `labels` inside
      the base directory, which ends with the configured output directory. */
  lemma LabelDirectories(config: LabelConfig, outputDirectory: string, cwd: string)
    ensures var p := LoadLabelParameters(config, outputDirectory, cwd);
      EndsWith(p.baseOutputDirectory, outputDirectory)
      && StartsWith(p.imageOutputDirectory, p.baseOutputDirectory) && EndsWith(p.imageOutputDirectory, IMAGES_OUTPUT_DIR)
      && StartsWith(p.labelOutputDirectory, p.baseOutputDirectory) && EndsWith(p.labelOutputDirectory, LABELS_OUTPUT_DIR)
  {
    var base := BaseOutputDirectory(outputDirectory, cwd);
    Relative(IMAGES_OUTPUT_DIR);
    Relative(LABELS_OUTPUT_DIR);
    JoinEndsWith(base, IMAGES_OUTPUT_DIR);
    JoinEndsWith(base, LABELS_OUTPUT_DIR);
  }

  lemma JoinEndsWith(a: string, b: string)
    ensures EndsWith(Join(a, b), b)
  {
    var r := Join(a, b);
    assert r[|r| - |b|..] == b;
  }

  /** Images and labels never land in the same directory. */
  lemma OutputDirectoriesDiffer(config: LabelConfig, outputDirectory: string, cwd: string)
    ensures var p := LoadLabelParameters(config, outputDirectory, cwd);
      p.imageOutputDirectory != p.labelOutputDirectory
  {
    var base := BaseOutputDirectory(outputDirectory, cwd);
    if Join(base, IMAGES_OUTPUT_DIR) == Join(base, LABELS_OUTPUT_DIR) {
      assert !StartsWith(IMAGES_OUTPUT_DIR, [SEP]) && !StartsWith(LABELS_OUTPUT_DIR, [SEP]);
      JoinInjective(base, IMAGES_OUTPUT_DIR, LABELS_OUTPUT_DIR);
    }
  }
}
