/** The two `SceneParameterGenerator.__call__`s of the dataset pipeline.
    The one in `operations/generators/scene_parameter_generator.py` places
    the camera within the configured ranges, as a render iteration does; the
    one in `operations/scene_parameter_generator.py` uses fixed ranges and
    turns the camera towards the crack by moving it rather than by turning
    it.

    The six draws of `np.random.random_sample(6)` are an input, and each
    `np.random.choice` is an input index into its list; choosing from an
    empty list, where NumPy raises `ValueError`, gives None. */
module SceneParameterGenerator {
  import opened Numeric
  import opened Parameters
  import opened RenderIteration

  /** `np.random.choice(xs)` with the draw `k`: None on an empty list. */
  function Choose<T>(xs: seq<T>, k: nat): (r: Option<T>)
    ensures r.None? <==> |xs| == 0
    ensures r.Some? ==> r.value in xs
  {
    if |xs| == 0 then None else Some(xs[k % |xs|])
  }

  /** `SceneParameters` of `operations/generators`: a scene, a wall
      material, a world texture and the camera's placement. */
  datatype SceneParameters<S, M, W> = SceneParameters(
    scene: S,
    wallMaterial: M,
    worldTexture: W,
    cameraTranslation: Triple,
    cameraRotation: Triple)

  /** `operations/generators/scene_parameter_generator.py`: the camera is
      placed as `SampleCamera` places it, and the three assets are drawn
      from their lists. */
  method Generate<S, M, W>(camera: CameraParameters, scenes: seq<S>, wallMaterials: seq<M>, worldTextures: seq<W>,
                           draws: seq<real>, choices: (nat, nat, nat))
    returns (r: Option<SceneParameters<S, M, W>>)
    requires |draws| == 6
    ensures r.None? <==> |scenes| == 0 || |wallMaterials| == 0 || |worldTextures| == 0
    ensures r.Some? ==>
      r.value.scene in scenes && r.value.wallMaterial in wallMaterials && r.value.worldTexture in worldTextures
      && r.value.cameraTranslation
         == InterpolateTriple(camera.translationMin, camera.translationMax, Triple(draws[0], draws[1], draws[2]))
      && FacesCrack(r.value.cameraTranslation, r.value.cameraRotation)
      && var raw := InterpolateTriple(camera.rotationMin, camera.rotationMax, Triple(draws[3], draws[4], draws[5]));
         r.value.cameraRotation.y == raw.y
         && (r.value.cameraRotation.x == raw.x || r.value.cameraRotation.x == -raw.x)
         && (r.value.cameraRotation.z == raw.z || r.value.cameraRotation.z == -raw.z)
         && (r.value.cameraRotation.x != raw.x <==> raw.x < 0.0 && r.value.cameraTranslation.z < 0.0)
         && (r.value.cameraRotation.z != raw.z <==> raw.z < 0.0 && r.value.cameraTranslation.x < 0.0)
  {
    var translation, rotation := SampleCamera(camera, draws);
    var scene := Choose(scenes, choices.0);
    var wallMaterial := Choose(wallMaterials, choices.1);
    var worldTexture := Choose(worldTextures, choices.2);
    if scene.None? || wallMaterial.None? || worldTexture.None? {
      return None;
    }
    return Some(SceneParameters(scene.value, wallMaterial.value, worldTexture.value, translation, rotation));
  }

  /** `np.pi` as a double. */
  const PI: real := 3.141592653589793

  const MIN_ANGLE: real := -PI / 16.0
  const MAX_ANGLE: real := PI / 16.0
  const MIN_XZ_DISTANCE: real := -0.2
  const MAX_XZ_DISTANCE: real := 0.2
  const MIN_Y_DISTANCE: real := -1.0
  const MAX_Y_DISTANCE: real := -0.5

  /** The lists of `MaterialsContainer`. */
  datatype MaterialsContainer<B, T, C, W> = MaterialsContainer(
    brickMaterials: seq<B>,
    mortarMaterials: seq<T>,
    crackMaterials: seq<C>,
    worldTextures: seq<W>)

  /** `SceneParameters` of `operations`: the four materials, the camera's
      placement and the name of the output file. */
  datatype MaterialSceneParameters<B, T, C, W> = MaterialSceneParameters(
    brickMaterial: B,
    mortarMaterial: T,
    crackMaterial: C,
    worldTexture: W,
    cameraTranslation: Triple,
    cameraRotation: Triple,
    outputFileName: string)

  /** No axis has both a negative rotation and a negative translation. */
  predicate AxesFaceCrack(translation: Triple, rotation: Triple)
  {
    !(rotation.x < 0.0 && translation.x < 0.0)
    && !(rotation.y < 0.0 && translation.y < 0.0)
    && !(rotation.z < 0.0 && translation.z < 0.0)
  }

  /** The camera of `operations/scene_parameter_generator.py` before its
      flips: rotation about x from draw 0 and about z from draw 2 in the
      angle range, none about y; translation from draws 3 to 5 in the fixed
      ranges. Draw 1 is not used. */
  function RawRotation(draws: seq<real>): Triple
    requires |draws| == 6
  {
    Triple(Interpolate(MIN_ANGLE, MAX_ANGLE, draws[0]), 0.0, Interpolate(MIN_ANGLE, MAX_ANGLE, draws[2]))
  }

  function RawTranslation(draws: seq<real>): Triple
    requires |draws| == 6
  {
    Triple(Interpolate(MIN_XZ_DISTANCE, MAX_XZ_DISTANCE, draws[3]),
           Interpolate(MIN_Y_DISTANCE, MAX_Y_DISTANCE, draws[4]),
           Interpolate(MIN_XZ_DISTANCE, MAX_XZ_DISTANCE, draws[5]))
  }

  /** The camera part of `operations/scene_parameter_generator.py`: along
      each axis whose rotation and translation are both negative, the
      translation is negated. The rotation is left alone, the translation
      only changes sign, and afterwards no axis points away from the crack. */
  method PlaceCamera(draws: seq<real>) returns (translation: Triple, rotation: Triple)
    requires |draws| == 6
    ensures rotation == RawRotation(draws)
    ensures var raw := RawTranslation(draws);
      (translation.x != raw.x <==> rotation.x < 0.0 && raw.x < 0.0) && (translation.x == raw.x || translation.x == -raw.x)
      && (translation.y != raw.y <==> rotation.y < 0.0 && raw.y < 0.0) && (translation.y == raw.y || translation.y == -raw.y)
      && (translation.z != raw.z <==> rotation.z < 0.0 && raw.z < 0.0) && (translation.z == raw.z || translation.z == -raw.z)
    ensures AxesFaceCrack(translation, rotation)
  {
    var angleDiff := MAX_ANGLE - MIN_ANGLE;
    var xzDistanceDiff := MAX_XZ_DISTANCE - MIN_XZ_DISTANCE;
    var yDistanceDiff := MAX_Y_DISTANCE - MIN_Y_DISTANCE;
    var cameraRotation := Triple(MIN_ANGLE + draws[0] * angleDiff, 0.0, MIN_ANGLE + draws[2] * angleDiff);
    var cameraTranslation := Triple(
      MIN_XZ_DISTANCE + draws[3] * xzDistanceDiff,
      MIN_Y_DISTANCE + draws[4] * yDistanceDiff,
      MIN_XZ_DISTANCE + draws[5] * xzDistanceDiff);
    if cameraRotation.x < 0.0 && cameraTranslation.x < 0.0 {
      cameraTranslation := cameraTranslation.(x := -cameraTranslation.x);
    }
    if cameraRotation.y < 0.0 && cameraTranslation.y < 0.0 {
      cameraTranslation := cameraTranslation.(y := -cameraTranslation.y);
    }
    if cameraRotation.z < 0.0 && cameraTranslation.z < 0.0 {
      cameraTranslation := cameraTranslation.(z := -cameraTranslation.z);
    }
    translation, rotation := cameraTranslation, cameraRotation;
  }

  /** `operations/scene_parameter_generator.py`: the camera placed by
      `PlaceCamera` and the four materials drawn from their lists. */
  method GenerateWithMaterials<B, T, C, W>(outputFileName: string, materials: MaterialsContainer<B, T, C, W>,
                                           draws: seq<real>, choices: (nat, nat, nat, nat))
    returns (r: Option<MaterialSceneParameters<B, T, C, W>>)
    requires |draws| == 6
    ensures r.None? <==> |materials.brickMaterials| == 0 || |materials.mortarMaterials| == 0
                         || |materials.crackMaterials| == 0 || |materials.worldTextures| == 0
    ensures r.Some? ==>
      r.value.brickMaterial in materials.brickMaterials && r.value.mortarMaterial in materials.mortarMaterials
      && r.value.crackMaterial in materials.crackMaterials && r.value.worldTexture in materials.worldTextures
      && r.value.outputFileName == outputFileName
      && r.value.cameraRotation == RawRotation(draws)
      && AxesFaceCrack(r.value.cameraTranslation, r.value.cameraRotation)
      && var raw := RawTranslation(draws);
         var t := r.value.cameraTranslation;
         (t.x != raw.x <==> RawRotation(draws).x < 0.0 && raw.x < 0.0) && (t.x == raw.x || t.x == -raw.x)
         && t.y == raw.y
         && (t.z != raw.z <==> RawRotation(draws).z < 0.0 && raw.z < 0.0) && (t.z == raw.z || t.z == -raw.z)
  {
    var translation, rotation := PlaceCamera(draws);
    var brick := Choose(materials.brickMaterials, choices.0);
    var mortar := Choose(materials.mortarMaterials, choices.1);
    var crack := Choose(materials.crackMaterials, choices.2);
    var world := Choose(materials.worldTextures, choices.3);
    if brick.None? || mortar.None? || crack.None? || world.None? {
      return None;
    }
    return Some(MaterialSceneParameters(brick.value, mortar.value, crack.value, world.value,
                                        translation, rotation, outputFileName));
  }

  /** The rotation about y is zero, so the flip along y never fires: the
      translation along y keeps its draw. */
  lemma SecondFlipNeverFires(draws: seq<real>)
    requires |draws| == 6
    ensures !(RawRotation(draws).y < 0.0)
  {
  }

  /** With draws from `[0, 1)`, both angles lie in `[-pi/16, pi/16)`, and
      before the flips the translation lies in `[-0.2, 0.2)` along x and z
      and in `[-1.0, -0.5)` along y. */
  lemma PlacementRanges(draws: seq<real>)
    requires |draws| == 6 && forall i :: 0 <= i < 6 ==> 0.0 <= draws[i] < 1.0
    ensures var rotation := RawRotation(draws);
      MIN_ANGLE <= rotation.x < MAX_ANGLE && MIN_ANGLE <= rotation.z < MAX_ANGLE
    ensures var translation := RawTranslation(draws);
      MIN_XZ_DISTANCE <= translation.x < MAX_XZ_DISTANCE
      && MIN_Y_DISTANCE <= translation.y < MAX_Y_DISTANCE
      && MIN_XZ_DISTANCE <= translation.z < MAX_XZ_DISTANCE
  {
    InterpolateInRange(MIN_ANGLE, MAX_ANGLE, draws[0]);
    InterpolateInRange(MIN_ANGLE, MAX_ANGLE, draws[2]);
    InterpolateInRange(MIN_XZ_DISTANCE, MAX_XZ_DISTANCE, draws[3]);
    InterpolateInRange(MIN_Y_DISTANCE, MAX_Y_DISTANCE, draws[4]);
    InterpolateInRange(MIN_XZ_DISTANCE, MAX_XZ_DISTANCE, draws[5]);
  }

  /** The camera always sits below the wall along y: the y translation stays
      in `[-1.0, -0.5)` after the flips as well. */
  lemma PlacedBelow(draws: seq<real>, translation: Triple)
    requires |draws| == 6 && forall i :: 0 <= i < 6 ==> 0.0 <= draws[i] < 1.0
    requires translation.y == RawTranslation(draws).y
    ensures MIN_Y_DISTANCE <= translation.y < MAX_Y_DISTANCE
  {
    InterpolateInRange(MIN_Y_DISTANCE, MAX_Y_DISTANCE, draws[4]);
  }
}
