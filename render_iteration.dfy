/** `src/dataset_generation/generate_render_iteration.py`: the random
    camera placement of one render and the retry loop that insists on a
    crack with enough height.

    The six draws of `np.random.random_sample(6)` are an input; so is the
    stream of cracks the crack generator would produce for the surface, and
    running out of that stream stands for the timeout. */
module RenderIteration {
  import opened Numeric
  import opened Parameters
  import opened CrackModel

  /** `min + r * (max - min)`: a draw `r` from `[0, 1)` mapped onto the
      range; it lies in `[min, max)` when the range is not empty. */
  function Interpolate(lo: real, hi: real, r: real): (v: real)
  {
    lo + r * (hi - lo)
  }

  lemma InterpolateInRange(lo: real, hi: real, r: real)
    requires 0.0 <= r < 1.0 && lo <= hi
    ensures lo <= Interpolate(lo, hi, r) <= hi
    ensures lo < hi ==> Interpolate(lo, hi, r) < hi
    ensures lo == hi ==> Interpolate(lo, hi, r) == lo
  {
    var d := hi - lo;
    MulNonNegative(r, d);
    MulNonNegative(1.0 - r, d);
    assert r * d + (1.0 - r) * d == d;
    if lo < hi {
      MulPositive(1.0 - r, d);
    }
  }

  /** The draws `r` interpolated axis by axis between `lo` and `hi`. */
  function InterpolateTriple(lo: Triple, hi: Triple, r: Triple): Triple
  {
    Triple(Interpolate(lo.x, hi.x, r.x), Interpolate(lo.y, hi.y, r.y), Interpolate(lo.z, hi.z, r.z))
  }

  /** Each component of `t` lies between those of `lo` and `hi`. */
  predicate Within(lo: Triple, hi: Triple, t: Triple)
  {
    lo.x <= t.x <= hi.x && lo.y <= t.y <= hi.y && lo.z <= t.z <= hi.z
  }

  lemma InterpolateTripleWithin(lo: Triple, hi: Triple, r: Triple)
    requires 0.0 <= r.x < 1.0 && 0.0 <= r.y < 1.0 && 0.0 <= r.z < 1.0
    requires lo.x <= hi.x && lo.y <= hi.y && lo.z <= hi.z
    ensures Within(lo, hi, InterpolateTriple(lo, hi, r))
  {
    InterpolateInRange(lo.x, hi.x, r.x);
    InterpolateInRange(lo.y, hi.y, r.y);
    InterpolateInRange(lo.z, hi.z, r.z);
  }

  /** The camera points at the crack: not tilted down about x while in
      front along z, and not turned about z while to the left along x. */
  predicate FacesCrack(translation: Triple, rotation: Triple)
  {
    !(rotation.x < 0.0 && translation.z < 0.0) && !(rotation.z < 0.0 && translation.x < 0.0)
  }

  /** The camera part of `generate_render_iteration`: draws 0 to 2 place the
      camera and draws 3 to 5 turn it, then a rotation about x (about z)
      that is negative while the translation along z (along x) is negative
      is negated. The translation is left alone, the rotation only changes
      sign, and the camera ends up facing the crack. */
  method SampleCamera(camera: CameraParameters, draws: seq<real>) returns (translation: Triple, rotation: Triple)
    requires |draws| == 6
    ensures translation == InterpolateTriple(camera.translationMin, camera.translationMax, Triple(draws[0], draws[1], draws[2]))
    ensures var raw := InterpolateTriple(camera.rotationMin, camera.rotationMax, Triple(draws[3], draws[4], draws[5]));
      rotation.y == raw.y
      && (rotation.x == raw.x || rotation.x == -raw.x) && (rotation.z == raw.z || rotation.z == -raw.z)
      && (rotation.x != raw.x <==> raw.x < 0.0 && translation.z < 0.0)
      && (rotation.z != raw.z <==> raw.z < 0.0 && translation.x < 0.0)
    ensures FacesCrack(translation, rotation)
  {
    var c := camera;
    var cameraTranslation := InterpolateTriple(c.translationMin, c.translationMax, Triple(draws[0], draws[1], draws[2]));
    var cameraRotation := InterpolateTriple(c.rotationMin, c.rotationMax, Triple(draws[3], draws[4], draws[5]));
    if cameraRotation.x < 0.0 && cameraTranslation.z < 0.0 {
      cameraRotation := cameraRotation.(x := -cameraRotation.x);
    }
    if cameraRotation.z < 0.0 && cameraTranslation.x < 0.0 {
      cameraRotation := cameraRotation.(z := -cameraRotation.z);
    }
    translation, rotation := cameraTranslation, cameraRotation;
  }

  /** With draws from `[0, 1)` and ordered ranges, the translation lies in
      its range, and so does each rotation before its sign flip. */
  lemma SampleCameraRanges(camera: CameraParameters, draws: seq<real>)
    requires |draws| == 6 && forall i :: 0 <= i < 6 ==> 0.0 <= draws[i] < 1.0
    requires camera.translationMin.x <= camera.translationMax.x
    requires camera.translationMin.y <= camera.translationMax.y
    requires camera.translationMin.z <= camera.translationMax.z
    requires camera.rotationMin.x <= camera.rotationMax.x
    requires camera.rotationMin.y <= camera.rotationMax.y
    requires camera.rotationMin.z <= camera.rotationMax.z
    ensures Within(camera.translationMin, camera.translationMax,
                   InterpolateTriple(camera.translationMin, camera.translationMax, Triple(draws[0], draws[1], draws[2])))
    ensures Within(camera.rotationMin, camera.rotationMax,
                   InterpolateTriple(camera.rotationMin, camera.rotationMax, Triple(draws[3], draws[4], draws[5])))
  {
    InterpolateTripleWithin(camera.translationMin, camera.translationMax, Triple(draws[0], draws[1], draws[2]));
    InterpolateTripleWithin(camera.rotationMin, camera.rotationMax, Triple(draws[3], draws[4], draws[5]));
  }

  /** `np.sum` of a height map. */
  function HeightSum(cells: seq<seq<real>>): real
  {
    if |cells| == 0 then 0.0 else HeightSum(cells[..|cells| - 1]) + Sum(cells[|cells| - 1])
  }

  /** The crack has at least `minPixels` of height in total. */
  predicate HighEnough(crack: Crack, minPixels: int)
  {
    HeightSum(crack.heightMap.cells) >= minPixels as real
  }

  /** `generate_crack`: the first crack of the stream with enough height;
      None when every crack of the stream is too flat. */
  method GenerateCrack(candidates: seq<Crack>, minPixels: int) returns (r: Option<Crack>)
    ensures r.None? <==> forall k :: 0 <= k < |candidates| ==> !HighEnough(candidates[k], minPixels)
    ensures r.Some? ==> exists k ::
      (0 <= k < |candidates| && r.value == candidates[k] && HighEnough(candidates[k], minPixels)
       && forall j :: 0 <= j < k ==> !HighEnough(candidates[j], minPixels))
  {
    if |candidates| == 0 {
      return None;
    }
    var i := 0;
    var crack := candidates[0];
    while HeightSum(crack.heightMap.cells) < minPixels as real
      invariant 0 <= i < |candidates| && crack == candidates[i]
      invariant forall j :: 0 <= j < i ==> !HighEnough(candidates[j], minPixels)
      decreases |candidates| - i
    {
      if i + 1 == |candidates| {
        return None;
      }
      i := i + 1;
      crack := candidates[i];
    }
    return Some(crack);
  }
}
