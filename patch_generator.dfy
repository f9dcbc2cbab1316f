/** The two `PatchGenerator.__call__`s of the dataset pipeline: one reads a
    render from an images and a labels directory and writes its patches
    back into them (`operations/generators/patch_generator.py`), the other
    reads `name.png` and `name-label.png` and writes its patches into the
    working directory (`operations/patch_generator.py`). Both number their
    patches from the integer after the `crack-` prefix of the render's
    name, and both cut the picture with the shared tiling of `Patches`.

    The two `cv2.imread`s are inputs. A label pixel is the sum of its three
    colour channels, so that the label sum of a tile is `np.sum` of the
    three-channel crop. */
module PatchGenerator {
  import opened Numeric
  import opened Text
  import opened Patches

  /** `file_name[6:]`: empty when the name has six characters or fewer. */
  function AfterPrefix(fileName: string): (rest: string)
    ensures |fileName| > 6 ==> fileName == fileName[..6] + rest
    ensures |fileName| <= 6 ==> rest == []
  {
    if |fileName| <= 6 then [] else fileName[6..]
  }

  /** `int(file_name[6:])`: None where Python raises `ValueError`. */
  function StartIndex(fileName: string): Option<int>
  {
    ParseInt(AfterPrefix(fileName))
  }

  /** A render named `crack-{k}` numbers its patches from `k`. */
  lemma StartIndexOfCrack(k: int)
    ensures StartIndex("crack-" + IntToString(k)) == Some(k)
  {
    var name := "crack-" + IntToString(k);
    assert AfterPrefix(name) == IntToString(k);
    ParseIntToString(k);
  }

  /** The fields of `LabelGenerationParameters` the tiling reads. */
  datatype LabelGenerationParameters = LabelGenerationParameters(
    numPatches: int,
    minActivePixels: int,
    minRgbValue: (int, int, int),
    maxRgbValue: (int, int, int))

  /** `operations/generators/patch_generator.py`: None where the name does
      not end in an integer or `num_patches` is zero (the two exceptions);
      otherwise the number of tiles whose label sum exceeds
      `min_active_pixels`, their image and label tiles written as
      `crack-{idx + k}.png` into the images and the labels directory. */
  method GenerateInDirectories<P>(fileName: string, imagesDirectory: string, labelsDirectory: string,
                                  parameters: LabelGenerationParameters, image: seq<seq<P>>, labels: seq<seq<int>>)
    returns (r: Option<nat>, writes: seq<PatchWrite>)
    ensures r.None? <==> StartIndex(fileName).None? || parameters.numPatches == 0
    ensures r.None? ==> writes == []
    ensures r.Some? && parameters.numPatches < 0 ==> r.value == 0 && writes == []
    ensures r.Some? && parameters.numPatches > 0 ==>
      (var n := parameters.numPatches;
       var kept := Kept(ActiveIn(labels, parameters.minActivePixels), |image| / n, n, n);
       r.value == |kept| <= n * n
       && writes == WritesOf(kept, StartIndex(fileName).value, NumberedIn(imagesDirectory), NumberedIn(labelsDirectory)))
  {
    var idx := StartIndex(fileName);
    if idx.None? {
      return None, [];
    }
    if parameters.numPatches <= 0 {
      r, writes := GeneratePatches(image, labels, parameters.numPatches, parameters.minActivePixels, idx.value, NumberedIn(imagesDirectory), NumberedIn(labelsDirectory));
      return;
    }
    var n: nat := parameters.numPatches;
    ghost var kept := Kept(ActiveIn(labels, parameters.minActivePixels), |image| / n, n, n);
    r, writes := GeneratePatches(image, labels, n, parameters.minActivePixels, idx.value, NumberedIn(imagesDirectory), NumberedIn(labelsDirectory));
    KeptCount(ActiveIn(labels, parameters.minActivePixels), |image| / n, n, n);
    assert |kept| <= n * n;
  }

  /** The threshold of `operations/patch_generator.py`. */
  const MIN_ACTIVE_PIXELS: int := 0

  /** The file name `crack-{k}-label.png`. */
  function LabelName(k: int): string
  {
    "crack-" + IntToString(k) + "-label.png"
  }

  /** `operations/patch_generator.py`: None where the name does not end in
      an integer or `patches_per_dimension` is zero; otherwise the number of
      tiles holding any label at all, written as `crack-{idx + k}.png` and
      `crack-{idx + k}-label.png`. */
  method GenerateInPlace<P>(fileName: string, patchesPerDimension: int, image: seq<seq<P>>, labels: seq<seq<int>>)
    returns (r: Option<nat>, writes: seq<PatchWrite>)
    ensures r.None? <==> StartIndex(fileName).None? || patchesPerDimension == 0
    ensures r.None? ==> writes == []
    ensures r.Some? && patchesPerDimension < 0 ==> r.value == 0 && writes == []
    ensures r.Some? && patchesPerDimension > 0 ==>
      (var n := patchesPerDimension;
       var kept := Kept(ActiveIn(labels, MIN_ACTIVE_PIXELS), |image| / n, n, n);
       r.value == |kept| <= n * n
       && writes == WritesOf(kept, StartIndex(fileName).value, CrackName, LabelName))
  {
    var idx := StartIndex(fileName);
    if idx.None? {
      return None, [];
    }
    if patchesPerDimension <= 0 {
      r, writes := GeneratePatches(image, labels, patchesPerDimension, MIN_ACTIVE_PIXELS, idx.value, CrackName, LabelName);
      return;
    }
    var n: nat := patchesPerDimension;
    ghost var kept := Kept(ActiveIn(labels, MIN_ACTIVE_PIXELS), |image| / n, n, n);
    r, writes := GeneratePatches(image, labels, n, MIN_ACTIVE_PIXELS, idx.value, CrackName, LabelName);
    KeptCount(ActiveIn(labels, MIN_ACTIVE_PIXELS), |image| / n, n, n);
    assert |kept| <= n * n;
  }

  /** With the zero threshold a tile is kept exactly when its label sum is
      positive. */
  lemma KeptInPlaceIffPositive(labels: seq<seq<int>>, rect: Rect)
    ensures ActiveIn(labels, MIN_ACTIVE_PIXELS)(rect) <==> Total(Crop(labels, rect)) > 0
  {
  }

  /** An image patch never overwrites a label patch, whatever the numbers. */
  lemma ImageNameIsNoLabelName(j: int, k: int)
    ensures CrackName(j) != LabelName(k)
  {
    var s := IntToString(j);
    IntToStringEndsInDigit(j);
    var image, labelName := CrackName(j), LabelName(k);
    var i := |image| - 5;
    assert image[i] == s[|s| - 1];
    if |labelName| == |image| {
      assert labelName[i] == 'l';
    }
  }

  lemma LabelNameInjective(j: int, k: int)
    requires LabelName(j) == LabelName(k)
    ensures j == k
  {
    AffixInjective("crack-", IntToString(j), IntToString(k), "-label.png");
    IntToStringInjective(j, k);
  }

  lemma CrackNameInjective(j: int, k: int)
    requires CrackName(j) == CrackName(k)
    ensures j == k
  {
    AffixInjective("crack-", IntToString(j), IntToString(k), ".png");
    IntToStringInjective(j, k);
  }

  /** No image patch of one call has a label patch's name. */
  lemma InPlaceImagesAreNoLabels(kept: seq<Rect>, first: int, i: nat, j: nat)
    requires i < |kept| && j < |kept|
    ensures var w := WritesOf(kept, first, CrackName, LabelName);
      w[i].imagePath != w[j].labelPath
  {
    ImageNameIsNoLabelName(first + i, first + j);
    WritesCrossDistinct(kept, first, CrackName, LabelName, i, j);
  }

  /** No two patches of one call share an image name or a label name. */
  lemma InPlaceWritesDistinct(kept: seq<Rect>, first: int, i: nat, j: nat)
    requires i < j < |kept|
    ensures var w := WritesOf(kept, first, CrackName, LabelName);
      w[i].imagePath != w[j].imagePath && w[i].labelPath != w[j].labelPath
  {
    NamesDiffer(first + i, first + j);
    WritesDistinct(kept, first, CrackName, LabelName, i, j);
  }

  /** Different numbers give different image names and different label
      names. */
  lemma NamesDiffer(j: int, k: int)
    requires j != k
    ensures CrackName(j) != CrackName(k) && LabelName(j) != LabelName(k)
  {
    if CrackName(j) == CrackName(k) {
      CrackNameInjective(j, k);
    }
    if LabelName(j) == LabelName(k) {
      LabelNameInjective(j, k);
    }
  }
}
