/** `src/dataset_generation/render_crack.py`: after a render, either drop
    the render (too little crack in its label), cut it into patches, or
    keep it whole under the iteration's number.

    The render itself and the two `cv2.imread`s are inputs: `image` is the
    rendered image and `labels` channel 0 of the rendered label. */
module RenderCrack {
  import opened Numeric
  import opened Text
  import opened Patches
  import opened Parameters

  /** `image.shape[0] // num_patches`, the side of a tile. */
  function StepSize(rows: nat, n: int): (step: nat)
    requires n > 0
    ensures step == rows / n
  {
    rows / n
  }

  /** The writes of a render cut into `num_patches` by `num_patches`
      tiles, numbered from the iteration index. */
  function PatchWrites<P>(parameters: LabelParameters, iteration: int, image: seq<seq<P>>, labels: seq<seq<int>>): seq<PatchWrite>
    requires parameters.numPatches > 1
  {
    var p := parameters;
    WritesOf(Kept(ActiveIn(labels, p.minActivePixels), StepSize(|image|, p.numPatches), p.numPatches, p.numPatches),
             iteration, NumberedIn(p.imageOutputDirectory), NumberedIn(p.labelOutputDirectory))
  }

  /** The files a render turns into, in the order they are written. */
  function RenderWrites<P>(parameters: LabelParameters, iteration: int, image: seq<seq<P>>, labels: seq<seq<int>>): seq<PatchWrite>
  {
    var p := parameters;
    if Total(labels) < p.minActivePixels then []
    else if p.numPatches > 1 then PatchWrites(p, iteration, image, labels)
    else [WholeWrite(Join(p.imageOutputDirectory, CrackName(iteration)), Join(p.labelOutputDirectory, CrackName(iteration)))]
  }

  /** `render_crack`: the number of output images, which is the number of
      image files written; a render that survives the label check but is
      not cut up is written whole once, and a cut one yields at most
      `num_patches * num_patches` patches. */
  method RenderCrack<P>(parameters: LabelParameters, iteration: int, image: seq<seq<P>>, labels: seq<seq<int>>)
    returns (count: nat, writes: seq<PatchWrite>)
    ensures writes == RenderWrites(parameters, iteration, image, labels)
    ensures count == |writes|
    ensures Total(labels) < parameters.minActivePixels ==> count == 0
    ensures Total(labels) >= parameters.minActivePixels && parameters.numPatches <= 1 ==> count == 1
    ensures parameters.numPatches > 1 ==> count <= parameters.numPatches * parameters.numPatches
  {
    var p := parameters;
    if Total(labels) < p.minActivePixels {
      return 0, [];
    }
    if p.numPatches > 1 {
      var n: nat := p.numPatches;
      var step: nat := |image| / n;
      ghost var kept := Kept(ActiveIn(labels, p.minActivePixels), step, n, n);
      var r;
      r, writes := GeneratePatches(image, labels, n, p.minActivePixels, iteration,
                                   NumberedIn(p.imageOutputDirectory), NumberedIn(p.labelOutputDirectory));
      KeptCount(ActiveIn(labels, p.minActivePixels), step, n, n);
      assert |kept| <= n * n;
      return r.value, writes;
    }
    var fileName := CrackName(iteration);
    writes := [WholeWrite(Join(p.imageOutputDirectory, fileName), Join(p.labelOutputDirectory, fileName))];
    return 1, writes;
  }

  /** Every image lands in the image directory and every label in the label
      directory. */
  lemma RenderWritesInDirectories<P>(parameters: LabelParameters, iteration: int, image: seq<seq<P>>,
                                     labels: seq<seq<int>>, i: nat)
    requires i < |RenderWrites(parameters, iteration, image, labels)|
    ensures var w := RenderWrites(parameters, iteration, image, labels)[i];
      StartsWith(w.imagePath, parameters.imageOutputDirectory)
      && StartsWith(w.labelPath, parameters.labelOutputDirectory)
  {
    if Total(labels) >= parameters.minActivePixels && parameters.numPatches > 1 {
      PatchWritesInDirectories(parameters, iteration, image, labels, i);
    } else {
      assert !StartsWith(CrackName(iteration), [SEP]);
    }
  }

  lemma PatchWritesInDirectories<P>(parameters: LabelParameters, iteration: int, image: seq<seq<P>>,
                                    labels: seq<seq<int>>, i: nat)
    requires parameters.numPatches > 1 && i < |PatchWrites(parameters, iteration, image, labels)|
    ensures var w := PatchWrites(parameters, iteration, image, labels)[i];
      StartsWith(w.imagePath, parameters.imageOutputDirectory)
      && StartsWith(w.labelPath, parameters.labelOutputDirectory)
  {
    var p := parameters;
    NumberedWritesInDirectories(Kept(ActiveIn(labels, p.minActivePixels), StepSize(|image|, p.numPatches), p.numPatches, p.numPatches),
                                iteration, p.imageOutputDirectory, p.labelOutputDirectory, i);
  }

  /** No two writes of one render share an image file or a label file. */
  lemma RenderWritesDistinct<P>(parameters: LabelParameters, iteration: int, image: seq<seq<P>>,
                                labels: seq<seq<int>>, i: nat, j: nat)
    requires i < j < |RenderWrites(parameters, iteration, image, labels)|
    ensures var w := RenderWrites(parameters, iteration, image, labels);
      w[i].imagePath != w[j].imagePath && w[i].labelPath != w[j].labelPath
  {
    if Total(labels) >= parameters.minActivePixels && parameters.numPatches > 1 {
      PatchWritesDistinct(parameters, iteration, image, labels, i, j);
    }
  }

  lemma PatchWritesDistinct<P>(parameters: LabelParameters, iteration: int, image: seq<seq<P>>,
                               labels: seq<seq<int>>, i: nat, j: nat)
    requires parameters.numPatches > 1 && i < j < |PatchWrites(parameters, iteration, image, labels)|
    ensures var w := PatchWrites(parameters, iteration, image, labels);
      w[i].imagePath != w[j].imagePath && w[i].labelPath != w[j].labelPath
  {
    var p := parameters;
    NumberedWritesDistinct(Kept(ActiveIn(labels, p.minActivePixels), StepSize(|image|, p.numPatches), p.numPatches, p.numPatches),
                           iteration, p.imageOutputDirectory, p.labelOutputDirectory, i, j);
  }
}
