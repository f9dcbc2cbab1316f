/** The tiling shared by `render_crack.generate_patches` and both
    `PatchGenerator`s: the image is cut into `n` by `n` square tiles of side
    `rows // n`, row by row, and every tile whose label sum exceeds the
    threshold is written out, image tile and label tile, under consecutive
    numbers.

    Pictures are sequences of rows. A label pixel is the integer NumPy sums
    for it (the one channel `render_crack` keeps, or the sum of the three
    channels `cv2.imread` returns); image pixels are of any type `P`. File
    writes are returned as a log of `Write`s, in the order they happen. */
module Patches {
  import opened Numeric
  import opened Text

  /** Rows `top..bottom` and columns `left..right`, ends excluded. */
  datatype Rect = Rect(top: nat, bottom: nat, left: nat, right: nat)

  /** The two `cv2.imwrite`s of one kept tile: first the image tile
      `Crop(image, tile)` to `imagePath`, then the label tile
      `Crop(labels, tile)` to `labelPath`. */
  datatype PatchWrite =
    | PatchWrite(imagePath: string, labelPath: string, tile: Rect)
      /** The whole image to `imagePath` and the whole label to `labelPath`. */
    | WholeWrite(imagePath: string, labelPath: string)

  /** NumPy's `s[lo:hi]` for non-negative bounds: both are clamped to the
      length, and a reversed range is empty. */
  function Slice<T>(s: seq<T>, lo: nat, hi: nat): seq<T>
  {
    if lo >= |s| || hi <= lo then [] else s[lo..MinInt(hi, |s|)]
  }

  /** `picture[top:bottom, left:right]`. */
  function Crop<T>(picture: seq<seq<T>>, rect: Rect): seq<seq<T>>
  {
    var rows := Slice(picture, rect.top, rect.bottom);
    seq(|rows|, i requires 0 <= i < |rows| => Slice(rows[i], rect.left, rect.right))
  }

  /** `np.sum` of a label. */
  function Total(labels: seq<seq<int>>): int
  {
    if |labels| == 0 then 0 else Total(labels[..|labels| - 1]) + SumInt(labels[|labels| - 1])
  }

  /** `k * step`, by repeated addition. */
  function Times(k: nat, step: nat): (r: nat)
  {
    if k == 0 then 0 else Times(k - 1, step) + step
  }

  lemma {:induction false} TimesIsProduct(k: nat, step: nat)
    ensures Times(k, step) == k * step
  {
    if k > 0 {
      TimesIsProduct(k - 1, step);
    }
  }

  /** The tile in row `r` and column `c` of the grid of side `step`: rows
      `r * step` to `(r + 1) * step` and columns `c * step` to
      `(c + 1) * step`. */
  function Tile(step: nat, r: nat, c: nat): Rect
  {
    Rect(Times(r, step), Times(r + 1, step), Times(c, step), Times(c + 1, step))
  }

  /** The tile holds more label than the threshold. */
  predicate Active(labels: seq<seq<int>>, rect: Rect, minActive: int)
  {
    Total(Crop(labels, rect)) > minActive
  }

  /** `Active` as a function value, the form the grid scan takes it in. */
  function ActiveIn(labels: seq<seq<int>>, minActive: int): (active: Rect -> bool)
    ensures forall rect :: active(rect) == Active(labels, rect, minActive)
  {
    rect => Active(labels, rect, minActive)
  }

  /** The active tiles among the first `cols` of grid row `r`, left to right. */
  function KeptInRow(active: Rect -> bool, step: nat, r: nat, cols: nat): (kept: seq<Rect>)
    ensures |kept| <= cols
  {
    if cols == 0 then []
    else
      var rect := Tile(step, r, cols - 1);
      KeptInRow(active, step, r, cols - 1) + (if active(rect) then [rect] else [])
  }

  /** The active tiles among the first `rows` grid rows of `n` tiles each,
      in the order the nested loops visit them. */
  function Kept(active: Rect -> bool, step: nat, rows: nat, n: nat): seq<Rect>
  {
    if rows == 0 then [] else Kept(active, step, rows - 1, n) + KeptInRow(active, step, rows - 1, n)
  }

  /** The writes for the kept tiles, in order: the `j`-th kept tile goes
      out as an image tile and a label tile, both numbered `first + j`. */
  function WritesOf(kept: seq<Rect>, first: int, imagePath: int -> string, labelPath: int -> string): (w: seq<PatchWrite>)
    ensures |w| == |kept|
  {
    if |kept| == 0 then []
    else
      var k := |kept| - 1;
      WritesOf(kept[..k], first, imagePath, labelPath) + [PatchWrite(imagePath(first + k), labelPath(first + k), kept[k])]
  }

  /** The `j`-th write holds the `j`-th kept tile under number `first + j`. */
  lemma {:induction false} WritesOfAt(kept: seq<Rect>, first: int, imagePath: int -> string, labelPath: int -> string, j: nat)
    requires j < |kept|
    ensures WritesOf(kept, first, imagePath, labelPath)[j] == PatchWrite(imagePath(first + j), labelPath(first + j), kept[j])
  {
    var k := |kept| - 1;
    if j < k {
      WritesOfAt(kept[..k], first, imagePath, labelPath, j);
    }
  }

  /** Logging one more kept tile extends the writes by its pair. */
  lemma WritesOfSnoc(writes: seq<PatchWrite>, kept: seq<Rect>, rect: Rect, first: int, count: int,
                     imagePath: int -> string, labelPath: int -> string)
    requires writes == WritesOf(kept, first, imagePath, labelPath) && count == |kept|
    ensures writes + [PatchWrite(imagePath(first + count), labelPath(first + count), rect)]
      == WritesOf(kept + [rect], first, imagePath, labelPath)
  {
    assert (kept + [rect])[..|kept|] == kept;
  }

  /** The patch loop: None where `rows // n` divides by zero; otherwise the
      number of kept tiles, having written each of them. */
  method GeneratePatches<P>(image: seq<seq<P>>, labels: seq<seq<int>>, n: int, minActive: int, first: int,
                            imagePath: int -> string, labelPath: int -> string)
    returns (r: Option<nat>, writes: seq<PatchWrite>)
    ensures r.None? <==> n == 0
    ensures n <= 0 ==> writes == []
    ensures n < 0 ==> r == Some(0)
    ensures n > 0 ==>
      (var kept := Kept(ActiveIn(labels, minActive), |image| / n, n, n);
       r == Some(|kept|) && writes == WritesOf(kept, first, imagePath, labelPath))
  {
    writes := [];
    if n == 0 {
      return None, writes;
    }
    if n < 0 {
      return Some(0), writes;
    }
    var step: nat := |image| / n;
    var count := 0;
    var row := 0;
    while row < n
      invariant 0 <= row <= n
      invariant count == |Kept(ActiveIn(labels, minActive), step, row, n)|
      invariant writes == WritesOf(Kept(ActiveIn(labels, minActive), step, row, n), first, imagePath, labelPath)
    {
      count, writes := ScanRow(labels, step, n, minActive, first, imagePath, labelPath, row, count, writes);
      row := row + 1;
    }
    r := Some(count);
  }

  /** The inner loop over the `n` tiles of grid row `row`, continuing the
      count and the writes of the rows before it. */
  method ScanRow(labels: seq<seq<int>>, step: nat, n: nat, minActive: int, first: int,
                    imagePath: int -> string, labelPath: int -> string, row: nat, count0: nat, writes0: seq<PatchWrite>)
    returns (count: nat, writes: seq<PatchWrite>)
    requires count0 == |Kept(ActiveIn(labels, minActive), step, row, n)|
    requires writes0 == WritesOf(Kept(ActiveIn(labels, minActive), step, row, n), first, imagePath, labelPath)
    ensures count == |Kept(ActiveIn(labels, minActive), step, row + 1, n)|
    ensures writes == WritesOf(Kept(ActiveIn(labels, minActive), step, row + 1, n), first, imagePath, labelPath)
  {
    ghost var before := Kept(ActiveIn(labels, minActive), step, row, n);
    ghost var kept := before;
    count, writes := count0, writes0;
    var col := 0;
    assert KeptInRow(ActiveIn(labels, minActive), step, row, col) == [];
    while col < n
      invariant 0 <= col <= n
      invariant kept == before + KeptInRow(ActiveIn(labels, minActive), step, row, col)
      invariant count == |kept| && writes == WritesOf(kept, first, imagePath, labelPath)
    {
      count, writes, kept := Visit(labels, minActive, step, row, col, first, imagePath, labelPath, count, writes, before, kept);
      col := col + 1;
    }
  }

  /** One tile of the inner loop: the tile in grid row `row` and column
      `col` is written out if it is active. */
  method Visit(labels: seq<seq<int>>, minActive: int, step: nat, row: nat, col: nat, first: int,
               imagePath: int -> string, labelPath: int -> string,
               count0: nat, writes0: seq<PatchWrite>, ghost before: seq<Rect>, ghost kept0: seq<Rect>)
    returns (count: nat, writes: seq<PatchWrite>, ghost kept: seq<Rect>)
    requires kept0 == before + KeptInRow(ActiveIn(labels, minActive), step, row, col)
    requires count0 == |kept0| && writes0 == WritesOf(kept0, first, imagePath, labelPath)
    ensures kept == before + KeptInRow(ActiveIn(labels, minActive), step, row, col + 1)
    ensures count == |kept| && writes == WritesOf(kept, first, imagePath, labelPath)
  {
    ghost var inRow := KeptInRow(ActiveIn(labels, minActive), step, row, col);
    count, writes, kept := count0, writes0, kept0;
    var rect := Tile(step, row, col);
    var labelPatch := Crop(labels, rect);
    if Total(labelPatch) > minActive {
      WritesOfSnoc(writes, kept, rect, first, count, imagePath, labelPath);
      writes := writes + [PatchWrite(imagePath(first + count), labelPath(first + count), rect)];
      assert before + inRow + [rect] == before + (inRow + [rect]);
      kept := kept + [rect];
      count := count + 1;
    } else {
      assert inRow + [] == inRow;
    }
  }

  /** Every tile kept from grid row `r` is one of its first `cols` tiles
      and is active. */
  lemma {:induction false} KeptInRowSound(active: Rect -> bool, step: nat, r: nat, cols: nat, rect: Rect)
    returns (c: nat)
    requires rect in KeptInRow(active, step, r, cols)
    ensures active(rect)
    ensures c < cols && rect == Tile(step, r, c)
  {
    if rect in KeptInRow(active, step, r, cols - 1) {
      c := KeptInRowSound(active, step, r, cols - 1, rect);
    } else {
      c := cols - 1;
    }
  }

  /** Every active tile among the first `cols` of grid row `r` is kept. */
  lemma {:induction false} KeptInRowComplete(active: Rect -> bool, step: nat, r: nat, c: nat, cols: nat)
    requires c < cols && active(Tile(step, r, c))
    ensures Tile(step, r, c) in KeptInRow(active, step, r, cols)
  {
    if c < cols - 1 {
      KeptInRowComplete(active, step, r, c, cols - 1);
    }
  }

  /** Every kept tile lies in the first `rows` rows of the `n`-wide grid
      and its label sum exceeds the threshold. */
  lemma {:induction false} KeptSound(active: Rect -> bool, step: nat, rows: nat, n: nat, rect: Rect)
    returns (r: nat, c: nat)
    requires rect in Kept(active, step, rows, n)
    ensures active(rect)
    ensures r < rows && c < n && rect == Tile(step, r, c)
  {
    var last := KeptLast(active, step, rows, n, rect);
    if last {
      r := rows - 1;
      c := KeptInRowSound(active, step, r, n, rect);
    } else {
      r, c := KeptSound(active, step, rows - 1, n, rect);
    }
  }

  /** A kept tile comes from the last row of the grid or from the rows
      before it. */
  lemma KeptLast(active: Rect -> bool, step: nat, rows: nat, n: nat, rect: Rect) returns (last: bool)
    requires rect in Kept(active, step, rows, n)
    ensures rows > 0
    ensures last ==> rect in KeptInRow(active, step, rows - 1, n)
    ensures !last ==> rect in Kept(active, step, rows - 1, n)
  {
    last := rect !in Kept(active, step, rows - 1, n);
  }

  /** Every active tile of the first `rows` rows of the grid is kept. */
  lemma {:induction false} KeptComplete(active: Rect -> bool, step: nat, rows: nat, n: nat, r: nat, c: nat)
    requires r < rows && c < n && active(Tile(step, r, c))
    ensures Tile(step, r, c) in Kept(active, step, rows, n)
  {
    var rect := Tile(step, r, c);
    var earlier, last := Kept(active, step, rows - 1, n), KeptInRow(active, step, rows - 1, n);
    assert Kept(active, step, rows, n) == earlier + last;
    if r < rows - 1 {
      KeptComplete(active, step, rows - 1, n, r, c);
      assert rect in earlier;
    } else {
      KeptInRowComplete(active, step, r, c, n);
      assert rect in last;
    }
  }

  /** At most `n * n` patches come out of an `n` by `n` grid. */
  lemma {:induction false} KeptCount(active: Rect -> bool, step: nat, rows: nat, n: nat)
    ensures |Kept(active, step, rows, n)| <= rows * n
  {
    if rows > 0 {
      KeptCount(active, step, rows - 1, n);
      assert (rows - 1) * n + n == rows * n;
    }
  }

  /** For `n > 0`, every tile of the grid lies within the first `rows`
      rows and columns of an image with `rows` rows. */
  lemma TileInside(rows: nat, n: nat, r: nat, c: nat)
    requires 0 <= r < n && 0 <= c < n
    ensures var rect := Tile(rows / n, r, c);
      rect.top + rows / n == rect.bottom <= rows && rect.left + rows / n == rect.right <= rows
  {
    var step := rows / n;
    TimesMonotone(r + 1, n, step);
    TimesMonotone(c + 1, n, step);
    TimesIsProduct(n, step);
    FloorTimes(rows, n);
  }

  /** When every row of the picture is at least as long as the picture is
      high, every tile of the grid is a full `step` by `step` square. */
  lemma TileSquare<T>(picture: seq<seq<T>>, n: nat, r: nat, c: nat)
    requires 0 <= r < n && 0 <= c < n
    requires forall i :: 0 <= i < |picture| ==> |picture[i]| >= |picture|
    ensures var step := |picture| / n;
      var tile := Crop(picture, Tile(step, r, c));
      |tile| == step && forall i :: 0 <= i < step ==> |tile[i]| == step
  {
    var rect := Tile(|picture| / n, r, c);
    TileInside(|picture|, n, r, c);
    CropSize(picture, rect);
  }

  /** A rectangle inside the picture crops to its own height and width. */
  lemma CropSize<T>(picture: seq<seq<T>>, rect: Rect)
    requires rect.top <= rect.bottom <= |picture| && rect.left <= rect.right
    requires forall i :: 0 <= i < |picture| ==> |picture[i]| >= rect.right
    ensures var tile := Crop(picture, rect);
      |tile| == rect.bottom - rect.top
      && forall i :: 0 <= i < |tile| ==> |tile[i]| == rect.right - rect.left
  {
    var rows := Slice(picture, rect.top, rect.bottom);
    assert |rows| == rect.bottom - rect.top;
    forall i | 0 <= i < |rows|
      ensures |Slice(rows[i], rect.left, rect.right)| == rect.right - rect.left
    {
      assert rows[i] == picture[rect.top + i];
    }
  }

  lemma FloorTimes(m: nat, n: nat)
    requires n > 0
    ensures n * (m / n) <= m
  {
    assert (m / n) * n + m % n == m;
  }

  lemma {:induction false} TimesMonotone(a: nat, b: nat, step: nat)
    requires a <= b
    ensures Times(a, step) <= Times(b, step)
  {
    if a < b {
      TimesMonotone(a, b - 1, step);
    }
  }

  /** The file name `crack-{k}.png`. */
  function CrackName(k: int): (name: string)
    ensures |name| >= 1 && name[0] == 'c'
  {
    "crack-" + IntToString(k) + ".png"
  }

  /** Different patch numbers give different names, so no patch overwrites
      another patch written in the same directory. */
  lemma CrackNameInDirectoryInjective(directory: string, j: int, k: int)
    requires Join(directory, CrackName(j)) == Join(directory, CrackName(k))
    ensures j == k
  {
    assert !StartsWith(CrackName(j), [SEP]) && !StartsWith(CrackName(k), [SEP]);
    JoinInjective(directory, CrackName(j), CrackName(k));
    AffixInjective("crack-", IntToString(j), IntToString(k), ".png");
    IntToStringInjective(j, k);
  }

  /** `os.path.join(directory, f'crack-{k}.png')`. */
  function NumberedIn(directory: string): int -> string
  {
    k => Join(directory, CrackName(k))
  }

  /** Writes `i` and `j` go to different files when their numbers name
      different files. */
  lemma WritesDistinct(kept: seq<Rect>, first: int, imagePath: int -> string, labelPath: int -> string, i: nat, j: nat)
    requires i < j < |kept|
    requires imagePath(first + i) != imagePath(first + j) && labelPath(first + i) != labelPath(first + j)
    ensures var w := WritesOf(kept, first, imagePath, labelPath);
      w[i].imagePath != w[j].imagePath && w[i].labelPath != w[j].labelPath
  {
    WritesOfAt(kept, first, imagePath, labelPath, i);
    WritesOfAt(kept, first, imagePath, labelPath, j);
  }

  /** Write `i`'s image goes to another file than write `j`'s label when
      their numbers name different files. */
  lemma WritesCrossDistinct(kept: seq<Rect>, first: int, imagePath: int -> string, labelPath: int -> string, i: nat, j: nat)
    requires i < |kept| && j < |kept|
    requires imagePath(first + i) != labelPath(first + j)
    ensures var w := WritesOf(kept, first, imagePath, labelPath);
      w[i].imagePath != w[j].labelPath
  {
    WritesOfAt(kept, first, imagePath, labelPath, i);
    WritesOfAt(kept, first, imagePath, labelPath, j);
  }

  /** Different numbers name different files of one directory. */
  lemma NumberedInInjective(directory: string, j: int, k: int)
    requires j != k
    ensures NumberedIn(directory)(j) != NumberedIn(directory)(k)
  {
    if Join(directory, CrackName(j)) == Join(directory, CrackName(k)) {
      CrackNameInDirectoryInjective(directory, j, k);
    }
  }

  /** Written into two directories under consecutive numbers, no two
      patches share an image file or a label file. */
  lemma NumberedWritesDistinct(kept: seq<Rect>, first: int, imageDirectory: string, labelDirectory: string, i: nat, j: nat)
    requires i < j < |kept|
    ensures var w := WritesOf(kept, first, NumberedIn(imageDirectory), NumberedIn(labelDirectory));
      w[i].imagePath != w[j].imagePath && w[i].labelPath != w[j].labelPath
  {
    NumberedInInjective(imageDirectory, first + i, first + j);
    NumberedInInjective(labelDirectory, first + i, first + j);
    WritesDistinct(kept, first, NumberedIn(imageDirectory), NumberedIn(labelDirectory), i, j);
  }

  /** Every numbered write lands in its directory. */
  lemma NumberedWritesInDirectories(kept: seq<Rect>, first: int, imageDirectory: string, labelDirectory: string, i: nat)
    requires i < |kept|
    ensures var w := WritesOf(kept, first, NumberedIn(imageDirectory), NumberedIn(labelDirectory))[i];
      StartsWith(w.imagePath, imageDirectory) && StartsWith(w.labelPath, labelDirectory)
  {
    WritesOfAt(kept, first, NumberedIn(imageDirectory), NumberedIn(labelDirectory), i);
    assert !StartsWith(CrackName(first + i), [SEP]);
  }
}
