/** `crack_generation/util/path_generator_functions.py`: helpers of the
    `util` generation of the path generator. The random draws of the source
    (`random.random()`, `np.random.randint`) are parameters, and the cells of
    `skimage.draw.line` are given as a sequence. */
module UtilPathFunctions {
  import opened Numeric
  import opened Geometry
  import opened CrackModel

  // ---- increment_by_chance ---------------------------------------------

  /** `increment_by_chance` with `draw` the value of `random.random()`, in [0, 1). */
  function IncrementByChance(variable: real, increment: real, chance: real, draw: real): (r: real)
    ensures draw < chance ==> r == variable + increment
    ensures draw >= chance ==> r == variable
  {
    variable + (if draw < chance then increment else 0.0)
  }

  /** A chance of 0 never increments, a chance of 1 always does. */
  lemma IncrementByChanceExtremes(variable: real, increment: real, draw: real)
    requires 0.0 <= draw < 1.0
    ensures IncrementByChance(variable, increment, 0.0, draw) == variable
    ensures IncrementByChance(variable, increment, 1.0, draw) == variable + increment
  {
  }

  // ---- create_single_line ----------------------------------------------

  /** `create_single_line`: the closed outline of a crack, top line, then the
      bottom line reversed, then the first top point again, split into x and y.
      An empty top line makes `top_line[0]` raise (None). */
  function CreateSingleLine(path: CrackPath): (r: Option<(seq<int>, seq<int>)>)
    ensures r.Some? <==> |path.topLine| > 0
    ensures r.Some? ==> |r.value.0| == |r.value.1| == |path.topLine| + |path.botLine| + 1
    ensures r.Some? ==> forall i :: 0 <= i < |path.topLine| ==>
      r.value.0[i] == path.topLine[i].x && r.value.1[i] == path.topLine[i].y
    ensures r.Some? ==> forall j :: |path.topLine| <= j < |path.topLine| + |path.botLine| ==>
      var b := path.botLine[|path.topLine| + |path.botLine| - 1 - j];
      r.value.0[j] == b.x && r.value.1[j] == b.y
    ensures r.Some? ==>
      var n := |r.value.0|;
      r.value.0[n - 1] == r.value.0[0] && r.value.1[n - 1] == r.value.1[0]
  {
    if |path.topLine| == 0 then None
    else
      var line := path.topLine + Reversed(path.botLine) + [path.topLine[0]];
      Some((seq(|line|, i requires 0 <= i < |line| => line[i].x),
            seq(|line|, i requires 0 <= i < |line| => line[i].y)))
  }

  // ---- within_bounds and in_object -------------------------------------

  /** `within_bounds`: strictly inside the surface image, border excluded. */
  predicate WithinBounds(p: Pos, s: SurfaceMap)
  {
    0 < p.x < s.surface.cols - 1 && 0 < p.y < s.surface.rows - 1
  }

  /** `in_object`: reads `mask[y, x]` with no bounds check, so negative
      indices wrap around and larger ones raise IndexError (None). */
  function InObject(p: Pos, s: SurfaceMap): (r: Option<bool>)
    requires s.Wf()
    ensures r.Some? <==> PyIndex(p.y, s.mask.rows).Some? && PyIndex(p.x, s.mask.cols).Some?
  {
    match (PyIndex(p.y, s.mask.rows), PyIndex(p.x, s.mask.cols))
    case (Some(row), Some(col)) => Some(s.mask.cells[row][col])
    case _ => None
  }

  /** Within bounds, `in_object` is an ordinary lookup that cannot fail. */
  lemma InObjectWithinBounds(p: Pos, s: SurfaceMap)
    requires s.Wf() && WithinBounds(p, s)
    ensures InObject(p, s) == Some(s.mask.At(p))
  {
  }

  /** Unlike the collision checker's version, `in_object` reads the mask at
      a negative index instead of answering false: (-1, -1) reads the
      bottom-right cell. */
  lemma InObjectWrapsNegativeIndices(s: SurfaceMap)
    requires s.Wf() && s.mask.rows > 0 && s.mask.cols > 0
    ensures InObject(Pos(-1, -1), s) == Some(s.mask.cells[s.mask.rows - 1][s.mask.cols - 1])
  {
  }

  // ---- scan_directions -------------------------------------------------

  /** The unit steps of the scan, in the order right, up, left, down. */
  function ScanIncrement(d: nat): Pos
    requires d < 4
  {
    [Pos(1, 0), Pos(0, 1), Pos(-1, 0), Pos(0, -1)][d]
  }

  function ScanPos(p: Pos, d: nat, idx: int): Pos
    requires d < 4
  {
    Pos(p.x + idx * ScanIncrement(d).x, p.y + idx * ScanIncrement(d).y)
  }

  /** Step `idx` in direction `d` hits a wall: it is the last step, or it
      leaves the bounds, or it lands on an object. */
  predicate Blocked(p: Pos, s: SurfaceMap, d: nat, idx: int, maxSteps: int)
    requires s.Wf() && d < 4
  {
    idx == maxSteps || !WithinBounds(ScanPos(p, d, idx), s) || InObject(ScanPos(p, d, idx), s) == Some(true)
  }

  /** The first blocked step at or after `idx`. */
  function FirstBlocked(p: Pos, s: SurfaceMap, d: nat, idx: int, maxSteps: int): (r: int)
    requires s.Wf() && d < 4 && 1 <= idx <= maxSteps
    ensures idx <= r <= maxSteps && Blocked(p, s, d, r, maxSteps)
    ensures forall j :: idx <= j < r ==> !Blocked(p, s, d, j, maxSteps)
    decreases maxSteps - idx
  {
    if Blocked(p, s, d, idx, maxSteps) then idx else FirstBlocked(p, s, d, idx + 1, maxSteps)
  }

  /** The limit scan_directions reports for direction `d`: one less than the
      first blocked step, or -1 when there are no steps at all. */
  function ScanLimit(p: Pos, s: SurfaceMap, d: nat, maxSteps: int): int
    requires s.Wf() && d < 4
  {
    if maxSteps >= 1 then FirstBlocked(p, s, d, 1, maxSteps) - 1 else -1
  }

  /** Each limit is in [0, max_steps - 1], and every step up to and including
      the limit is free. */
  lemma ScanLimitBounds(p: Pos, s: SurfaceMap, d: nat, maxSteps: int)
    requires s.Wf() && d < 4 && maxSteps >= 1
    ensures 0 <= ScanLimit(p, s, d, maxSteps) <= maxSteps - 1
    ensures forall j :: 1 <= j <= ScanLimit(p, s, d, maxSteps) ==> !Blocked(p, s, d, j, maxSteps)
    ensures Blocked(p, s, d, ScanLimit(p, s, d, maxSteps) + 1, maxSteps)
  {
  }

  /** What the limit of one direction says after the steps before `idx`
      were scanned: still -1 while none of them was blocked, and the final
      limit once one was. */
  predicate Scanned(p: Pos, s: SurfaceMap, d: nat, maxSteps: int, v: int, idx: int)
    requires s.Wf() && d < 4
  {
    if v == -1 then forall j :: 1 <= j < idx ==> !Blocked(p, s, d, j, maxSteps)
    else 1 <= maxSteps && v == FirstBlocked(p, s, d, 1, maxSteps) - 1
  }

  /** One step of the scan keeps `Scanned`. */
  lemma ScannedStep(p: Pos, s: SurfaceMap, d: nat, maxSteps: int, v: int, idx: int)
    requires s.Wf() && d < 4 && 1 <= idx <= maxSteps && Scanned(p, s, d, maxSteps, v, idx)
    ensures Scanned(p, s, d, maxSteps, if v == -1 && Blocked(p, s, d, idx, maxSteps) then idx - 1 else v, idx + 1)
  {
    if v == -1 && Blocked(p, s, d, idx, maxSteps) {
      assert FirstBlocked(p, s, d, 1, maxSteps) == idx;
    }
  }

  /** Once every step was scanned, `Scanned` pins the limit down. */
  lemma ScannedFinal(p: Pos, s: SurfaceMap, d: nat, maxSteps: int, v: int, idx: int)
    requires s.Wf() && d < 4 && Scanned(p, s, d, maxSteps, v, idx)
    requires idx == maxSteps + 1 || (maxSteps < 1 && v == -1)
    ensures v == ScanLimit(p, s, d, maxSteps)
  {
    if v == -1 && maxSteps >= 1 {
      assert Blocked(p, s, d, maxSteps, maxSteps);
    }
  }

  /** `scan_directions`: for each of the four directions, the number of free
      steps before a wall. A limit is written once, at the first blocked step,
      and never overwritten. The test of the source's inner loop is `Blocked`
      (its `or` reads the mask only within bounds). */
  method ScanDirections(position: Pos, surface: SurfaceMap, maxSteps: int) returns (limits: seq<int>)
    requires surface.Wf()
    ensures |limits| == 4
    ensures forall d :: 0 <= d < 4 ==> limits[d] == ScanLimit(position, surface, d, maxSteps)
  {
    var a := new int[4](_ => -1);
    var idx := 1;
    while idx <= maxSteps
      invariant 1 <= idx && (maxSteps >= 1 ==> idx <= maxSteps + 1)
      invariant forall e :: 0 <= e < 4 ==> Scanned(position, surface, e, maxSteps, a[e], idx)
      invariant idx == 1 ==> forall e :: 0 <= e < 4 ==> a[e] == -1
    {
      var d := 0;
      while d < 4
        invariant 0 <= d <= 4
        invariant forall e :: 0 <= e < d ==> Scanned(position, surface, e, maxSteps, a[e], idx + 1)
        invariant forall e :: d <= e < 4 ==> Scanned(position, surface, e, maxSteps, a[e], idx)
      {
        ScannedStep(position, surface, d, maxSteps, a[d], idx);
        if a[d] == -1 && Blocked(position, surface, d, idx, maxSteps) {
          a[d] := idx - 1;
        }
        d := d + 1;
      }
      idx := idx + 1;
    }
    forall e | 0 <= e < 4
      ensures a[e] == ScanLimit(position, surface, e, maxSteps)
    {
      ScannedFinal(position, surface, e, maxSteps, a[e], idx);
    }
    limits := a[..];
  }

  // ---- choose_initial_position -----------------------------------------

  /** `np.argmax`: the first index holding the largest value. */
  function ArgMax(s: seq<int>): (k: nat)
    requires |s| > 0
    ensures k < |s|
    ensures forall j :: 0 <= j < |s| ==> s[j] <= s[k]
    ensures forall j :: 0 <= j < k ==> s[j] < s[k]
  {
    if |s| == 1 then 0
    else
      var k := ArgMax(s[..|s| - 1]);
      if s[|s| - 1] > s[k] then |s| - 1 else k
  }

  /** `np.argmin`: the first index holding the smallest value. */
  function ArgMin(s: seq<int>): (k: nat)
    requires |s| > 0
    ensures k < |s|
    ensures forall j :: 0 <= j < |s| ==> s[k] <= s[j]
    ensures forall j :: 0 <= j < k ==> s[k] < s[j]
  {
    if |s| == 1 then 0
    else
      var k := ArgMin(s[..|s| - 1]);
      if s[|s| - 1] < s[k] then |s| - 1 else k
  }

  /** The headings of the four scan directions, 0, pi/2, pi and 1.5 pi. */
  function ScanAngle(d: nat): real
    requires d < 4
  {
    if d == 0 then 0.0 else if d == 1 then PI / 2.0 else if d == 2 then PI else 1.5 * PI
  }

  /** The steps that move the start away from the nearest wall (the opposite
      of the scan directions). */
  function AwayIncrement(d: nat): Pos
    requires d < 4
  {
    if d == 0 then Pos(-1, 0) else if d == 1 then Pos(0, -1) else if d == 2 then Pos(1, 0) else Pos(0, 1)
  }

  /** `p + k * AwayIncrement(d)`: `k` steps away from the wall in scan
      direction `d`. */
  function Away(p: Pos, d: nat, k: int): (q: Pos)
    requires d < 4
    ensures q == Pos(p.x + k * AwayIncrement(d).x, p.y + k * AwayIncrement(d).y)
  {
    if d == 0 then Pos(p.x - k, p.y)
    else if d == 1 then Pos(p.x, p.y - k)
    else if d == 2 then Pos(p.x + k, p.y)
    else Pos(p.x, p.y + k)
  }

  function Ceil(x: real): int
  {
    -((-x).Floor)
  }

  /** A drawn position where a crack may start: within bounds and on mortar. */
  predicate Free(p: Pos, s: SurfaceMap)
    requires s.Wf()
  {
    WithinBounds(p, s) && InObject(p, s) == Some(false)
  }

  datatype Start = Start(position: Pos, width: real, angle: real)

  /** The number of steps `choose_initial_position` scans in each direction. */
  const SCAN_STEPS: int := 15

  /** The four scan limits around `p`, with the steps the source scans. */
  function Margins(p: Pos, s: SurfaceMap): (m: seq<int>)
    requires s.Wf()
    ensures |m| == 4
    ensures forall d :: 0 <= d < 4 ==> m[d] == ScanLimit(p, s, d, SCAN_STEPS) && 0 <= m[d] <= 14
  {
    var m := seq(4, d requires 0 <= d < 4 => ScanLimit(p, s, d, SCAN_STEPS));
    assert forall d :: 0 <= d < 4 ==> 0 <= m[d] <= 14 by {
      forall d | 0 <= d < 4 ensures 0 <= m[d] <= 14 {
        ScanLimitBounds(p, s, d, SCAN_STEPS);
      }
    }
    m
  }

  /** How a start is placed from a free position `p`: the angle heads along
      the direction with the most free steps (the first such on ties); the
      width is what fits between the nearest wall and the wall opposite it,
      less one, capped by the requested width; and the position moves away
      from the nearest wall by what the half width lacks. */
  ghost predicate PlacedFrom(st: Start, p: Pos, s: SurfaceMap, requestedWidth: real)
    requires s.Wf()
  {
    PlacedWith(st, p, Margins(p, s), requestedWidth)
  }

  /** `PlacedFrom` for the scan limits `m` in the four directions. */
  predicate PlacedWith(st: Start, p: Pos, m: seq<int>, requestedWidth: real)
    requires |m| == 4
  {
    var near := ArgMin(m);
    var shift := Ceil(st.width / 2.0) - m[near];
    st.angle == ScanAngle(ArgMax(m))
    && st.width == Min((m[(near + 2) % 4] + m[near] - 1) as real, requestedWidth)
    && st.position == Away(p, near, shift)
  }

  /** The part of `choose_initial_position` after a free position is found. */
  method PlaceStart(surface: SurfaceMap, requestedWidth: real, position: Pos) returns (st: Start)
    requires surface.Wf()
    ensures PlacedFrom(st, position, surface, requestedWidth)
    ensures st.width <= 27.0
  {
    var margins := ScanDirections(position, surface, SCAN_STEPS);
    assert margins == Margins(position, surface);
    var angle := ScanAngle(ArgMax(margins));
    var minDirIdx := ArgMin(margins);
    var distToEdge := margins[minDirIdx];
    var maxWidth := margins[(minDirIdx + 2) % 4] + distToEdge;
    var width := Min((maxWidth - 1) as real, requestedWidth);
    var shift := Ceil(width / 2.0) - distToEdge;
    st := Start(Away(position, minDirIdx, shift), width, angle);
    PlacedWithIntro(st, position, margins, requestedWidth, minDirIdx, shift);
    WidthAtMost27(st, position, margins, requestedWidth);
  }

  /** `PlacedWith` from its three parts, with the nearest wall's direction
      `near` and the shift named. */
  lemma PlacedWithIntro(st: Start, p: Pos, m: seq<int>, requestedWidth: real, near: nat, shift: int)
    requires |m| == 4 && near == ArgMin(m)
    requires st.angle == ScanAngle(ArgMax(m))
    requires st.width == Min((m[(near + 2) % 4] + m[near] - 1) as real, requestedWidth)
    requires shift == Ceil(st.width / 2.0) - m[near] && st.position == Away(p, near, shift)
    ensures PlacedWith(st, p, m, requestedWidth)
  {
  }

  /** With scan limits of at most 14 steps the width is at most 27. */
  lemma WidthAtMost27(st: Start, p: Pos, m: seq<int>, requestedWidth: real)
    requires |m| == 4 && (forall d :: 0 <= d < 4 ==> m[d] <= 14) && PlacedWith(st, p, m, requestedWidth)
    ensures st.width <= 27.0
  {
    var near := ArgMin(m);
    assert m[near] <= 14 && m[(near + 2) % 4] <= 14;
  }

  /** `choose_initial_position`, with `draws` the successive results of
      `np.random.randint`. It keeps the first free draw and places the start
      there; when the draws run out before one is free the source would keep
      drawing, and the model answers None. */
  method ChooseInitialPosition(surface: SurfaceMap, requestedWidth: real, draws: seq<Pos>) returns (r: Option<Start>)
    requires surface.Wf()
    ensures r.None? <==> forall k :: 0 <= k < |draws| ==> !Free(draws[k], surface)
    ensures r.Some? ==> exists k :: (0 <= k < |draws| && Free(draws[k], surface)
      && (forall j :: 0 <= j < k ==> !Free(draws[j], surface))
      && PlacedFrom(r.value, draws[k], surface, requestedWidth))
    ensures r.Some? ==> r.value.width <= 27.0
  {
    if |draws| == 0 {
      return None;
    }
    var k := 0;
    var position := draws[0];
    while !WithinBounds(position, surface) || InObject(position, surface) == Some(true)
      invariant 0 <= k < |draws| && position == draws[k]
      invariant forall j :: 0 <= j < k ==> !Free(draws[j], surface)
      decreases |draws| - k
    {
      assert !Free(draws[k], surface);
      if k + 1 == |draws| {
        return None;
      }
      k := k + 1;
      position := draws[k];
    }
    InObjectWithinBounds(position, surface);
    assert !surface.mask.At(position);
    assert Free(draws[k], surface);
    var st := PlaceStart(surface, requestedWidth, position);
    r := Some(st);
    assert PlacedFrom(r.value, draws[k], surface, requestedWidth);
  }

  // ---- check_and_mark_overlap ------------------------------------------

  /** A line cell `(x, y)` resolved as NumPy's `overlap_map[rows, columns]`
      resolves it, or None when it raises IndexError. */
  function Resolve(c: Pos, rows: nat, cols: nat): Option<Pos>
  {
    match (PyIndex(c.y, rows), PyIndex(c.x, cols))
    case (Some(row), Some(col)) => Some(Pos(col, row))
    case _ => None
  }

  predicate AllResolve(line: seq<Pos>, rows: nat, cols: nat)
  {
    forall i :: 0 <= i < |line| ==> Resolve(line[i], rows, cols).Some?
  }

  function CountTrue(bs: seq<bool>): (n: nat)
    ensures n <= |bs|
  {
    if |bs| == 0 then 0 else CountTrue(bs[..|bs| - 1]) + (if bs[|bs| - 1] then 1 else 0)
  }

  /** The acceptance test: the mean of the overlap values on the line is at
      most the allowed overlap. */
  predicate Accepts(marks: seq<bool>, allowed: real)
    requires |marks| > 0
  {
    (CountTrue(marks) as real) / (|marks| as real) <= allowed
  }

  lemma {:induction false} CountTrueZero(bs: seq<bool>)
    ensures CountTrue(bs) == 0 <==> forall i :: 0 <= i < |bs| ==> !bs[i]
  {
    if |bs| > 0 {
      CountTrueZero(bs[..|bs| - 1]);
      assert forall i :: 0 <= i < |bs| - 1 ==> bs[..|bs| - 1][i] == bs[i];
    }
  }

  /** An allowed overlap of 1 or more accepts every segment. */
  lemma AcceptsWithFullOverlap(marks: seq<bool>, allowed: real)
    requires |marks| > 0 && allowed >= 1.0
    ensures Accepts(marks, allowed)
  {
    var n := |marks| as real;
    var c := CountTrue(marks) as real;
    assert c <= n;
    assert c / n <= 1.0 by {
      assert c / n * n == c;
    }
  }

  /** With no overlap allowed, a segment is accepted exactly when none of its
      cells is marked yet. */
  lemma AcceptsWithNoOverlap(marks: seq<bool>)
    requires |marks| > 0
    ensures Accepts(marks, 0.0) <==> forall i :: 0 <= i < |marks| ==> !marks[i]
  {
    CountTrueZero(marks);
    var n := |marks| as real;
    var c := CountTrue(marks) as real;
    if c > 0.0 {
      assert c / n > 0.0;
    }
  }

  function MarksOn(overlap: array2<bool>, line: seq<Pos>): (marks: seq<bool>)
    reads overlap
    requires AllResolve(line, overlap.Length0, overlap.Length1)
    ensures |marks| == |line|
  {
    seq(|line|, i requires 0 <= i < |line| reads overlap =>
      var c := Resolve(line[i], overlap.Length0, overlap.Length1).value;
      overlap[c.y, c.x])
  }

  predicate OnLine(line: seq<Pos>, rows: nat, cols: nat, row: int, col: int)
  {
    exists i :: 0 <= i < |line| && Resolve(line[i], rows, cols) == Some(Pos(col, row))
  }

  datatype OverlapOutcome = Accepted | Rejected | IndexError

  /** `check_and_mark_overlap` on the cells of `draw.line(top, bot)` (never
      empty: it holds both end points). If the mean overlap on the line is
      within the allowed overlap, every line cell is marked and the segment is
      accepted; otherwise the map is left as it was. A cell outside the map in
      a way NumPy cannot wrap raises IndexError before anything is written. */
  method CheckAndMarkOverlap(line: seq<Pos>, overlap: array2<bool>, allowed: real) returns (r: OverlapOutcome)
    requires |line| > 0
    modifies overlap
    ensures r == IndexError <==> !AllResolve(line, overlap.Length0, overlap.Length1)
    ensures r != IndexError ==>
      (r == Accepted <==> old(Accepts(MarksOn(overlap, line), allowed)))
    ensures r == Accepted ==> forall row, col :: 0 <= row < overlap.Length0 && 0 <= col < overlap.Length1 ==>
      overlap[row, col] == (OnLine(line, overlap.Length0, overlap.Length1, row, col) || old(overlap[row, col]))
    ensures r != Accepted ==> forall row, col :: 0 <= row < overlap.Length0 && 0 <= col < overlap.Length1 ==>
      overlap[row, col] == old(overlap[row, col])
  {
    var rows, cols := overlap.Length0, overlap.Length1;
    var i := 0;
    while i < |line|
      invariant 0 <= i <= |line|
      invariant forall j :: 0 <= j < i ==> Resolve(line[j], rows, cols).Some?
    {
      if Resolve(line[i], rows, cols).None? {
        return IndexError;
      }
      i := i + 1;
    }
    var marks := MarksOn(overlap, line);
    if !Accepts(marks, allowed) {
      return Rejected;
    }
    i := 0;
    while i < |line|
      invariant 0 <= i <= |line|
      invariant forall row, col :: 0 <= row < rows && 0 <= col < cols ==>
        overlap[row, col] == ((exists j :: 0 <= j < i && Resolve(line[j], rows, cols) == Some(Pos(col, row))) || old(overlap[row, col]))
    {
      var c := Resolve(line[i], rows, cols).value;
      overlap[c.y, c.x] := true;
      i := i + 1;
    }
    r := Accepted;
  }
}
