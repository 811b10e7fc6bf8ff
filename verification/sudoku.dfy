/** transform.py: symmetry transforms of 9 x 9 sudoku grids (rotation, flip, and the
    permutation of row and column bands) and the generator that grows its list of
    sudokus by applying each transform to everything generated so far. Building a
    sudoku from an array and its validity test belong to a module that is not part of
    this model; validity is a parameter `valid`. */
module SudokuTransforms {
  import opened Base

  /** The cell array of a sudoku. */
  type Grid = seq<seq<int>>

  predicate IsGrid(g: Grid)
  {
    |g| == 9 && forall i :: 0 <= i < 9 ==> |g[i]| == 9
  }

  /** The grids of `gs` that `valid` accepts, in order. */
  function KeepValid(gs: seq<Grid>, valid: Grid -> bool): (r: seq<Grid>)
    ensures |r| <= |gs|
    ensures forall g :: g in r <==> g in gs && valid(g)
    ensures (forall g :: valid(g)) ==> r == gs
  {
    if gs == [] then [] else (if valid(gs[0]) then [gs[0]] else []) + KeepValid(gs[1..], valid)
  }

  /** A single grid is kept exactly when it is valid. */
  lemma KeepValidSingle(g: Grid, valid: Grid -> bool)
    ensures KeepValid([g], valid) == if valid(g) then [g] else []
  {
    assert [g][1..] == [];
  }

  /** Filtering a concatenation filters each part and keeps them in order. */
  lemma {:induction false} KeepValidAppend(a: seq<Grid>, b: seq<Grid>, valid: Grid -> bool)
    ensures KeepValid(a + b, valid) == KeepValid(a, valid) + KeepValid(b, valid)
  {
    if a == [] {
      assert a + b == b;
    } else {
      assert (a + b)[0] == a[0];
      assert (a + b)[1..] == a[1..] + b;
      KeepValidAppend(a[1..], b, valid);
    }
  }

  /*** Rotation ***/

  /** `np.rot90`: a quarter turn counter-clockwise. */
  function Rot90(g: Grid): (r: Grid)
    requires IsGrid(g)
    ensures IsGrid(r)
    ensures forall i, j :: 0 <= i < 9 && 0 <= j < 9 ==> r[i][j] == g[j][8 - i]
  {
    seq(9, i requires 0 <= i < 9 => seq(9, j requires 0 <= j < 9 => g[j][8 - i]))
  }

  /** Four quarter turns give the grid back. */
  lemma Rot90FourTimes(g: Grid)
    requires IsGrid(g)
    ensures Rot90(Rot90(Rot90(Rot90(g)))) == g
  {
    var r := Rot90(Rot90(Rot90(Rot90(g))));
    forall i | 0 <= i < 9
      ensures r[i] == g[i]
    {
      assert forall j :: 0 <= j < 9 ==> r[i][j] == g[i][j];
    }
  }

  /** `Rotation.apply` as written: the loop reads `ret[0]` of the still empty list. */
  function RotationAsWritten(s: Grid): Result<seq<Grid>>
  {
    var ret: seq<Grid> := [];
    if 0 < |ret| then Ok(ret) else Err(IndexError)
  }

  /** `Rotation.apply` as intended: the three quarter, half and three-quarter turns that
      are valid sudokus. */
  function RotationApply(s: Grid, valid: Grid -> bool): (r: Result<seq<Grid>>)
    requires IsGrid(s)
    ensures r.Ok? && |r.value| <= 3
    ensures forall g :: g in r.value <==>
      valid(g) && (g == Rot90(s) || g == Rot90(Rot90(s)) || g == Rot90(Rot90(Rot90(s))))
    ensures (forall g :: valid(g)) ==> r.value == [Rot90(s), Rot90(Rot90(s)), Rot90(Rot90(Rot90(s)))]
  {
    var q1 := Rot90(s);
    var q2 := Rot90(q1);
    Ok(KeepValid([q1, q2, Rot90(q2)], valid))
  }

  /** For every sudoku the written transform raises, where the intended one returns its
      three turns when all are valid. */
  lemma RotationAsWrittenFails(s: Grid, valid: Grid -> bool)
    requires IsGrid(s) && forall g :: valid(g)
    ensures RotationAsWritten(s) == Err(IndexError)
    ensures |RotationApply(s, valid).value| == 3
  {
  }

  /*** Flip ***/

  /** The `axis` argument of `np.flip`: rows, columns, or both when `None`. */
  datatype Axis = Rows | Columns | BothAxes

  /** The line a flipped line comes from: mirrored when the axis flips it. */
  function Mirror(flipped: bool, l: int): (k: int)
    requires 0 <= l < 9
    ensures 0 <= k < 9
  {
    if flipped then 8 - l else l
  }

  function Flip(g: Grid, ax: Axis): (r: Grid)
    requires IsGrid(g)
    ensures IsGrid(r)
    ensures forall i, j :: 0 <= i < 9 && 0 <= j < 9 ==>
      r[i][j] == g[Mirror(ax != Columns, i)][Mirror(ax != Rows, j)]
  {
    seq(9, i requires 0 <= i < 9 => seq(9, j requires 0 <= j < 9 =>
      g[Mirror(ax != Columns, i)][Mirror(ax != Rows, j)]))
  }

  /** Each flip undoes itself. */
  lemma FlipInvolution(g: Grid, ax: Axis)
    requires IsGrid(g)
    ensures Flip(Flip(g, ax), ax) == g
  {
    var f := Flip(g, ax);
    var r := Flip(f, ax);
    forall i | 0 <= i < 9
      ensures r[i] == g[i]
    {
      var i1 := Mirror(ax != Columns, i);
      assert Mirror(ax != Columns, i1) == i;
      forall j | 0 <= j < 9
        ensures r[i][j] == g[i][j]
      {
        var j1 := Mirror(ax != Rows, j);
        assert Mirror(ax != Rows, j1) == j;
        assert r[i][j] == f[i1][j1];
      }
    }
  }

  /** Flipping both axes is the row flip of the column flip. */
  lemma FlipBothComposes(g: Grid)
    requires IsGrid(g)
    ensures Flip(g, BothAxes) == Flip(Flip(g, Columns), Rows)
  {
    var b, f := Flip(g, BothAxes), Flip(g, Columns);
    var r := Flip(f, Rows);
    forall i | 0 <= i < 9
      ensures b[i] == r[i]
    {
      forall j | 0 <= j < 9
        ensures b[i][j] == r[i][j]
      {
        assert r[i][j] == f[8 - i][j];
      }
    }
  }

  /** `Flip.apply` as written: the `return` sits inside the loop over the axes, so only
      the row flip is ever tried. */
  function FlipAsWritten(s: Grid, valid: Grid -> bool): Result<seq<Grid>>
    requires IsGrid(s)
  {
    Ok(KeepValid([Flip(s, Rows)], valid))
  }

  /** `Flip.apply` as intended: the valid flips over rows, columns and both. */
  function FlipApply(s: Grid, valid: Grid -> bool): (r: Result<seq<Grid>>)
    requires IsGrid(s)
    ensures r.Ok? && |r.value| <= 3
    ensures forall g :: g in r.value <==> valid(g) && exists ax: Axis :: g == Flip(s, ax)
    ensures (forall g :: valid(g)) ==> r.value == [Flip(s, Rows), Flip(s, Columns), Flip(s, BothAxes)]
  {
    var flips := [Flip(s, Rows), Flip(s, Columns), Flip(s, BothAxes)];
    assert forall g :: (exists ax: Axis :: g == Flip(s, ax)) <==> g in flips;
    Ok(KeepValid(flips, valid))
  }

  /** When every flip is valid the written transform returns one grid where three are
      meant. */
  lemma FlipAsWrittenDropsFlips(s: Grid, valid: Grid -> bool)
    requires IsGrid(s) && forall g :: valid(g)
    ensures |FlipAsWritten(s, valid).value| == 1
    ensures |FlipApply(s, valid).value| == 3
  {
    assert KeepValid([Flip(s, Rows)], valid) == [Flip(s, Rows)];
  }

  /*** Band permutation ***/

  /** `MajorSwitch(column_switch, row_switch, column_first)`. */
  datatype MajorSwitch = MajorSwitch(columnSwitch: seq<int>, rowSwitch: seq<int>, columnFirst: bool)

  /** `set(switch) == {0, 1, 2}`. */
  predicate CoversBands(sw: seq<int>)
  {
    (forall k :: 0 <= k < |sw| ==> 0 <= sw[k] < 3) && 0 in sw && 1 in sw && 2 in sw
  }

  /** The constructor: ValueError unless both switches name exactly the bands 0, 1, 2. */
  function NewMajorSwitch(columnSwitch: seq<int>, rowSwitch: seq<int>, columnFirst: bool): (r: Result<MajorSwitch>)
    ensures r.Ok? <==> CoversBands(columnSwitch) && CoversBands(rowSwitch)
    ensures r.Err? ==> r.error == ValueError
    ensures r.Ok? ==> r.value == MajorSwitch(columnSwitch, rowSwitch, columnFirst)
  {
    if CoversBands(columnSwitch) && CoversBands(rowSwitch) then Ok(MajorSwitch(columnSwitch, rowSwitch, columnFirst))
    else Err(ValueError)
  }

  /** `[n for cid in switch for n in lookup[cid]]`: the bands' lines, band after band. */
  function BandOrder(sw: seq<int>): (r: seq<int>)
    requires forall k :: 0 <= k < |sw| ==> 0 <= sw[k] < 3
    ensures |r| == 3 * |sw|
    ensures forall i :: 0 <= i < |r| ==> r[i] == 3 * sw[i / 3] + i % 3
    ensures forall i :: 0 <= i < |r| ==> 0 <= r[i] < 9
  {
    if sw == [] then []
    else
      var rest := BandOrder(sw[1..]);
      var r := [3 * sw[0], 3 * sw[0] + 1, 3 * sw[0] + 2] + rest;
      forall i | 3 <= i < |r|
        ensures r[i] == 3 * sw[i / 3] + i % 3
      {
        assert r[i] == rest[i - 3] && sw[1..][(i - 3) / 3] == sw[i / 3];
      }
      r
  }

  /** The first position of `v` in `p`, or `|p|`. */
  function IndexOf(p: seq<int>, v: int): (i: nat)
    ensures i <= |p|
    ensures i < |p| ==> p[i] == v && forall k :: 0 <= k < i ==> p[k] != v
    ensures i == |p| ==> v !in p
  {
    if p == [] then 0 else if p[0] == v then 0 else 1 + IndexOf(p[1..], v)
  }

  /** Three band numbers covering all bands are a permutation of them. */
  lemma ThreeBandsPermute(sw: seq<int>)
    requires |sw| == 3 && CoversBands(sw)
    ensures IsPermutation(sw, 3)
  {
  }

  /** A switch of three bands orders the nine lines as a permutation that keeps the
      order inside each band. */
  lemma BandOrderPermutes(sw: seq<int>)
    requires |sw| == 3 && CoversBands(sw)
    ensures IsPermutation(BandOrder(sw), 9)
  {
    ThreeBandsPermute(sw);
    var o := BandOrder(sw);
    forall i, j | 0 <= i < j < 9
      ensures o[i] != o[j]
    {
      assert i == 3 * (i / 3) + i % 3 && j == 3 * (j / 3) + j % 3;
      if i / 3 == j / 3 {
        assert i % 3 != j % 3;
      } else {
        assert sw[i / 3] != sw[j / 3];
      }
    }
  }

  /** The position a line of the original moves from: line `l` of the result is line
      `Origin(sw, l)` of the input. */
  function Origin(sw: seq<int>, l: int): (i: int)
    requires |sw| == 3 && CoversBands(sw) && 0 <= l < 9
    ensures 0 <= i < 9 && BandOrder(sw)[i] == l
  {
    var t := IndexOf(sw, l / 3);
    var i := 3 * t + l % 3;
    assert i / 3 == t && i % 3 == l % 3;
    assert l == 3 * (l / 3) + l % 3;
    i
  }

  /** `Origin` inverts the band order in both directions. */
  lemma OriginInverts(sw: seq<int>, i: int)
    requires |sw| == 3 && CoversBands(sw) && 0 <= i < 9
    ensures Origin(sw, BandOrder(sw)[i]) == i
  {
    BandOrderPermutes(sw);
    var o := BandOrder(sw);
    var k := Origin(sw, o[i]);
    assert o[k] == o[i];
  }

  /** Both switches hold three bands: the switched line orders fit the grid. */
  predicate Fits(m: MajorSwitch)
  {
    |m.columnSwitch| == 3 && |m.rowSwitch| == 3
  }

  /** The grid the band permutation produces: cell (r, c) of the input ends at
      (row_order[r], column_order[c]). */
  function Switched(m: MajorSwitch, g: Grid): (r: Grid)
    requires CoversBands(m.columnSwitch) && CoversBands(m.rowSwitch) && Fits(m) && IsGrid(g)
    ensures IsGrid(r)
    ensures forall i, j :: 0 <= i < 9 && 0 <= j < 9 ==>
      r[i][j] == g[Origin(m.rowSwitch, i)][Origin(m.columnSwitch, j)]
  {
    seq(9, i requires 0 <= i < 9 => seq(9, j requires 0 <= j < 9 =>
      g[Origin(m.rowSwitch, i)][Origin(m.columnSwitch, j)]))
  }

  /** Every cell moves to the switched row and column. */
  lemma SwitchedMovesCells(m: MajorSwitch, g: Grid, r: int, c: int)
    requires CoversBands(m.columnSwitch) && CoversBands(m.rowSwitch) && Fits(m) && IsGrid(g)
    requires 0 <= r < 9 && 0 <= c < 9
    ensures Switched(m, g)[BandOrder(m.rowSwitch)[r]][BandOrder(m.columnSwitch)[c]] == g[r][c]
  {
    BandOrderPermutes(m.rowSwitch);
    BandOrderPermutes(m.columnSwitch);
    OriginInverts(m.rowSwitch, r);
    OriginInverts(m.columnSwitch, c);
  }

  /** `MajorSwitch.apply` on values: ValueError when a switch holds more than three bands
      (the fancy-index assignment then has mismatched shapes) or the switched grid is not
      a valid sudoku, otherwise the switched grid alone. */
  function SwitchApply(m: MajorSwitch, s: Grid, valid: Grid -> bool): (r: Result<seq<Grid>>)
    requires CoversBands(m.columnSwitch) && CoversBands(m.rowSwitch) && IsGrid(s)
    ensures r.Ok? <==> Fits(m) && valid(Switched(m, s))
    ensures r.Ok? ==> r.value == [Switched(m, s)] && valid(r.value[0])
    ensures r.Err? ==> r.error == ValueError
  {
    if !Fits(m) then Err(ValueError)
    else if valid(Switched(m, s)) then Ok([Switched(m, s)])
    else Err(ValueError)
  }

  /** The identity switch `[0, 1, 2]`: every band stays where it is. */
  predicate KeepsBands(sw: seq<int>)
  {
    |sw| == 3 && forall k :: 0 <= k < 3 ==> sw[k] == k
  }

  /** The identity switch leaves every grid as it is. */
  lemma IdentitySwitch(m: MajorSwitch, s: Grid)
    requires KeepsBands(m.columnSwitch) && KeepsBands(m.rowSwitch) && IsGrid(s)
    ensures CoversBands(m.columnSwitch) && CoversBands(m.rowSwitch) && Fits(m)
    ensures Switched(m, s) == s
  {
    IdentityOrigin(m.rowSwitch, 0);
    IdentityOrigin(m.columnSwitch, 0);
    var r := Switched(m, s);
    forall i | 0 <= i < 9
      ensures r[i] == s[i]
    {
      IdentityOrigin(m.rowSwitch, i);
      forall j | 0 <= j < 9
        ensures r[i][j] == s[i][j]
      {
        IdentityOrigin(m.columnSwitch, j);
      }
    }
  }

  /** The identity band order moves no line. */
  lemma IdentityOrigin(sw: seq<int>, l: int)
    requires KeepsBands(sw) && 0 <= l < 9
    ensures CoversBands(sw) && Origin(sw, l) == l
  {
    assert sw[0] == 0 && sw[1] == 1 && sw[2] == 2;
    var o := Origin(sw, l);
    assert sw[o / 3] == o / 3;
    assert o == 3 * (o / 3) + o % 3;
  }

  /** The rows of a 9 x 9 array. */
  function Cells(a: array2<int>): (g: Grid)
    requires a.Length0 == 9 && a.Length1 == 9
    reads a
    ensures IsGrid(g)
    ensures forall i, j :: 0 <= i < 9 && 0 <= j < 9 ==> g[i][j] == a[i, j]
  {
    seq(9, i requires 0 <= i < 9 reads a => seq(9, j requires 0 <= j < 9 reads a => a[i, j]))
  }

  /** `a[order, :] = src[[0, ..., 8], :]`: row `i` of `src` lands in row `order[i]`. */
  method ScatterRows(a: array2<int>, order: seq<int>, src: Grid)
    requires a.Length0 == 9 && a.Length1 == 9 && IsPermutation(order, 9) && IsGrid(src)
    modifies a
    ensures forall i, j :: 0 <= i < 9 && 0 <= j < 9 ==> a[order[i], j] == src[i][j]
  {
    for i := 0 to 9
      invariant forall i', j :: 0 <= i' < i && 0 <= j < 9 ==> a[order[i'], j] == src[i'][j]
    {
      for j := 0 to 9
        invariant forall i', j' :: 0 <= i' < i && 0 <= j' < 9 ==> a[order[i'], j'] == src[i'][j']
        invariant forall j' :: 0 <= j' < j ==> a[order[i], j'] == src[i][j']
      {
        a[order[i], j] := src[i][j];
      }
    }
  }

  /** `a[:, order] = src[:, [0, ..., 8]]`: column `j` of `src` lands in column `order[j]`. */
  method ScatterColumns(a: array2<int>, order: seq<int>, src: Grid)
    requires a.Length0 == 9 && a.Length1 == 9 && IsPermutation(order, 9) && IsGrid(src)
    modifies a
    ensures forall i, j :: 0 <= i < 9 && 0 <= j < 9 ==> a[i, order[j]] == src[i][j]
  {
    for j := 0 to 9
      invariant forall i, j' :: 0 <= i < 9 && 0 <= j' < j ==> a[i, order[j']] == src[i][j']
    {
      for i := 0 to 9
        invariant forall i', j' :: 0 <= i' < 9 && 0 <= j' < j ==> a[i', order[j']] == src[i'][j']
        invariant forall i' :: 0 <= i' < i ==> a[i', order[j]] == src[i'][j]
      {
        a[i, order[j]] := src[i][j];
      }
    }
  }

  /** A fully scattered array holds the switched grid: rows first, then columns, or the
      other way round, end in the same place. */
  lemma ScatteredIsSwitched(m: MajorSwitch, s: Grid, mid: Grid, out: Grid)
    requires CoversBands(m.columnSwitch) && CoversBands(m.rowSwitch) && Fits(m)
    requires IsGrid(s) && IsGrid(mid) && IsGrid(out)
    requires m.columnFirst ==> forall i, j :: 0 <= i < 9 && 0 <= j < 9 ==>
      mid[i][BandOrder(m.columnSwitch)[j]] == s[i][j] && out[BandOrder(m.rowSwitch)[i]][j] == mid[i][j]
    requires !m.columnFirst ==> forall i, j :: 0 <= i < 9 && 0 <= j < 9 ==>
      mid[BandOrder(m.rowSwitch)[i]][j] == s[i][j] && out[i][BandOrder(m.columnSwitch)[j]] == mid[i][j]
    ensures out == Switched(m, s)
  {
    var sw := Switched(m, s);
    forall r | 0 <= r < 9
      ensures out[r] == sw[r]
    {
      forall c | 0 <= c < 9
        ensures out[r][c] == sw[r][c]
      {
        var r0, c0 := Origin(m.rowSwitch, r), Origin(m.columnSwitch, c);
        if m.columnFirst {
          assert out[r][c] == mid[r0][c];
        } else {
          assert out[r][c] == mid[r][c0];
        }
      }
    }
  }

  /** `MajorSwitch.apply`: copies the sudoku's array, scatters rows and columns into the
      copy in the configured order, and keeps the result only when it is a valid sudoku. */
  method ApplySwitch(m: MajorSwitch, s: Grid, valid: Grid -> bool) returns (r: Result<seq<Grid>>)
    requires CoversBands(m.columnSwitch) && CoversBands(m.rowSwitch) && IsGrid(s)
    ensures r == SwitchApply(m, s, valid)
  {
    if !Fits(m) {
      return Err(ValueError);
    }
    BandOrderPermutes(m.rowSwitch);
    BandOrderPermutes(m.columnSwitch);
    var rowOrder, columnOrder := BandOrder(m.rowSwitch), BandOrder(m.columnSwitch);
    var a := new int[9, 9]((i, j) requires 0 <= i < 9 && 0 <= j < 9 => s[i][j]);
    var mid: Grid;
    if m.columnFirst {
      ScatterColumns(a, columnOrder, s);
      mid := Cells(a);
      ScatterRows(a, rowOrder, mid);
    } else {
      ScatterRows(a, rowOrder, s);
      mid := Cells(a);
      ScatterColumns(a, columnOrder, mid);
    }
    var out := Cells(a);
    ScatteredIsSwitched(m, s, mid, out);
    if !valid(out) {
      return Err(ValueError);
    }
    r := Ok([out]);
  }

  /*** The generator ***/

  /** The transforms a generator can hold. */
  datatype Transform = Rotation | FlipTransform | Switch(m: MajorSwitch)

  /** Construction checks a band switch, so every held switch covers the bands. */
  predicate WellFormed(t: Transform)
  {
    t.Switch? ==> CoversBands(t.m.columnSwitch) && CoversBands(t.m.rowSwitch)
  }

  predicate AllWellFormed(ts: seq<Transform>)
  {
    forall k :: 0 <= k < |ts| ==> WellFormed(ts[k])
  }

  predicate AllGrids(gs: seq<Grid>)
  {
    forall k :: 0 <= k < |gs| ==> IsGrid(gs[k])
  }

  /** `transform.apply(s)` for any held transform; every output is a 9 x 9 grid. */
  function TransformApply(t: Transform, s: Grid, valid: Grid -> bool): (r: Result<seq<Grid>>)
    requires WellFormed(t) && IsGrid(s)
    ensures r.Ok? ==> AllGrids(r.value)
  {
    var r := match t
      case Rotation => RotationApply(s, valid)
      case FlipTransform => FlipApply(s, valid)
      case Switch(m) => SwitchApply(m, s, valid);
    if r.Ok? then
      assert forall k :: 0 <= k < |r.value| ==> r.value[k] in r.value;
      r
    else r
  }

  method Apply(t: Transform, s: Grid, valid: Grid -> bool) returns (r: Result<seq<Grid>>)
    requires WellFormed(t) && IsGrid(s)
    ensures r == TransformApply(t, s, valid)
  {
    match t
    case Rotation => r := RotationApply(s, valid);
    case FlipTransform => r := FlipApply(s, valid);
    case Switch(m) => r := ApplySwitch(m, s, valid);
  }

  /** With a validity test that accepts everything, a rotation or a flip yields three
      sudokus and a band switch of three bands one. */
  lemma TransformApplyCount(t: Transform, s: Grid, valid: Grid -> bool)
    requires WellFormed(t) && IsGrid(s) && (t.Switch? ==> Fits(t.m)) && forall g :: valid(g)
    ensures var r := TransformApply(t, s, valid);
      r.Ok? && |r.value| == (if t.Switch? then 1 else 3)
  {
    match t
    case Rotation => RotationAsWrittenFails(s, valid);
    case FlipTransform => FlipAsWrittenDropsFlips(s, valid);
    case Switch(m) =>
  }

  /** `r` with `prefix` in front of its value. */
  function Prepend(prefix: seq<Grid>, r: Result<seq<Grid>>): Result<seq<Grid>>
  {
    if r.Err? then r else Ok(prefix + r.value)
  }

  /** The outputs of one transform over a list, concatenated in order; the first sudoku
      whose transform raises stops the pass. */
  function Outputs(t: Transform, gs: seq<Grid>, valid: Grid -> bool): (r: Result<seq<Grid>>)
    requires WellFormed(t) && AllGrids(gs)
    ensures r.Ok? ==> AllGrids(r.value)
  {
    if gs == [] then Ok([])
    else
      var first := TransformApply(t, gs[0], valid);
      if first.Err? then first else Prepend(first.value, Outputs(t, gs[1..], valid))
  }

  /** The generated list after each transform in turn extends it with its outputs; on
      the first failure the list stays as the transforms before left it. */
  function Built(gs: seq<Grid>, ts: seq<Transform>, valid: Grid -> bool): (r: (seq<Grid>, Option<Error>))
    requires AllGrids(gs) && AllWellFormed(ts)
    ensures AllGrids(r.0)
    decreases |ts|
  {
    if ts == [] then (gs, None)
    else
      var out := Outputs(ts[0], gs, valid);
      if out.Err? then (gs, Some(out.error)) else Built(gs + out.value, ts[1..], valid)
  }

  /** Building never loses a sudoku: the list before is a prefix of the list after. */
  lemma {:induction false} BuiltExtends(gs: seq<Grid>, ts: seq<Transform>, valid: Grid -> bool)
    requires AllGrids(gs) && AllWellFormed(ts)
    ensures gs <= Built(gs, ts, valid).0
    decreases |ts|
  {
    if ts != [] {
      var out := Outputs(ts[0], gs, valid);
      if out.Ok? {
        BuiltExtends(gs + out.value, ts[1..], valid);
      }
    }
  }

  /** With transforms that never reject a grid, a rotation or flip pass yields three
      sudokus per sudoku and a band-switch pass one. */
  lemma {:induction false} OutputsCount(t: Transform, gs: seq<Grid>, valid: Grid -> bool)
    requires WellFormed(t) && AllGrids(gs) && (t.Switch? ==> Fits(t.m)) && forall g :: valid(g)
    ensures var r := Outputs(t, gs, valid);
      r.Ok? && |r.value| == (if t.Switch? then 1 else 3) * |gs|
  {
    if gs != [] {
      var c := if t.Switch? then 1 else 3;
      TransformApplyCount(t, gs[0], valid);
      OutputsCount(t, gs[1..], valid);
      var first, rest := TransformApply(t, gs[0], valid), Outputs(t, gs[1..], valid);
      assert Outputs(t, gs, valid) == Ok(first.value + rest.value);
      assert c * |gs| == c + c * |gs[1..]|;
    }
  }

  /** One step of a pass: the outputs from position `j` on are those of `gs[j]`
      followed by the outputs after it. */
  lemma OutputsStep(t: Transform, gs: seq<Grid>, j: nat, valid: Grid -> bool)
    requires WellFormed(t) && AllGrids(gs) && j < |gs|
    ensures var first := TransformApply(t, gs[j], valid);
      Outputs(t, gs[j..], valid)
      == if first.Err? then first else Prepend(first.value, Outputs(t, gs[j + 1..], valid))
  {
    assert gs[j..][0] == gs[j] && gs[j..][1..] == gs[j + 1..];
  }

  lemma PrependNothing(r: Result<seq<Grid>>)
    ensures Prepend([], r) == r
  {
    if r.Ok? {
      assert [] + r.value == r.value;
    }
  }

  lemma PrependTwice(a: seq<Grid>, b: seq<Grid>, r: Result<seq<Grid>>)
    ensures Prepend(a, Prepend(b, r)) == Prepend(a + b, r)
  {
    if r.Ok? {
      assert a + (b + r.value) == (a + b) + r.value;
    }
  }

  /** One iteration of the inner loop of `build`: when the pass still to come is `cur`,
      `out` then `next`, an error ends it with that error and otherwise the outputs of
      `out` join the collected list. */
  lemma PassStep(all: Result<seq<Grid>>, cur: Result<seq<Grid>>, next: Result<seq<Grid>>,
                 newl: seq<Grid>, out: Result<seq<Grid>>)
    requires all == Prepend(newl, cur)
    requires cur == if out.Err? then out else Prepend(out.value, next)
    ensures out.Err? ==> all == out
    ensures out.Ok? ==> all == Prepend(newl + out.value, next)
  {
    if out.Ok? {
      PrependTwice(newl, out.value, next);
    }
  }

  /** The inner loop's step over `gs[j]`, whose outputs are `out`. */
  lemma PassAdvance(t: Transform, gs: seq<Grid>, j: nat, all: Result<seq<Grid>>, newl: seq<Grid>,
                    out: Result<seq<Grid>>, valid: Grid -> bool)
    requires WellFormed(t) && AllGrids(gs) && j < |gs|
    requires all == Prepend(newl, Outputs(t, gs[j..], valid))
    requires out == TransformApply(t, gs[j], valid)
    ensures out.Err? ==> all == out
    ensures out.Ok? ==> all == Prepend(newl + out.value, Outputs(t, gs[j + 1..], valid))
  {
    OutputsStep(t, gs, j, valid);
    PassStep(all, Outputs(t, gs[j..], valid), Outputs(t, gs[j + 1..], valid), newl, out);
  }

  /** The inner loop of `build`: `newl` collects the outputs of `t` over the list. */
  method RunPass(t: Transform, gs: seq<Grid>, valid: Grid -> bool) returns (r: Result<seq<Grid>>)
    requires WellFormed(t) && AllGrids(gs)
    ensures r == Outputs(t, gs, valid)
  {
    var newl: seq<Grid> := [];
    var j := 0;
    ghost var all := Outputs(t, gs, valid);
    assert gs[0..] == gs;
    PrependNothing(all);
    while j < |gs|
      invariant 0 <= j <= |gs|
      invariant all == Outputs(t, gs, valid)
      invariant all == Prepend(newl, Outputs(t, gs[j..], valid))
    {
      var out := Apply(t, gs[j], valid);
      PassAdvance(t, gs, j, all, newl, out, valid);
      if out.Err? {
        return out;
      }
      newl := newl + out.value;
      j := j + 1;
    }
    assert newl + [] == newl;
    return Ok(newl);
  }

  /** One iteration of the outer loop of `build`. */
  lemma BuildStep(gs: seq<Grid>, ts: seq<Transform>, i: nat, out: Result<seq<Grid>>, valid: Grid -> bool)
    requires AllGrids(gs) && AllWellFormed(ts) && i < |ts|
    requires out == Outputs(ts[i], gs, valid)
    ensures out.Err? ==> Built(gs, ts[i..], valid) == (gs, Some(out.error))
    ensures out.Ok? ==> AllGrids(gs + out.value) && Built(gs, ts[i..], valid) == Built(gs + out.value, ts[i + 1..], valid)
  {
    assert ts[i..][0] == ts[i] && ts[i..][1..] == ts[i + 1..];
  }

  class TransformSudokuGenerator {
    const valid: Grid -> bool
    var generated: seq<Grid>
    var transforms: seq<Transform>

    predicate Valid()
      reads this
    {
      AllGrids(generated) && AllWellFormed(transforms)
    }

    /** The generator starts from the sudokus its base class produced. */
    constructor (generated: seq<Grid>, valid: Grid -> bool)
      requires AllGrids(generated)
      ensures this.generated == generated && this.valid == valid && transforms == [] && Valid()
    {
      this.generated, this.valid, transforms := generated, valid, [];
    }

    /** `add_transform`. */
    method AddTransform(t: Transform)
      requires Valid() && WellFormed(t)
      modifies this
      ensures transforms == old(transforms) + [t] && generated == old(generated) && Valid()
    {
      transforms := transforms + [t];
    }

    /** `build`: for each transform, the outputs over the current list are collected and
        then appended; an exception leaves the list as the transforms before left it. */
    method Build() returns (err: Option<Error>)
      requires Valid()
      modifies this
      ensures transforms == old(transforms) && Valid()
      ensures (generated, err) == Built(old(generated), transforms, valid)
      ensures old(generated) <= generated
    {
      BuiltExtends(generated, transforms, valid);
      ghost var goal := Built(generated, transforms, valid);
      var i := 0;
      while i < |transforms|
        invariant 0 <= i <= |transforms| && Valid() && transforms == old(transforms)
        invariant goal == Built(generated, transforms[i..], valid)
      {
        var out := RunPass(transforms[i], generated, valid);
        BuildStep(generated, transforms, i, out, valid);
        if out.Err? {
          return Some(out.error);
        }
        generated := generated + out.value;
        i := i + 1;
      }
      err := None;
    }
  }
}
