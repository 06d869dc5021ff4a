/** The pure index arithmetic of the netCDF converter: how a lon-major grid is
    turned into a north-first row-major sequence, the regular axes of the
    regridder, the meshgrid point cloud, and the masks that put the sentinel
    in place of unusable values. */
module Grid {
  import opened Common
  import opened Steps

  // ---------------------------------------------------------------------------
  // Matrices as sequences of rows

  /** `m` has `rows` rows of `cols` values each. */
  predicate IsMatrix<T>(m: seq<seq<T>>, rows: nat, cols: nat) {
    |m| == rows && forall i :: 0 <= i < rows ==> |m[i]| == cols
  }

  /** `g.T` for a `rows` x `cols` matrix. */
  function Transpose<T>(g: seq<seq<T>>, rows: nat, cols: nat): (t: seq<seq<T>>)
    requires IsMatrix(g, rows, cols)
    ensures IsMatrix(t, cols, rows)
    ensures forall i, j :: 0 <= i < cols && 0 <= j < rows ==> t[i][j] == g[j][i]
  {
    seq(cols, i requires 0 <= i < cols => seq(rows, j requires 0 <= j < rows => g[j][i]))
  }

  /** `np.flipud(m)`: the rows in reverse order. */
  function FlipUd<T>(m: seq<seq<T>>): (f: seq<seq<T>>)
    ensures |f| == |m|
    ensures forall i :: 0 <= i < |m| ==> f[i] == m[|m| - 1 - i]
  {
    seq(|m|, i requires 0 <= i < |m| => m[|m| - 1 - i])
  }

  /** `m.flatten()`: the rows one after the other. */
  function Flatten<T>(m: seq<seq<T>>): seq<T>
    decreases |m|
  {
    if m == [] then [] else m[0] + Flatten(m[1..])
  }

  /** The position of row `i`, column `j` in rows of width `n` laid end to end. */
  function Idx(i: int, j: int, n: int): int {
    i * n + j
  }

  lemma IdxRange(i: int, j: int, rows: int, cols: int)
    requires 0 <= i < rows && 0 <= j < cols
    ensures 0 <= Idx(i, j, cols) < rows * cols
  {
    assert i * cols >= 0;
    assert (i + 1) * cols <= rows * cols;
  }

  /** A flat position below rows * n is in row k / n, column k % n. */
  lemma FlatRowCol(k: int, rows: int, n: int)
    requires n > 0 && 0 <= k < rows * n
    ensures 0 <= k / n < rows && 0 <= k % n < n && k == Idx(k / n, k % n, n)
  {
    MulBelow(k / n, rows, n);
  }

  lemma MulBelow(a: int, b: int, n: int)
    requires n > 0 && a * n < b * n
    ensures a < b
  {
  }

  lemma IdxStep(i: int, j: int, n: int)
    ensures Idx(i, j, n) == n + Idx(i - 1, j, n)
  {
  }

  lemma {:induction false} FlattenLength<T>(m: seq<seq<T>>, rows: nat, cols: nat)
    requires IsMatrix(m, rows, cols)
    ensures |Flatten(m)| == rows * cols
    decreases rows
  {
    if rows > 0 {
      FlattenLength(m[1..], rows - 1, cols);
    }
  }

  /** Flattening a matrix puts row `i`, column `j` at `Idx(i, j, cols)`. */
  lemma {:induction false} FlattenAt<T>(m: seq<seq<T>>, rows: nat, cols: nat)
    requires IsMatrix(m, rows, cols)
    ensures |Flatten(m)| == rows * cols
    ensures forall i, j :: 0 <= i < rows && 0 <= j < cols ==>
      0 <= Idx(i, j, cols) < |Flatten(m)| && Flatten(m)[Idx(i, j, cols)] == m[i][j]
    decreases rows
  {
    FlattenLength(m, rows, cols);
    if rows > 0 {
      FlattenAt(m[1..], rows - 1, cols);
      var f := Flatten(m);
      assert f == m[0] + Flatten(m[1..]);
      forall i, j | 0 <= i < rows && 0 <= j < cols
        ensures 0 <= Idx(i, j, cols) < |f| && f[Idx(i, j, cols)] == m[i][j]
      {
        IdxRange(i, j, rows, cols);
        if i > 0 {
          IdxStep(i, j, cols);
          assert m[1..][i - 1] == m[i];
        }
      }
    }
  }

  /** `np.flipud(np.squeeze(v).T).flatten()` for the lon-major grid `g`
      (`nx` longitude rows of `ny` latitude values). */
  function Orient<T>(g: seq<seq<T>>, nx: nat, ny: nat): seq<T>
    requires IsMatrix(g, nx, ny)
  {
    Flatten(FlipUd(Transpose(g, nx, ny)))
  }

  /** Orientation is an exact index map: output row `i` is source latitude
      `ny - 1 - i`, so row 0 holds the last latitude of the source. */
  lemma OrientAt<T>(g: seq<seq<T>>, nx: nat, ny: nat)
    requires IsMatrix(g, nx, ny)
    ensures |Orient(g, nx, ny)| == ny * nx
    ensures forall i, j :: 0 <= i < ny && 0 <= j < nx ==>
      0 <= Idx(i, j, nx) < ny * nx && Orient(g, nx, ny)[Idx(i, j, nx)] == g[j][ny - 1 - i]
  {
    var m := FlipUd(Transpose(g, nx, ny));
    FlattenAt(m, ny, nx);
  }

  // ---------------------------------------------------------------------------
  // np.arange and the regridding axes

  function Ceil(q: real): (c: int)
    ensures q <= c as real < q + 1.0
  {
    -((-q).Floor)
  }

  /** The number of values `np.arange(start, stop, step)` holds. */
  function ArangeCount(start: real, stop: real, step: real): (n: nat)
    requires step > 0.0
  {
    var c := Ceil((stop - start) / step);
    if c > 0 then c else 0
  }

  /** `np.arange(start, stop, step)`. */
  function Arange(start: real, stop: real, step: real): (a: seq<real>)
    requires step > 0.0
    ensures |a| == ArangeCount(start, stop, step)
    ensures forall k :: 0 <= k < |a| ==> a[k] == start + k as real * step
  {
    seq(ArangeCount(start, stop, step), k => start + k as real * step)
  }

  /** Every value of an arange is below `stop`, and one more step would not be. */
  lemma ArangeBounds(start: real, stop: real, step: real)
    requires step > 0.0
    ensures forall k :: 0 <= k < |Arange(start, stop, step)| ==> Arange(start, stop, step)[k] < stop
    ensures start + |Arange(start, stop, step)| as real * step >= stop
  {
    var a := Arange(start, stop, step);
    var n := |a|;
    forall k | 0 <= k < n ensures a[k] < stop {
      StepBelow(start, stop, step, k as real);
    }
    StepAtLeast(start, stop, step, n as real);
  }

  /** The target longitudes, `np.arange(0, 360, r)`. */
  function LonAxis(r: real): seq<real>
    requires r > 0.0
  {
    Arange(0.0, 360.0, r)
  }

  /** The target longitudes are `ceil(360 / r)` values, all in [0, 360). */
  lemma LonAxisShape(r: real)
    requires r > 0.0
    ensures |LonAxis(r)| == Ceil(360.0 / r)
    ensures forall k :: 0 <= k < |LonAxis(r)| ==> 0.0 <= LonAxis(r)[k] < 360.0
    ensures 0.0 + |LonAxis(r)| as real * r >= 360.0
  {
    ArangeBounds(0.0, 360.0, r);
    assert 360.0 / r > 0.0;
  }

  /** The target latitudes as the source writes them, `np.arange(-80, 80 + r, r)`. */
  function LatAxisAsWritten(r: real): seq<real>
    requires r > 0.0
  {
    Arange(-80.0, 80.0 + r, r)
  }

  /** With a resolution that does not divide 160 the written axis runs past 80:
      for r = 0.3 it holds 535 values and ends at 80.2. */
  lemma LatAxisOvershoots()
    ensures |LatAxisAsWritten(0.3)| == 535
    ensures LatAxisAsWritten(0.3)[534] == 80.2 > 80.0
  {
    var q := (80.0 + 0.3 - -80.0) / 0.3;
    assert q == 534.0 + 1.0 / 3.0;
    assert (-q).Floor == -535 by {
      assert (-535) as real <= -q < (-534) as real;
    }
  }

  /** The intended target latitudes -80, -80 + r, ... up to and including 80. */
  function LatAxis(r: real): (a: seq<real>)
    requires r > 0.0
    ensures |a| == (160.0 / r).Floor + 1
    ensures forall k :: 0 <= k < |a| ==> a[k] == -80.0 + k as real * r
  {
    var n := (160.0 / r).Floor + 1;
    assert 160.0 / r >= 0.0;
    seq(n, k => -80.0 + k as real * r)
  }

  /** Every one of the `n` target latitudes lies in [-80, 80], and one more
      step would pass 80, so no grid latitude of the band is missing. */
  lemma LatAxisBounds(r: real, n: nat)
    requires r > 0.0 && n == |LatAxis(r)|
    ensures forall k :: 0 <= k < n ==> -80.0 <= LatAxis(r)[k] <= 80.0
    ensures -80.0 + n as real * r > 80.0
  {
    var a := LatAxis(r);
    forall k | 0 <= k < n ensures -80.0 <= a[k] <= 80.0 {
      LatPointInBand(r, k);
    }
    LatAxisPast(r, n);
  }

  lemma LatAxisPast(r: real, n: nat)
    requires r > 0.0 && n == |LatAxis(r)|
    ensures -80.0 + n as real * r > 80.0
  {
    assert n as real > 160.0 / r;
    PastNorth(r, n);
  }

  lemma PastNorth(r: real, n: int)
    requires r > 0.0 && n as real > 160.0 / r
    ensures -80.0 + n as real * r > 80.0
  {
    StepPast(-80.0, 80.0, r, n as real);
  }

  lemma LatPointInBand(r: real, k: nat)
    requires r > 0.0 && k < |LatAxis(r)|
    ensures -80.0 <= -80.0 + k as real * r <= 80.0
  {
    assert (80.0 - -80.0) / r == 160.0 / r;
    StepFrom(-80.0, r, k as real);
    StepAtMost(-80.0, 80.0, r, k as real);
  }

  /** The written latitudes start at -80 and stay below 80 + r: the last
      one can pass 80 by less than one step. */
  lemma LatAxisAsWrittenBounds(r: real)
    requires r > 0.0
    ensures forall k :: 0 <= k < |LatAxisAsWritten(r)| ==> -80.0 <= LatAxisAsWritten(r)[k] < 80.0 + r
  {
    var w := LatAxisAsWritten(r);
    ArangeBounds(-80.0, 80.0 + r, r);
    forall k | 0 <= k < |w| ensures -80.0 <= w[k] {
      StepFrom(-80.0, r, k as real);
    }
  }

  /** The written axis is the intended one followed by at most one more
      latitude, and that one lies north of 80. */
  lemma LatAxisWrittenExtends(r: real)
    requires r > 0.0
    ensures |LatAxis(r)| <= |LatAxisAsWritten(r)| <= |LatAxis(r)| + 1
    ensures LatAxisAsWritten(r)[..|LatAxis(r)|] == LatAxis(r)
    ensures |LatAxisAsWritten(r)| > |LatAxis(r)| ==> LatAxisAsWritten(r)[|LatAxis(r)|] > 80.0
  {
    var w, a := LatAxisAsWritten(r), LatAxis(r);
    LatAxisWrittenLength(r);
    CeilFloor(160.0 / r);
    assert w[..|a|] == a;
    if |w| > |a| {
      var n := |a|;
      LatAxisPast(r, n);
      assert w[n] == -80.0 + n as real * r;
    }
  }

  lemma LatAxisWrittenLength(r: real)
    requires r > 0.0
    ensures |LatAxisAsWritten(r)| == Ceil(160.0 / r) + 1
  {
    var q := 160.0 / r;
    DivPlusOne(160.0, r);
    assert (80.0 + r - -80.0) / r == q + 1.0;
    CeilPlusOne(q);
    assert q >= 0.0;
  }

  lemma CeilFloor(q: real)
    ensures q.Floor <= Ceil(q) <= q.Floor + 1
  {
  }

  lemma CeilPlusOne(q: real)
    ensures Ceil(q + 1.0) == Ceil(q) + 1
  {
    var c, d := Ceil(q), Ceil(q + 1.0);
    assert q <= (d - 1) as real < q + 1.0;
  }

  /** When r divides 160 the written axis is the intended one. */
  lemma LatAxisAgrees(r: real)
    requires r > 0.0
    requires (160.0 / r).Floor as real == 160.0 / r
    ensures LatAxisAsWritten(r) == LatAxis(r)
  {
    var q := 160.0 / r;
    var w := (80.0 + r - -80.0) / r;
    DivPlusOne(160.0, r);
    assert Ceil(w) == q.Floor + 1;
  }

  // ---------------------------------------------------------------------------
  // np.meshgrid, flattened row-major

  /** `X.flatten()` of `X, Y = np.meshgrid(xs, ys)` with `ny` rows: every row
      repeats `xs`. */
  function MeshX(xs: seq<real>, ny: nat): (m: seq<real>)
    ensures |m| == ny * |xs|
    ensures forall i, j :: 0 <= i < ny && 0 <= j < |xs| ==>
      0 <= Idx(i, j, |xs|) < |m| && m[Idx(i, j, |xs|)] == xs[j]
  {
    var rows := seq(ny, i => xs);
    FlattenAt(rows, ny, |xs|);
    Flatten(rows)
  }

  /** `Y.flatten()` with `nx` columns: row `i` is `ys[i]` throughout. */
  function MeshY(ys: seq<real>, nx: nat): (m: seq<real>)
    ensures |m| == |ys| * nx
    ensures forall i, j :: 0 <= i < |ys| && 0 <= j < nx ==>
      0 <= Idx(i, j, nx) < |m| && m[Idx(i, j, nx)] == ys[i]
  {
    var rows := seq(|ys|, i requires 0 <= i < |ys| => seq(nx, j => ys[i]));
    FlattenAt(rows, |ys|, nx);
    Flatten(rows)
  }

  // ---------------------------------------------------------------------------
  // The point cloud handed to the interpolator

  /** Scattered samples: point `k` is (`xs[k]`, `ys[k]`) with value `vs[k]`. */
  datatype Cloud = Points(xs: seq<real>, ys: seq<real>, vs: seq<Float>)

  /** `X, Y = np.meshgrid(var.x, var.y)` paired with `var.data.flatten()`, as
      the source builds it. */
  function CloudAsWritten(x: seq<real>, y: seq<real>, data: seq<Float>): Cloud {
    Points(MeshX(x, |y|), MeshY(y, |x|), data)
  }

  /** The written cloud pairs each sample with the mirrored latitude: the value
      at coordinate (x[j], y[i]) is the one read at latitude y[ny - 1 - i]. */
  lemma CloudMirrorsRows(x: seq<real>, y: seq<real>, g: seq<seq<Float>>)
    requires IsMatrix(g, |x|, |y|)
    ensures var c := CloudAsWritten(x, y, Orient(g, |x|, |y|));
      forall i, j :: 0 <= i < |y| && 0 <= j < |x| ==>
        0 <= Idx(i, j, |x|) < |c.vs| &&
        c.ys[Idx(i, j, |x|)] == y[i] && c.vs[Idx(i, j, |x|)] == g[j][|y| - 1 - i]
  {
    OrientAt(g, |x|, |y|);
  }

  /** Two grid rows, one longitude: the written cloud puts the northern value
      at the southern coordinate. */
  lemma CloudMirrorsExample()
    ensures var c := CloudAsWritten([0.0], [-1.0, 1.0], Orient([[Fin(5.0), Fin(7.0)]], 1, 2));
      c.ys[0] == -1.0 && c.vs[0] == Fin(7.0)
  {
    OrientAt([[Fin(5.0), Fin(7.0)]], 1, 2);
  }

  /** With a latitude axis symmetric about the equator, the written cloud
      holds at every coordinate the sample read at the opposite latitude; a
      south-first target grid sampled from it therefore comes out north-first. */
  lemma CloudNegatesLatitude(x: seq<real>, y: seq<real>, g: seq<seq<Float>>)
    requires IsMatrix(g, |x|, |y|)
    requires forall k :: 0 <= k < |y| ==> y[|y| - 1 - k] == -y[k]
    ensures var c := CloudAsWritten(x, y, Orient(g, |x|, |y|));
      forall i, j :: 0 <= i < |y| && 0 <= j < |x| ==>
        0 <= Idx(i, j, |x|) < |c.vs| &&
        c.vs[Idx(i, j, |x|)] == g[j][|y| - 1 - i] && y[|y| - 1 - i] == -c.ys[Idx(i, j, |x|)]
  {
    CloudMirrorsRows(x, y, g);
  }

  /** The values an interpolant gives at the target points, in the order of
      `np.meshgrid(lon, lat)` flattened: row `i` is latitude `lat[i]`. */
  function Regridded(c: Cloud, lon: seq<real>, lat: seq<real>, interp: (Cloud, real, real) -> Float): (d: seq<Float>)
    ensures |d| == |lat| * |lon|
    ensures forall i, j :: 0 <= i < |lat| && 0 <= j < |lon| ==>
      0 <= Idx(i, j, |lon|) < |d| && d[Idx(i, j, |lon|)] == interp(c, lon[j], lat[i])
  {
    var rows := seq(|lat|, i requires 0 <= i < |lat| => seq(|lon|, j requires 0 <= j < |lon| => interp(c, lon[j], lat[i])));
    FlattenAt(rows, |lat|, |lon|);
    Flatten(rows)
  }

  /** The reshaped data read flat: value `k` is the interpolant at the `k`-th
      target point, (`X[k]`, `Y[k]`) of the flattened target meshgrid. */
  lemma RegriddedFlat(c: Cloud, lon: seq<real>, lat: seq<real>, interp: (Cloud, real, real) -> Float)
    ensures var d, xs, ys := Regridded(c, lon, lat, interp), MeshX(lon, |lat|), MeshY(lat, |lon|);
      |xs| == |ys| == |d| &&
      forall k :: 0 <= k < |d| ==>
        0 <= k / |lon| < |lat| && 0 <= k % |lon| < |lon| &&
        xs[k] == lon[k % |lon|] && ys[k] == lat[k / |lon|] && d[k] == interp(c, xs[k], ys[k])
  {
    var d, xs, ys := Regridded(c, lon, lat, interp), MeshX(lon, |lat|), MeshY(lat, |lon|);
    forall k | 0 <= k < |d|
      ensures 0 <= k / |lon| < |lat| && 0 <= k % |lon| < |lon|
      ensures xs[k] == lon[k % |lon|] && ys[k] == lat[k / |lon|] && d[k] == interp(c, xs[k], ys[k])
    {
      var n := |lon|;
      assert n > 0;
      FlatRowCol(k, |lat|, n);
      var i, j := k / n, k % n;
      assert xs[Idx(i, j, n)] == lon[j];
      assert ys[Idx(i, j, n)] == lat[i];
      assert d[Idx(i, j, n)] == interp(c, lon[j], lat[i]);
    }
  }

  // ---------------------------------------------------------------------------
  // Longitude shift and sentinel masks

  /** `x[x < 0] += 360`. */
  function ShiftLon(x: seq<real>): (r: seq<real>)
    ensures |r| == |x|
  {
    seq(|x|, k requires 0 <= k < |x| => if x[k] < 0.0 then x[k] + 360.0 else x[k])
  }

  /** Longitudes in [-360, 360) land in [0, 360), non-negative ones unchanged. */
  lemma ShiftLonRange(x: seq<real>)
    requires forall k :: 0 <= k < |x| ==> -360.0 <= x[k] < 360.0
    ensures forall k :: 0 <= k < |x| ==> 0.0 <= ShiftLon(x)[k] < 360.0
    ensures forall k :: 0 <= k < |x| && x[k] >= 0.0 ==> ShiftLon(x)[k] == x[k]
  {
  }

  /** A second shift changes nothing. */
  lemma ShiftLonIdempotent(x: seq<real>)
    requires forall k :: 0 <= k < |x| ==> x[k] >= -360.0
    ensures ShiftLon(ShiftLon(x)) == ShiftLon(x)
  {
  }

  lemma ShiftLonExample()
    ensures ShiftLon([-10.0, 0.0, 10.0]) == [350.0, 0.0, 10.0]
  {
  }

  predicate IsNaN(v: Float) {
    v.NaN?
  }

  /** `v > extranan`; `None` stands for the default `np.inf`, which no finite
      value exceeds. NaN compares false. */
  predicate TooHigh(extranan: Option<real>, v: Float) {
    extranan.Some? && v.Fin? && v.val > extranan.value
  }

  /** `v < -extranan`. */
  predicate TooLow(extranan: Option<real>, v: Float) {
    extranan.Some? && v.Fin? && v.val < -extranan.value
  }

  /** `a[p(a)] = fill`. */
  function Masked(s: seq<Float>, p: Float -> bool, fill: Float): (r: seq<Float>)
    ensures |r| == |s|
  {
    seq(|s|, k requires 0 <= k < |s| => if p(s[k]) then fill else s[k])
  }

  /** The three masked assignments, in the order the source makes them. */
  function Sanitized(s: seq<Float>, nanvalue: real, extranan: Option<real>): seq<Float> {
    var fill := Fin(nanvalue);
    Masked(Masked(Masked(s, IsNaN, fill), v => TooHigh(extranan, v), fill), v => TooLow(extranan, v), fill)
  }

  /** The value is unusable: NaN or beyond the sanity threshold. */
  predicate Unusable(v: Float, extranan: Option<real>) {
    v.NaN? || TooHigh(extranan, v) || TooLow(extranan, v)
  }

  /** After the masks every unusable value is the sentinel and every other
      value is what it was. */
  lemma SanitizedAt(s: seq<Float>, nanvalue: real, extranan: Option<real>)
    ensures |Sanitized(s, nanvalue, extranan)| == |s|
    ensures forall k :: 0 <= k < |s| ==>
      Sanitized(s, nanvalue, extranan)[k] == if Unusable(s[k], extranan) then Fin(nanvalue) else s[k]
  {
    var fill := Fin(nanvalue);
    var s1 := Masked(s, IsNaN, fill);
    var s2 := Masked(s1, v => TooHigh(extranan, v), fill);
    var s3 := Masked(s2, v => TooLow(extranan, v), fill);
    assert s3 == Sanitized(s, nanvalue, extranan);
    forall k | 0 <= k < |s|
      ensures s3[k] == if Unusable(s[k], extranan) then fill else s[k]
    {
      assert s1[k] == if IsNaN(s[k]) then fill else s[k];
      assert s2[k] == if TooHigh(extranan, s1[k]) then fill else s1[k];
      assert s3[k] == if TooLow(extranan, s2[k]) then fill else s2[k];
    }
  }
}
