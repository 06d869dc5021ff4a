/** The `Process` objects of the netCDF converter: one variable of a dataset
    read into flat arrays, and the two in-place passes over them, `fix_data`
    and `interpolate`. */
module Process {
  import opened Common
  import opened Grid
  import opened NcConfig

  /** The parts of an opened netCDF dataset the reader touches: the sizes of
      the `longitude` and `latitude` dimensions, the `lon`, `lat` and `time`
      variables, and the data variables by name, each a lon-major grid of one
      level and one time step. */
  datatype Dataset = Dataset(
    lonSize: nat,
    latSize: nat,
    lon: seq<real>,
    lat: seq<real>,
    time: seq<real>,
    vars: map<string, seq<seq<Float>>>)

  /** Every data variable is dimensioned (longitude, latitude). */
  predicate WellFormed(ds: Dataset) {
    forall name :: name in ds.vars ==> IsMatrix(ds.vars[name], ds.lonSize, ds.latSize)
  }

  /** `num2date(t, units, calendar)`, a calendar library call. */
  type Decoder = (real, string, string) -> DateTime

  /** `np.around(v, 2)`, a floating-point library call. */
  type Rounder = Float -> Float

  /** A value-by-value map of a sequence. */
  function MapFloat(f: Rounder, s: seq<Float>): (r: seq<Float>)
    ensures |r| == |s|
    ensures forall k :: 0 <= k < |s| ==> r[k] == f(s[k])
  {
    seq(|s|, k requires 0 <= k < |s| => f(s[k]))
  }

  /** The units string handed to the decoder. */
  function Units(basedate: string): string {
    "days since " + basedate
  }

  /** What the `Times` loop appends: one decoded date per time value, each
      shifted back by eight days. */
  function DecodedTimes(time: seq<real>, basedate: string, calendar: string, decode: Decoder): (r: seq<DateTime>)
    ensures |r| == |time|
    ensures forall k :: 0 <= k < |time| ==> r[k] == decode(time[k] - 8.0, Units(basedate), calendar)
  {
    seq(|time|, k requires 0 <= k < |time| => decode(time[k] - 8.0, Units(basedate), calendar))
  }

  /** The sequence as a fresh array. */
  method ToArray<T>(s: seq<T>) returns (a: array<T>)
    ensures fresh(a)
    ensures a[..] == s
  {
    a := new T[|s|](k requires 0 <= k < |s| => s[k]);
  }

  class Field {
    var nx: nat
    var ny: nat
    var dx: real
    var dy: real
    /** Longitudes, latitudes and data, each flat. */
    var x: array<real>
    var y: array<real>
    var data: array<Float>
    var time: seq<real>
    var times: seq<DateTime>
    var config: Config

    /** The data holds `ny` rows of `nx` values, the two coordinate arrays
        are distinct, and the configuration is complete. */
    ghost predicate Valid()
      reads this, config
    {
      data.Length == nx * ny && x != y && config.Valid()
    }

    /** `Process(file, var, config)`: read variable `name` with the given
        configuration, or a default one when none is given. */
    constructor (ds: Dataset, name: string, given: Option<Config>, round: Rounder, decode: Decoder)
      requires WellFormed(ds) && name in ds.vars
      requires given.Some? ==> given.value.Valid()
      ensures Valid()
      ensures given.Some? ==> config == given.value
      ensures given.None? ==> fresh(config) && config.entries == Defaults
      ensures nx == ds.lonSize && ny == ds.latSize
      ensures dx == 0.25 && dy == 0.25
      ensures fresh(x) && fresh(y) && fresh(data)
      ensures x[..] == ds.lon && y[..] == ds.lat
      ensures data[..] == MapFloat(round, Orient(ds.vars[name], ds.lonSize, ds.latSize))
      ensures time == ds.time
      ensures times == DecodedTimes(ds.time, config.BaseDate(), config.Calendar(), decode)
    {
      var c: Config;
      if given.Some? {
        c := given.value;
      } else {
        c := new Config(map[]);
        ResolvedNothing();
      }
      var g := ds.vars[name];
      var oriented := Orient(g, ds.lonSize, ds.latSize);
      OrientAt(g, ds.lonSize, ds.latSize);
      var ts := DecodeTimes(ds.time, c.BaseDate(), c.Calendar(), decode);
      var xs := ToArray(ds.lon);
      var ys := ToArray(ds.lat);
      var d := ToArray(MapFloat(round, oriented));
      config := c;
      nx, ny := ds.lonSize, ds.latSize;
      dx, dy := 0.25, 0.25;
      x, y, data := xs, ys, d;
      time, times := ds.time, ts;
    }
  }

  /** The `Times` loop: decode every time value in turn and append it. */
  method DecodeTimes(time: seq<real>, basedate: string, calendar: string, decode: Decoder)
    returns (times: seq<DateTime>)
    ensures times == DecodedTimes(time, basedate, calendar, decode)
  {
    times := [];
    for k := 0 to |time|
      invariant times == DecodedTimes(time[..k], basedate, calendar, decode)
    {
      times := times + [decode(time[k] - 8.0, Units(basedate), calendar)];
    }
    assert time[..|time|] == time;
  }

  /** `x[x < 0] = x[x < 0] + 360` on an array. */
  method ShiftInPlace(a: array<real>)
    modifies a
    ensures a[..] == ShiftLon(old(a[..]))
  {
    for k := 0 to a.Length
      invariant a[..k] == ShiftLon(old(a[..]))[..k]
      invariant a[k..] == old(a[..])[k..]
    {
      if a[k] < 0.0 {
        a[k] := a[k] + 360.0;
      }
    }
  }

  /** `a[p(a)] = fill` on an array. */
  method MaskInPlace(a: array<Float>, p: Float -> bool, fill: Float)
    modifies a
    ensures a[..] == Masked(old(a[..]), p, fill)
  {
    for k := 0 to a.Length
      invariant a[..k] == Masked(old(a[..]), p, fill)[..k]
      invariant a[k..] == old(a[..])[k..]
    {
      if p(a[k]) {
        a[k] := fill;
      }
    }
  }

  /** The three masked assignments that put the sentinel in place of NaN and
      of values beyond the sanity threshold. */
  method SanitizeInPlace(a: array<Float>, nanvalue: real, extranan: Option<real>)
    modifies a
    ensures a[..] == Sanitized(old(a[..]), nanvalue, extranan)
  {
    var fill := Fin(nanvalue);
    MaskInPlace(a, IsNaN, fill);
    MaskInPlace(a, v => TooHigh(extranan, v), fill);
    MaskInPlace(a, v => TooLow(extranan, v), fill);
  }

  /** `fix_data(var, config, extranan)`: shift the longitudes and mask the
      data, both in place; nothing else of the field changes. */
  method FixData(f: Field, config: Config, extranan: Option<real>)
    requires f.Valid() && config.Valid()
    modifies f.x, f.data
    ensures f.Valid()
    ensures f.x[..] == ShiftLon(old(f.x[..]))
    ensures f.data[..] == Sanitized(old(f.data[..]), config.Nanvalue(), extranan)
  {
    ShiftInPlace(f.x);
    SanitizeInPlace(f.data, config.Nanvalue(), extranan);
  }

  /** `interpolate(var, r, config, extranan)`: shift the longitudes of the
      current array in place, interpolate the cloud the source builds onto the
      grid of `arange(0, 360, r)` by `arange(-80, 80 + r, r)`, mask the
      result, and replace the coordinates by the flattened target meshgrid
      and the metadata by the target shape. */
  method Interpolate(f: Field, r: real, config: Config, extranan: Option<real>,
                     interp: (Cloud, real, real) -> Float)
    requires r > 0.0 && f.Valid() && config.Valid()
    modifies f, f.x
    ensures f.Valid() && f.config == old(f.config)
    ensures old(f.x)[..] == ShiftLon(old(f.x[..]))
    ensures var lon, lat := LonAxis(r), LatAxisAsWritten(r);
      f.nx == |lon| && f.ny == |lat| && f.dx == r && f.dy == r &&
      f.x[..] == MeshX(lon, |lat|) && f.y[..] == MeshY(lat, |lon|) &&
      f.data[..] == Sanitized(
        Regridded(CloudAsWritten(ShiftLon(old(f.x[..])), old(f.y[..]), old(f.data[..])), lon, lat, interp),
        config.Nanvalue(), extranan)
    ensures fresh(f.x) && fresh(f.y) && fresh(f.data)
    ensures f.time == old(f.time) && f.times == old(f.times)
  {
    ShiftInPlace(f.x);
    var lon, lat := LonAxis(r), LatAxisAsWritten(r);
    var cloud := CloudAsWritten(f.x[..], f.y[..], f.data[..]);
    var d := RegridData(cloud, lon, lat, interp, config.Nanvalue(), extranan);
    var xs := ToArray(MeshX(lon, |lat|));
    var ys := ToArray(MeshY(lat, |lon|));
    Replace(f, xs, ys, d, r, |lon|, |lat|);
  }

  /** The final assignments of `interpolate`: new coordinates, data and shape. */
  method Replace(f: Field, xs: array<real>, ys: array<real>, d: array<Float>, r: real, nx: nat, ny: nat)
    requires xs != ys && d.Length == nx * ny && f.config.Valid()
    modifies f
    ensures f.Valid()
    ensures f.x == xs && f.y == ys && f.data == d
    ensures f.dx == r && f.dy == r && f.nx == nx && f.ny == ny
    ensures f.config == old(f.config) && f.time == old(f.time) && f.times == old(f.times)
  {
    f.x, f.y, f.data := xs, ys, d;
    f.dx, f.dy := r, r;
    f.nx, f.ny := nx, ny;
  }

  /** `griddata` onto the target points, then the three masks. */
  method RegridData(c: Cloud, lon: seq<real>, lat: seq<real>, interp: (Cloud, real, real) -> Float,
                    nanvalue: real, extranan: Option<real>) returns (d: array<Float>)
    ensures fresh(d)
    ensures d.Length == |lon| * |lat|
    ensures d[..] == Sanitized(Regridded(c, lon, lat, interp), nanvalue, extranan)
  {
    d := ToArray(Regridded(c, lon, lat, interp));
    SanitizeInPlace(d, nanvalue, extranan);
  }

  /** The regridded field covers the target grid: every longitude is in
      [0, 360), every latitude in [-80, 80 + r), and the data sits at the
      meshgrid point of its position. */
  lemma RegriddedShape(r: real, c: Cloud, interp: (Cloud, real, real) -> Float)
    requires r > 0.0
    ensures var lon, lat := LonAxis(r), LatAxisAsWritten(r);
      var xs, ys, d := MeshX(lon, |lat|), MeshY(lat, |lon|), Regridded(c, lon, lat, interp);
      |xs| == |ys| == |d| == |lat| * |lon| &&
      forall i, j :: 0 <= i < |lat| && 0 <= j < |lon| ==>
        0 <= Idx(i, j, |lon|) < |d| &&
        0.0 <= xs[Idx(i, j, |lon|)] < 360.0 && -80.0 <= ys[Idx(i, j, |lon|)] < 80.0 + r &&
        d[Idx(i, j, |lon|)] == interp(c, xs[Idx(i, j, |lon|)], ys[Idx(i, j, |lon|)])
  {
    LonAxisShape(r);
    LatAxisAsWrittenBounds(r);
  }
}
