/** The earth-format JSON writer of the netCDF converter: the header template,
    the reference time string, the null masking of the sentinel, the U and V
    records, the `[rec,rec]` framing of the output file, and the output stems. */
module Encoder {
  import opened Common
  import opened PyText
  import opened NcConfig
  import opened Process

  // ---------------------------------------------------------------------------
  // Extremes of the coordinates

  /** `a.min()` of a non-empty array. */
  function Min(s: seq<real>): (m: real)
    requires |s| > 0
    ensures m in s
    ensures forall k :: 0 <= k < |s| ==> m <= s[k]
  {
    if |s| == 1 then s[0]
    else
      var t := Min(s[1..]);
      if s[0] <= t then s[0] else t
  }

  /** `a.max()` of a non-empty array. */
  function Max(s: seq<real>): (m: real)
    requires |s| > 0
    ensures m in s
    ensures forall k :: 0 <= k < |s| ==> s[k] <= m
  {
    if |s| == 1 then s[0]
    else
      var t := Max(s[1..]);
      if s[0] >= t then s[0] else t
  }

  /** `v` is a finite number that is the least value of `s`. */
  predicate IsMinOf(v: Json, s: seq<real>) {
    v.JNum? && v.f.Fin? && v.f.val in s && forall k :: 0 <= k < |s| ==> v.f.val <= s[k]
  }

  /** `v` is a finite number that is the greatest value of `s`. */
  predicate IsMaxOf(v: Json, s: seq<real>) {
    v.JNum? && v.f.Fin? && v.f.val in s && forall k :: 0 <= k < |s| ==> s[k] <= v.f.val
  }

  // ---------------------------------------------------------------------------
  // The header template

  /** The fixed part of the template: the product identifiers of an ocean
      current U component at 15 m depth. */
  const Constants: map<string, Json> := map[
    "discipline" := JInt(10),
    "disciplineName" := JStr("Oceanographic_products"),
    "center" := JInt(-3),
    "centerName" := JStr("Plymouth Marine Laboratory"),
    "significanceOfRT" := JInt(0),
    "significanceOfRTName" := JStr("Analysis"),
    "parameterCategory" := JInt(1),
    "parameterCategoryName" := JStr("Currents"),
    "parameterNumber" := JInt(2),
    "parameterNumberName" := JStr("U_component_of_current"),
    "parameterUnit" := JStr("m.s-1"),
    "forecastTime" := JInt(0),
    "surface1Type" := JInt(160),
    "surface1TypeName" := JStr("Depth below sea level"),
    "surface1Value" := JInt(15),
    "shape" := JInt(0),
    "shapeName" := JStr("Earth spherical with radius = 6,367,470 m"),
    "scanMode" := JInt(0)
  ]

  /** The fields of the template taken from the U field. */
  const GridKeys: set<string> := {"numberPoints", "nx", "ny", "lo1", "la1", "lo2", "la2", "dx", "dy"}

  /** The fields of the template taken from the U field. */
  function GridFields(nx: int, ny: int, x: seq<real>, y: seq<real>, dx: real, dy: real): (g: map<string, Json>)
    requires |x| > 0 && |y| > 0
    ensures g.Keys == GridKeys
    ensures g["numberPoints"] == JInt(nx * ny) && g["nx"] == JInt(nx) && g["ny"] == JInt(ny)
    ensures IsMinOf(g["lo1"], x) && IsMaxOf(g["la1"], y) && IsMaxOf(g["lo2"], x) && IsMinOf(g["la2"], y)
    ensures g["dx"] == JNum(Fin(dx)) && g["dy"] == JNum(Fin(dy))
  {
    map[
      "numberPoints" := JInt(nx * ny),
      "nx" := JInt(nx),
      "ny" := JInt(ny),
      "lo1" := JNum(Fin(Min(x))),
      "la1" := JNum(Fin(Max(y))),
      "lo2" := JNum(Fin(Max(x))),
      "la2" := JNum(Fin(Min(y))),
      "dx" := JNum(Fin(dx)),
      "dy" := JNum(Fin(dy))
    ]
  }

  /** `header['template']` for a field of `nx` by `ny` points with coordinates
      `x`, `y` and spacing `dx`, `dy`; an empty coordinate array makes
      `min()` raise. */
  function Template(nx: int, ny: int, x: seq<real>, y: seq<real>, dx: real, dy: real): (r: Result<map<string, Json>>)
    ensures r.Err? <==> |x| == 0 || |y| == 0
    ensures r.Err? ==> r.error.ValueError?
  {
    if |x| == 0 || |y| == 0 then Err(ValueError("zero-size array to reduction operation"))
    else Ok(Constants + GridFields(nx, ny, x, y, dx, dy))
  }

  /** A template holds the fixed fields unchanged and the grid fields, and
      nothing else. */
  lemma TemplateContents(nx: int, ny: int, x: seq<real>, y: seq<real>, dx: real, dy: real)
    requires |x| > 0 && |y| > 0
    ensures var h := Template(nx, ny, x, y, dx, dy).value;
      h.Keys == Constants.Keys + GridKeys &&
      (forall k :: k in Constants ==> h[k] == Constants[k]) &&
      (forall k :: k in GridKeys ==> h[k] == GridFields(nx, ny, x, y, dx, dy)[k])
  {
    KeysApart();
  }

  /** No fixed field is also taken from the grid. */
  lemma KeysApart()
    ensures Constants.Keys !! GridKeys
  {
    NotConstant1();
    NotConstant2();
    NotConstant3();
    forall k | k in GridKeys ensures k !in Constants {
    }
  }

  lemma NotConstant1()
    ensures "numberPoints" !in Constants
  {
  }

  lemma NotConstant2()
    ensures "lo1" !in Constants && "la1" !in Constants && "lo2" !in Constants && "la2" !in Constants
  {
  }

  lemma NotConstant3()
    ensures "nx" !in Constants && "ny" !in Constants && "dx" !in Constants && "dy" !in Constants
  {
  }

  /** The grid part of the template: `numberPoints = nx * ny`, `lo1`/`lo2`
      the least and greatest longitude, `la1`/`la2` the greatest and least
      latitude, and the spacing copied. */
  lemma TemplateGrid(nx: int, ny: int, x: seq<real>, y: seq<real>, dx: real, dy: real)
    requires |x| > 0 && |y| > 0
    ensures var h := Template(nx, ny, x, y, dx, dy).value;
      h["numberPoints"] == JInt(nx * ny) && h["nx"] == JInt(nx) && h["ny"] == JInt(ny) &&
      IsMinOf(h["lo1"], x) && IsMaxOf(h["la1"], y) && IsMaxOf(h["lo2"], x) && IsMinOf(h["la2"], y) &&
      h["dx"] == JNum(Fin(dx)) && h["dy"] == JNum(Fin(dy))
  {
    TemplateContents(nx, ny, x, y, dx, dy);
  }

  /** The template of a field that holds a non-empty grid: `lo1 <= lo2` and
      `la2 <= la1`, so the grid is described west to east and north to south. */
  lemma TemplateOrder(nx: int, ny: int, x: seq<real>, y: seq<real>, dx: real, dy: real)
    requires |x| > 0 && |y| > 0
    ensures var h := Template(nx, ny, x, y, dx, dy).value;
      h["lo1"].f.val <= h["lo2"].f.val && h["la2"].f.val <= h["la1"].f.val
  {
    TemplateGrid(nx, ny, x, y, dx, dy);
    assert Min(x) <= x[0] <= Max(x);
    assert Min(y) <= y[0] <= Max(y);
  }

  // ---------------------------------------------------------------------------
  // The reference time

  /** The fields a parsed `%Y-%m-%d %H:%M:%S` timestamp can hold. */
  predicate InRange(d: DateTime) {
    1 <= d.year <= 9999 && 1 <= d.month <= 12 && 1 <= d.day <= 31 &&
    d.hour < 24 && d.minute < 60 && d.second < 60
  }

  /** `'{:04d}-{:02d}-{:02d}T{:02d}:{:02d}:{:06.3f}Z'` of the date's fields;
      the integral second is written with two digits and three zero decimals. */
  function RefTime(d: DateTime): string {
    ZeroPad(d.year, 4) + "-" + ZeroPad(d.month, 2) + "-" + ZeroPad(d.day, 2) + "T" +
    ZeroPad(d.hour, 2) + ":" + ZeroPad(d.minute, 2) + ":" + ZeroPad(d.second, 2) + ".000Z"
  }

  /** Positions `i` to `j` of `s` are decimal digits. */
  predicate DigitsAt(s: string, i: int, j: int)
    requires 0 <= i <= j <= |s|
  {
    forall k :: i <= k < j ==> IsDigit(s[k])
  }

  /** The `YYYY-MM-DDTHH:MM:SS.mmmZ` layout: 24 characters, digits in the
      numeric fields and the separators in between. */
  predicate RefTimeShaped(s: string) {
    |s| == 24 &&
    DigitsAt(s, 0, 4) && s[4] == '-' && DigitsAt(s, 5, 7) && s[7] == '-' &&
    DigitsAt(s, 8, 10) && s[10] == 'T' && DigitsAt(s, 11, 13) && s[13] == ':' &&
    DigitsAt(s, 14, 16) && s[16] == ':' && DigitsAt(s, 17, 19) && s[19..] == ".000Z"
  }

  /** The number in positions `i` to `j`. */
  function NumberAt(s: string, i: int, j: int): nat
    requires 0 <= i <= j <= |s| && DigitsAt(s, i, j)
  {
    var t := s[i..j];
    assert forall k :: 0 <= k < |t| ==> IsDigit(t[k]) by {
      forall k | 0 <= k < |t| ensures IsDigit(t[k]) {
        assert t[k] == s[i + k];
      }
    }
    ParseNat(t)
  }

  /** Reading the fields back from a reference time string. */
  function ParseRefTime(s: string): DateTime
    requires RefTimeShaped(s)
  {
    DateTime(NumberAt(s, 0, 4), NumberAt(s, 5, 7), NumberAt(s, 8, 10),
             NumberAt(s, 11, 13), NumberAt(s, 14, 16), NumberAt(s, 17, 19))
  }

  lemma Pow10Small()
    ensures Pow10(2) == 100 && Pow10(4) == 10000
  {
    assert Pow10(1) == 10;
    assert Pow10(3) == 1000;
  }

  /** Where each field of a written reference time sits. */
  lemma RefTimeLayout(d: DateTime)
    requires InRange(d)
    ensures var s := RefTime(d);
      |s| == 24 && s[0..4] == ZeroPad(d.year, 4) && s[4] == '-' && s[5..7] == ZeroPad(d.month, 2) &&
      s[7] == '-' && s[8..10] == ZeroPad(d.day, 2) && s[10] == 'T' && s[11..13] == ZeroPad(d.hour, 2) &&
      s[13] == ':' && s[14..16] == ZeroPad(d.minute, 2) && s[16] == ':' &&
      s[17..19] == ZeroPad(d.second, 2) && s[19..] == ".000Z"
  {
    Pow10Small();
    var y, mo, da := ZeroPad(d.year, 4), ZeroPad(d.month, 2), ZeroPad(d.day, 2);
    var h, mi, se := ZeroPad(d.hour, 2), ZeroPad(d.minute, 2), ZeroPad(d.second, 2);
    ZeroPadLength(d.year, 4);
    ZeroPadLength(d.month, 2);
    ZeroPadLength(d.day, 2);
    ZeroPadLength(d.hour, 2);
    ZeroPadLength(d.minute, 2);
    ZeroPadLength(d.second, 2);
    var s := RefTime(d);
    assert s == y + "-" + mo + "-" + da + "T" + h + ":" + mi + ":" + se + ".000Z";
    assert s[0..4] == y;
    assert s[5..7] == mo;
    assert s[8..10] == da;
    assert s[11..13] == h;
    assert s[14..16] == mi;
    assert s[17..19] == se;
  }

  /** A field written in positions `i` to `j` is read back. */
  lemma FieldReadBack(s: string, i: int, j: int, n: nat, w: nat)
    requires 0 <= i <= j <= |s| && s[i..j] == ZeroPad(n, w)
    ensures DigitsAt(s, i, j) && NumberAt(s, i, j) == n
  {
    forall k | i <= k < j ensures IsDigit(s[k]) {
      assert s[k] == s[i..j][k - i];
    }
    ZeroPadRoundTrip(n, w);
  }

  /** Every date a timestamp can hold is written in the 24-character layout,
      and the written string gives back every field. */
  lemma RefTimeRoundTrip(d: DateTime)
    requires InRange(d)
    ensures RefTimeShaped(RefTime(d))
    ensures ParseRefTime(RefTime(d)) == d
  {
    var s := RefTime(d);
    RefTimeLayout(d);
    FieldReadBack(s, 0, 4, d.year, 4);
    FieldReadBack(s, 5, 7, d.month, 2);
    FieldReadBack(s, 8, 10, d.day, 2);
    FieldReadBack(s, 11, 13, d.hour, 2);
    FieldReadBack(s, 14, 16, d.minute, 2);
    FieldReadBack(s, 17, 19, d.second, 2);
  }

  /** `Times[clip[tname][0]]`: a missing time key raises, a bare integer
      entry cannot be indexed by `[0]`, and an index out of range raises. */
  function SelectTime(times: seq<DateTime>, clip: map<string, ClipEntry>, tname: string): (r: Result<DateTime>)
    ensures tname !in clip ==> r == Err(KeyError(tname))
    ensures tname in clip && clip[tname].Single? ==> r == Err(TypeError("'int' object is not subscriptable"))
    ensures tname in clip && clip[tname].Pair? ==> r == PyIndex(times, clip[tname].start)
  {
    if tname !in clip then Err(KeyError(tname))
    else if clip[tname].Single? then Err(TypeError("'int' object is not subscriptable"))
    else PyIndex(times, clip[tname].start)
  }

  /** The default clip has no time key, so a writer using the default
      configuration fails at the time lookup. */
  lemma DefaultClipHasNoTime(times: seq<DateTime>)
    ensures SelectTime(times, Defaults["clip"].m, Defaults["tname"].s) == Err(KeyError("time"))
  {
    assert "time" !in map["depth" := Pair(0, 1)];
  }

  /** The driver's clip selects the first time step. */
  lemma MainClipSelectsFirst(times: seq<DateTime>, file: string)
    requires file != "" && |times| > 0
    ensures var m := Resolved(MainArgs(file));
      SelectTime(times, m["clip"].m, m["tname"].s) == Ok(times[0])
  {
    MainConfig(file);
  }

  // ---------------------------------------------------------------------------
  // Null masking

  /** `[None if i == nanvalue else i for i in data]`. */
  function NullMask(data: seq<Float>, nanvalue: real): (r: seq<Json>)
    ensures |r| == |data|
  {
    seq(|data|, k requires 0 <= k < |data| => if data[k] == Fin(nanvalue) then JNull else JNum(data[k]))
  }

  /** Reading a masked list back, with null standing for the sentinel. */
  function Unmask(items: seq<Json>, nanvalue: real): (r: seq<Float>)
    ensures |r| == |items|
  {
    seq(|items|, k requires 0 <= k < |items| => if items[k].JNum? then items[k].f else Fin(nanvalue))
  }

  /** An entry is null exactly where the input is the sentinel, every other
      entry is the input value (NaN included, since NaN equals nothing). */
  lemma NullMaskAt(data: seq<Float>, nanvalue: real)
    ensures forall k :: 0 <= k < |data| ==>
      (NullMask(data, nanvalue)[k] == JNull <==> data[k] == Fin(nanvalue)) &&
      (data[k] != Fin(nanvalue) ==> NullMask(data, nanvalue)[k] == JNum(data[k]))
  {
  }

  /** Masking loses nothing: the data is recovered from the masked list. */
  lemma NullMaskRoundTrip(data: seq<Float>, nanvalue: real)
    ensures Unmask(NullMask(data, nanvalue), nanvalue) == data
  {
    var m := NullMask(data, nanvalue);
    var u := Unmask(m, nanvalue);
    forall k | 0 <= k < |data| ensures u[k] == data[k] {
      if data[k] == Fin(nanvalue) {
        assert m[k] == JNull;
      } else {
        assert m[k] == JNum(data[k]);
      }
    }
  }

  // ---------------------------------------------------------------------------
  // The U and V records

  /** The U header: the template with the reference time added. */
  function UHeader(template: map<string, Json>, d: DateTime): (h: map<string, Json>)
    ensures h.Keys == template.Keys + {"refTime"}
    ensures h["refTime"] == JStr(RefTime(d))
    ensures forall k :: k in template && k != "refTime" ==> h[k] == template[k]
  {
    template["refTime" := JStr(RefTime(d))]
  }

  /** The V header: a copy of the template with the parameter number and name
      of the V component and the reference time. */
  function VHeader(template: map<string, Json>, d: DateTime): (h: map<string, Json>)
    ensures h.Keys == template.Keys + {"parameterNumber", "parameterNumberName", "refTime"}
    ensures h["parameterNumber"] == JInt(3)
    ensures h["parameterNumberName"] == JStr("V_component_of_current")
    ensures h["refTime"] == JStr(RefTime(d))
    ensures forall k :: k in template && k !in {"parameterNumber", "parameterNumberName", "refTime"} ==>
      h[k] == template[k]
  {
    template["parameterNumber" := JInt(3)]["parameterNumberName" := JStr("V_component_of_current")]
      ["refTime" := JStr(RefTime(d))]
  }

  /** The U and V headers have the same keys and differ only in the
      parameter number and name and in the reference time. */
  lemma HeadersDiffer(t: map<string, Json>, du: DateTime, dv: DateTime)
    requires "parameterNumber" in t && "parameterNumberName" in t
    ensures var hu, hv := UHeader(t, du), VHeader(t, dv);
      hu.Keys == hv.Keys &&
      (forall k :: k in hu && k !in {"parameterNumber", "parameterNumberName", "refTime"} ==> hu[k] == hv[k]) &&
      hu["parameterNumber"] == t["parameterNumber"] && hv["parameterNumber"] == JInt(3) &&
      hu["parameterNumberName"] == t["parameterNumberName"] &&
      hv["parameterNumberName"] == JStr("V_component_of_current")
  {
  }

  /** The template carries the U parameter, which the V header replaces. */
  lemma TemplateParameter(nx: int, ny: int, x: seq<real>, y: seq<real>, dx: real, dy: real)
    requires |x| > 0 && |y| > 0
    ensures var t := Template(nx, ny, x, y, dx, dy).value;
      t["parameterNumber"] == JInt(2) && t["parameterNumberName"] == JStr("U_component_of_current")
  {
    TemplateContents(nx, ny, x, y, dx, dy);
    UParameter();
  }

  lemma UParameter()
    ensures "parameterNumber" in Constants && Constants["parameterNumber"] == JInt(2)
    ensures "parameterNumberName" in Constants && Constants["parameterNumberName"] == JStr("U_component_of_current")
  {
  }

  /** The options of a configuration the writer reads. */
  datatype Options = Options(clip: map<string, ClipEntry>, tname: string, nanvalue: real)

  /** One component's data as the writer sees it: the decoded times and the
      flat data of the field, and the options of the configuration passed
      with it (`None` when no configuration is passed). */
  datatype Sample = Sample(times: seq<DateTime>, data: seq<Float>, options: Option<Options>)

  /** The reference date of a component: without a configuration the lookup
      of `clip` on None raises first. */
  function TimeOf(s: Sample): (r: Result<DateTime>)
    ensures s.options.None? ==> r == Err(AttributeError("clip"))
    ensures s.options.Some? ==> r == SelectTime(s.times, s.options.value.clip, s.options.value.tname)
  {
    if s.options.None? then Err(AttributeError("clip"))
    else SelectTime(s.times, s.options.value.clip, s.options.value.tname)
  }

  /** The record `{'header': header, 'data': masked data}`. */
  function Record(header: map<string, Json>, s: Sample): Json
    requires s.options.Some?
  {
    JObj(map["header" := JObj(header), "data" := JArr(NullMask(s.data, s.options.value.nanvalue))])
  }

  /** The U record, or the failure of its time lookup. */
  function URecord(template: map<string, Json>, s: Sample): (r: Result<Json>)
    ensures r.Err? <==> TimeOf(s).Err?
    ensures r.Err? ==> r.error == TimeOf(s).error
    ensures r.Ok? ==> s.options.Some? && r.value == Record(UHeader(template, TimeOf(s).value), s)
  {
    var d := TimeOf(s);
    if d.Err? then Err(d.error) else Ok(Record(UHeader(template, d.value), s))
  }

  /** The V record, or the failure of its time lookup. */
  function VRecord(template: map<string, Json>, s: Sample): (r: Result<Json>)
    ensures r.Err? <==> TimeOf(s).Err?
    ensures r.Err? ==> r.error == TimeOf(s).error
    ensures r.Ok? ==> s.options.Some? && r.value == Record(VHeader(template, TimeOf(s).value), s)
  {
    var d := TimeOf(s);
    if d.Err? then Err(d.error) else Ok(Record(VHeader(template, d.value), s))
  }

  /** The records the class documentation promises, in order: only the U
      record when there is no V component. */
  function FileRecords(u: Json, v: Option<Json>): (rs: seq<Json>)
    ensures |rs| == if v.Some? then 2 else 1
    ensures rs[0] == u
    ensures v.Some? ==> rs[1] == v.value
  {
    if v.Some? then [u, v.value] else [u]
  }

  /** The records as the source collects them: `data['v']` is created empty
      up front, so a missing V component still yields a second, empty record. */
  function FileRecordsAsWritten(u: Json, v: Option<Json>): (rs: seq<Json>)
    ensures |rs| == 2 && rs[0] == u
    ensures rs[1] == if v.Some? then v.value else JObj(map[])
  {
    [u, if v.Some? then v.value else JObj(map[])]
  }

  /** With no V component the source writes `[u,{}]` instead of `[u]`. */
  lemma EmptyVRecordWritten(u: Json)
    ensures FileRecordsAsWritten(u, None) == [u, JObj(map[])]
    ensures FileRecords(u, None) == [u]
    ensures FileRecordsAsWritten(u, None) != FileRecords(u, None)
  {
  }

  /** With a V component both agree. */
  lemma RecordsAgreeWithV(u: Json, v: Json)
    ensures FileRecordsAsWritten(u, Some(v)) == FileRecords(u, Some(v))
  {
  }

  /** The records of one output file, as `write_json` collects them: the U
      record, then the V record, where a missing V component leaves the empty
      record `{}` that was set up for it; the first failing time lookup is
      raised. */
  function Records(template: map<string, Json>, u: Sample, v: Option<Sample>): (r: Result<seq<Json>>)
    ensures r.Ok? <==> URecord(template, u).Ok? && (v.Some? ==> VRecord(template, v.value).Ok?)
    ensures URecord(template, u).Err? ==> r == Err(URecord(template, u).error)
    ensures URecord(template, u).Ok? && v.Some? && VRecord(template, v.value).Err? ==>
      r == Err(VRecord(template, v.value).error)
    ensures r.Ok? ==> r.value == FileRecordsAsWritten(URecord(template, u).value,
      if v.Some? then Some(VRecord(template, v.value).value) else None)
  {
    var ur := URecord(template, u);
    if ur.Err? then Err(ur.error)
    else if v.None? then Ok(FileRecordsAsWritten(ur.value, None))
    else
      var vr := VRecord(template, v.value);
      if vr.Err? then Err(vr.error) else Ok(FileRecordsAsWritten(ur.value, Some(vr.value)))
  }

  // ---------------------------------------------------------------------------
  // Framing

  /** The texts with a comma between each two. */
  function CommaJoin(parts: seq<string>): string
    decreases |parts|
  {
    if |parts| == 0 then "" else if |parts| == 1 then parts[0] else parts[0] + "," + CommaJoin(parts[1..])
  }

  /** The file text: `[`, the texts separated by commas, `]`. */
  function Frame(parts: seq<string>): (s: string)
    ensures |s| >= 2 && s[0] == '[' && s[|s| - 1] == ']'
  {
    "[" + CommaJoin(parts) + "]"
  }

  /** `json.dumps` of every record. */
  function Dumped(rs: seq<Json>, dumps: Json -> string): (r: seq<string>)
    ensures |r| == |rs|
    ensures forall k :: 0 <= k < |rs| ==> r[k] == dumps(rs[k])
  {
    seq(|rs|, k requires 0 <= k < |rs| => dumps(rs[k]))
  }

  lemma {:induction false} CommaJoinIsJoin(parts: seq<string>)
    requires |parts| >= 1
    ensures CommaJoin(parts) == Join(parts, ',')
    decreases |parts|
  {
    if |parts| > 1 {
      CommaJoinIsJoin(parts[1..]);
    }
  }

  /** The two shapes the converter writes. */
  lemma FrameShapes(a: string, b: string)
    ensures Frame([a]) == "[" + a + "]"
    ensures Frame([a, b]) == "[" + a + "," + b + "]"
  {
    assert [a, b][1..] == [b];
    assert CommaJoin([a, b]) == a + "," + b;
  }

  /** The write loop: `[`, then each text followed by a comma unless it is
      the last, then `]`. */
  method WriteFrame(parts: seq<string>) returns (text: string)
    ensures text == Frame(parts)
  {
    text := "[";
    for count := 0 to |parts|
      invariant text == "[" + CommaJoin(parts[..count]) + (if 0 < count < |parts| then "," else "")
    {
      assert text + parts[count] == "[" + CommaJoin(parts[..count + 1]) by {
        CommaJoinSnoc(parts[..count], parts[count]);
        assert parts[..count + 1] == parts[..count] + [parts[count]];
      }
      text := text + parts[count];
      if count < |parts| - 1 {
        text := text + ",";
      }
    }
    assert parts[..|parts|] == parts;
    text := text + "]";
  }

  lemma {:induction false} CommaJoinSnoc(parts: seq<string>, last: string)
    ensures CommaJoin(parts + [last]) == if |parts| == 0 then last else CommaJoin(parts) + "," + last
    decreases |parts|
  {
    if |parts| > 1 {
      CommaJoinSnoc(parts[1..], last);
      assert (parts + [last])[1..] == parts[1..] + [last];
    } else if |parts| == 1 {
      assert (parts + [last])[1..] == [last];
    }
  }

  /** The whole text of one output file, or the exception that prevents it. */
  function FileText(template: map<string, Json>, u: Sample, v: Option<Sample>, dumps: Json -> string): (r: Result<string>)
    ensures r.Ok? <==> Records(template, u, v).Ok?
    ensures r.Ok? ==> r.value == Frame(Dumped(Records(template, u, v).value, dumps))
  {
    var rs := Records(template, u, v);
    if rs.Err? then Err(rs.error) else Ok(Frame(Dumped(rs.value, dumps)))
  }

  /** The options the driver's configuration gives the writer. */
  function MainOptions(file: string): Options
    requires file != ""
  {
    MainConfig(file);
    var m := Resolved(MainArgs(file));
    Options(m["clip"].m, m["tname"].s, m["nanvalue"].x)
  }

  /** What the driver writes for one input: the U record and then the V
      record, each dated by its first time step. */
  lemma MainFileText(template: map<string, Json>, file: string, u: Sample, v: Sample, dumps: Json -> string)
    requires file != "" && |u.times| > 0 && |v.times| > 0
    requires u.options == Some(MainOptions(file)) && v.options == Some(MainOptions(file))
    ensures FileText(template, u, Some(v), dumps) ==
      Ok("[" + dumps(Record(UHeader(template, u.times[0]), u)) + "," +
               dumps(Record(VHeader(template, v.times[0]), v)) + "]")
  {
    assert TimeOf(u) == Ok(u.times[0]) by {
      MainClipSelectsFirst(u.times, file);
    }
    assert TimeOf(v) == Ok(v.times[0]) by {
      MainClipSelectsFirst(v.times, file);
    }
    FirstStepsText(template, u, v, dumps);
  }

  /** Both components dated by their first time step give `[U,V]`. */
  lemma FirstStepsText(template: map<string, Json>, u: Sample, v: Sample, dumps: Json -> string)
    requires |u.times| > 0 && |v.times| > 0
    requires TimeOf(u) == Ok(u.times[0]) && TimeOf(v) == Ok(v.times[0])
    ensures FileText(template, u, Some(v), dumps) ==
      Ok("[" + dumps(Record(UHeader(template, u.times[0]), u)) + "," +
               dumps(Record(VHeader(template, v.times[0]), v)) + "]")
  {
    var ur, vr := Record(UHeader(template, u.times[0]), u), Record(VHeader(template, v.times[0]), v);
    var parts := Dumped([ur, vr], dumps);
    assert FileText(template, u, Some(v), dumps) == Ok(Frame(parts)) by {
      RecordsBuilt(template, u, Some(v), ur, Some(vr));
    }
    assert Frame(parts) == "[" + dumps(ur) + "," + dumps(vr) + "]" by {
      assert parts == [dumps(ur), dumps(vr)];
      FrameShapes(dumps(ur), dumps(vr));
    }
  }

  /** The options of a configuration. */
  function OptionsOf(c: Config): Options
    reads c
    requires c.Valid()
  {
    Options(c.ClipTable(), c.TName(), c.Nanvalue())
  }

  /** The records the writer collects are the ones `Records` describes. */
  lemma RecordsBuilt(template: map<string, Json>, u: Sample, v: Option<Sample>, ur: Json, vr: Option<Json>)
    requires URecord(template, u) == Ok(ur)
    requires v.None? ==> vr.None?
    requires v.Some? ==> vr.Some? && VRecord(template, v.value) == Ok(vr.value)
    ensures Records(template, u, v) == Ok(FileRecordsAsWritten(ur, vr))
  {
  }

  /** Without a V component the file still holds two records, the second one
      empty: `[<U>,{}]` and not the `[<U>]` the documentation describes. */
  lemma FileTextWithoutV(template: map<string, Json>, u: Sample, dumps: Json -> string)
    requires URecord(template, u).Ok?
    ensures var ur := URecord(template, u).value;
      FileText(template, u, None, dumps) == Ok("[" + dumps(ur) + "," + dumps(JObj(map[])) + "]")
    ensures FileText(template, u, None, dumps) != Ok(Frame(Dumped(FileRecords(URecord(template, u).value, None), dumps)))
  {
    var ur := URecord(template, u).value;
    assert Records(template, u, None) == Ok([ur, JObj(map[])]);
    assert Dumped([ur, JObj(map[])], dumps) == [dumps(ur), dumps(JObj(map[]))];
    assert Dumped([ur], dumps) == [dumps(ur)];
    FrameShapes(dumps(ur), dumps(JObj(map[])));
    var two := "[" + dumps(ur) + "," + dumps(JObj(map[])) + "]";
    var one := "[" + dumps(ur) + "]";
    assert |two| > |one|;
  }

  /** `data` in the order of `keys` is the record list: `u` and `v` are both
      set up front, and `v` keeps its empty record when there is no V
      component. */
  lemma CollectedInOrder(ur: Json, vr: Option<Json>, data: map<string, Json>, keys: seq<string>)
    requires keys == ["u", "v"]
    requires "u" in data && data["u"] == ur
    requires "v" in data && data["v"] == if vr.Some? then vr.value else JObj(map[])
    ensures |keys| == |FileRecordsAsWritten(ur, vr)|
    ensures forall k :: 0 <= k < |keys| ==> keys[k] in data && data[keys[k]] == FileRecordsAsWritten(ur, vr)[k]
  {
  }

  lemma DumpedInOrder(keys: seq<string>, data: map<string, Json>, rs: seq<Json>, parts: seq<string>, dumps: Json -> string)
    requires |keys| == |rs| == |parts|
    requires forall k :: 0 <= k < |keys| ==> keys[k] in data && data[keys[k]] == rs[k]
    requires forall k :: 0 <= k < |keys| ==> parts[k] == dumps(data[keys[k]])
    ensures parts == Dumped(rs, dumps)
  {
  }

  /** `json.dumps(data[key])` for every key in order. */
  method DumpAll(keys: seq<string>, data: map<string, Json>, dumps: Json -> string) returns (parts: seq<string>)
    requires forall k :: 0 <= k < |keys| ==> keys[k] in data
    ensures |parts| == |keys|
    ensures forall k :: 0 <= k < |keys| ==> parts[k] == dumps(data[keys[k]])
  {
    parts := [];
    for count := 0 to |keys|
      invariant |parts| == count
      invariant forall k :: 0 <= k < count ==> parts[k] == dumps(data[keys[k]])
    {
      parts := parts + [dumps(data[keys[count]])];
    }
  }

  /** The writer's view of a field and the configuration passed with it. */
  function SampleOf(f: Field, c: Option<Config>): Sample
    reads f, f.data, if c.Some? then {c.value} else {}
    requires c.Some? ==> c.value.Valid()
  {
    Sample(f.times, f.data[..], if c.Some? then Some(OptionsOf(c.value)) else None)
  }

  /** The configuration passed, or a default one when none is. */
  method ConfigOrDefault(given: Option<Config>) returns (c: Config)
    requires given.Some? ==> given.value.Valid()
    ensures c.Valid()
    ensures given.Some? ==> c == given.value
    ensures given.None? ==> fresh(c) && c.entries == Defaults
  {
    if given.Some? {
      c := given.value;
    } else {
      c := new Config(map[]);
      ResolvedNothing();
    }
  }

  /** `WriteJSON(u, v, uconf, vconf, fstem)`: the writer is set up from the
      configurations and the stem, then builds the header template from the U
      field and writes the file. */
  method Create(u: Field, v: Option<Field>, uconf: Option<Config>, vconf: Option<Config>,
                stem: Option<string>, dumps: Json -> string) returns (w: Writer)
    requires uconf.Some? ==> uconf.value.Valid()
    requires vconf.Some? ==> vconf.value.Valid()
    ensures fresh(w)
    ensures uconf.Some? ==> w.uconf == uconf.value
    ensures vconf.Some? ==> w.vconf == vconf.value
    ensures uconf.None? ==> fresh(w.uconf) && w.uconf.entries == Defaults
    ensures vconf.None? ==> fresh(w.vconf) && w.vconf.entries == Defaults
    ensures w.uconf.Valid() && w.vconf.Valid()
    ensures stem.Some? && stem.value != "" ==> w.fstem == stem.value
    ensures !(stem.Some? && stem.value != "") ==> w.fstem == DefaultStem(w.uconf.File(), w.vconf.File())
    ensures var t := old(Template(u.nx, u.ny, u.x[..], u.y[..], u.dx, u.dy));
      t.Err? ==> w.text == Err(t.error) && w.template == map[] && w.data == map[] && w.keys == [] && w.path == ""
    ensures var t := old(Template(u.nx, u.ny, u.x[..], u.y[..], u.dx, u.dy));
      t.Ok? ==> w.keys == ["u", "v"]
    ensures w.text.Ok? ==> w.path == w.fstem + ".json"
    ensures var t := old(Template(u.nx, u.ny, u.x[..], u.y[..], u.dx, u.dy));
      t.Ok? ==> w.template == t.value
    ensures var t := old(Template(u.nx, u.ny, u.x[..], u.y[..], u.dx, u.dy));
      t.Ok? ==> w.text == FileText(t.value, old(SampleOf(u, uconf)),
        old(if v.Some? then Some(SampleOf(v.value, vconf)) else None), dumps)
  {
    w := SetUp(uconf, vconf, stem);
    w.Build(u, v, uconf, vconf, dumps);
  }

  /** The first part of `WriteJSON.__init__`: the configurations passed or
      default ones, and the stem given or `<u stem>-<v stem>`. */
  method SetUp(uconf: Option<Config>, vconf: Option<Config>, stem: Option<string>) returns (w: Writer)
    requires uconf.Some? ==> uconf.value.Valid()
    requires vconf.Some? ==> vconf.value.Valid()
    ensures fresh(w)
    ensures uconf.Some? ==> w.uconf == uconf.value
    ensures vconf.Some? ==> w.vconf == vconf.value
    ensures uconf.None? ==> fresh(w.uconf) && w.uconf.entries == Defaults
    ensures vconf.None? ==> fresh(w.vconf) && w.vconf.entries == Defaults
    ensures w.uconf.Valid() && w.vconf.Valid()
    ensures stem.Some? && stem.value != "" ==> w.fstem == stem.value
    ensures !(stem.Some? && stem.value != "") ==> w.fstem == DefaultStem(w.uconf.File(), w.vconf.File())
    ensures w.data == map[] && w.keys == [] && w.path == "" && w.template == map[] && w.text == Ok("")
  {
    var uc := ConfigOrDefault(uconf);
    var vc := ConfigOrDefault(vconf);
    var fs := if stem.Some? && stem.value != "" then stem.value else DefaultStem(uc.File(), vc.File());
    w := new Writer(uc, vc, fs);
  }

  /** The state of `WriteJSON`: the configurations, the output stem, the
      header template, and what `write_json` collects and writes. */
  class Writer {
    var uconf: Config
    var vconf: Config
    var fstem: string
    var template: map<string, Json>
    /** The records by component, and the order they were added in. */
    var data: map<string, Json>
    var keys: seq<string>
    /** The path written and the text written to it, or what was raised. */
    var path: string
    var text: Result<string>

    /** The first part of `WriteJSON.__init__`: the configurations and the
        output stem to keep, and nothing collected yet. */
    constructor (uc: Config, vc: Config, fstem: string)
      ensures this.uconf == uc && this.vconf == vc && this.fstem == fstem
      ensures data == map[] && keys == [] && path == "" && template == map[] && text == Ok("")
    {
      this.uconf, this.vconf, this.fstem := uc, vc, fstem;
      data, keys, path := map[], [], "";
      template, text := map[], Ok("");
    }

    /** The rest of `WriteJSON.__init__`: the header template from the U
        field, then `write_json` with the configurations as passed (`None`
        when none was passed). An empty coordinate array raises. The fields
        are read as they are on entry. */
    method Build(u: Field, v: Option<Field>, uconf: Option<Config>, vconf: Option<Config>, dumps: Json -> string)
      requires uconf.Some? ==> uconf.value.Valid()
      requires vconf.Some? ==> vconf.value.Valid()
      modifies this
      ensures this.uconf == old(this.uconf) && this.vconf == old(this.vconf) && fstem == old(fstem)
      ensures var t := old(Template(u.nx, u.ny, u.x[..], u.y[..], u.dx, u.dy));
        t.Err? ==> (text == Err(t.error) && template == old(template) && data == old(data) &&
                    keys == old(keys) && path == old(path))
      ensures var t := old(Template(u.nx, u.ny, u.x[..], u.y[..], u.dx, u.dy));
        t.Ok? ==> keys == ["u", "v"]
      ensures text.Ok? ==> path == fstem + ".json"
      ensures var t := old(Template(u.nx, u.ny, u.x[..], u.y[..], u.dx, u.dy));
        t.Ok? ==> template == t.value
      ensures var t := old(Template(u.nx, u.ny, u.x[..], u.y[..], u.dx, u.dy));
        t.Ok? ==> text == FileText(t.value, old(SampleOf(u, uconf)),
          old(if v.Some? then Some(SampleOf(v.value, vconf)) else None), dumps)
    {
      var t := Template(u.nx, u.ny, u.x[..], u.y[..], u.dx, u.dy);
      var us := SampleOf(u, uconf);
      var vs := if v.Some? then Some(SampleOf(v.value, vconf)) else None;
      if t.Err? {
        text := Err(t.error);
        return;
      }
      template := t.value;
      WriteJson(us, vs, dumps);
      assert text == FileText(t.value, us, vs, dumps);
    }

    /** `write_json`: collect the records, then write the file. */
    method WriteJson(us: Sample, vs: Option<Sample>, dumps: Json -> string)
      modifies this
      ensures fstem == old(fstem) && template == old(template)
      ensures uconf == old(uconf) && vconf == old(vconf)
      ensures text == FileText(template, us, vs, dumps)
      ensures keys == ["u", "v"]
      ensures text.Ok? ==> path == fstem + ".json"
    {
      var rs := Collect(us, vs);
      if rs.Err? {
        text := Err(rs.error);
      } else {
        var written := WriteFile(rs.value, dumps);
        text := Ok(written);
      }
    }

    /** Both keys are set up with empty records; then the U record, and the
        V record if there is a V component, replace them. */
    method Collect(us: Sample, vs: Option<Sample>) returns (rs: Result<seq<Json>>)
      modifies this
      ensures fstem == old(fstem) && template == old(template) && text == old(text) && path == old(path)
      ensures uconf == old(uconf) && vconf == old(vconf)
      ensures rs == Records(template, us, vs)
      ensures keys == ["u", "v"]
      ensures rs.Ok? ==> |keys| == |rs.value|
      ensures rs.Ok? ==> forall k :: 0 <= k < |keys| ==> keys[k] in data && data[keys[k]] == rs.value[k]
    {
      data, keys := map["u" := JObj(map[]), "v" := JObj(map[])], ["u", "v"];
      var ur := URecord(template, us);
      if ur.Err? {
        return Err(ur.error);
      }
      data := data["u" := ur.value];
      var vr: Option<Json> := None;
      if vs.Some? {
        var r := VRecord(template, vs.value);
        if r.Err? {
          return Err(r.error);
        }
        data := data["v" := r.value];
        vr := Some(r.value);
      }
      RecordsBuilt(template, us, vs, ur.value, vr);
      CollectedInOrder(ur.value, vr, data, keys);
      rs := Ok(FileRecordsAsWritten(ur.value, vr));
    }

    /** The file loop: `json.dumps` of each record in the order added, framed. */
    method WriteFile(rs: seq<Json>, dumps: Json -> string) returns (written: string)
      requires |keys| == |rs|
      requires forall k :: 0 <= k < |keys| ==> keys[k] in data && data[keys[k]] == rs[k]
      modifies this
      ensures fstem == old(fstem) && template == old(template) && data == old(data) && keys == old(keys)
      ensures uconf == old(uconf) && vconf == old(vconf) && text == old(text)
      ensures path == fstem + ".json"
      ensures written == Frame(Dumped(rs, dumps))
    {
      var parts := DumpAll(keys, data, dumps);
      DumpedInOrder(keys, data, rs, parts, dumps);
      path := fstem + ".json";
      written := WriteFrame(parts);
    }
  }

  // ---------------------------------------------------------------------------
  // Output stems

  /** The last path component of the file name without its extension. */
  function StemOf(file: string): string {
    PathSplit(SplitExt(file).0).1
  }

  /** The stem used when none is given: `<u stem>-<v stem>`. */
  function DefaultStem(ufile: string, vfile: string): string {
    StemOf(ufile) + "-" + StemOf(vfile)
  }

  /** The stem of `<dir>/<name>.<ext>` is `name`. */
  lemma StemOfPlain(dir: string, name: string, ext: string)
    requires dir != [] && dir[|dir| - 1] != '/'
    requires name != [] && name[|name| - 1] != '.' && '/' !in name
    requires '.' !in ext && '/' !in ext
    ensures StemOf(dir + "/" + name + "." + ext) == name
  {
    var a := dir + "/" + name;
    assert a[|a| - 1] == name[|name| - 1];
    SplitExtOf(a, ext, |a| - 1);
    assert a + "." + ext == dir + "/" + name + "." + ext;
    PathSplitJoined(dir, name);
  }

  /** The stem the driver passes: `<out>/<last '_' field of the file's stem>-surface-currents-oscar-0.25`. */
  function UvStem(out: string, file: string): string {
    PathJoin(out, Last(Split(SplitExt(file).0, '_')) + "-surface-currents-oscar-0.25")
  }

  /** For an input `<dir>/<prefix>_<date>.nc` the stem is
      `<out>/<date>-surface-currents-oscar-0.25`. */
  lemma UvStemOfInput(out: string, dir: string, prefix: string, date: string)
    requires out != [] && out[|out| - 1] != '/'
    requires date != [] && date[|date| - 1] != '.' && '/' !in date && '_' !in date
    ensures UvStem(out, dir + "/" + prefix + "_" + date + ".nc") == out + "/" + date + "-surface-currents-oscar-0.25"
  {
    var a := dir + "/" + prefix + "_" + date;
    assert a[|a| - 1] == date[|date| - 1];
    SplitExtOf(a, "nc", |a| - 1);
    assert a + "." + "nc" == dir + "/" + prefix + "_" + date + ".nc";
    assert a == (dir + "/" + prefix) + ['_'] + date;
    SplitLastField(dir + "/" + prefix, date, '_');
  }
}
