/** The configuration record of the netCDF converter: thirteen named options,
    each either supplied by the caller or taken from a fixed default table. */
module NcConfig {

  /** An option value as the constructor receives it. `NoneValue` is Python's
      None; a clip is a dictionary from dimension name to an index pair or a
      single index. */
  datatype Value =
    | NoneValue
    | Str(s: string)
    | Num(x: real)
    | Clip(m: map<string, ClipEntry>)

  /** One clip entry: a `(start, stop)` pair, or a bare index. */
  datatype ClipEntry = Pair(start: int, stop: int) | Single(index: int)

  /** Python truthiness of an option value. */
  predicate Truthy(v: Value) {
    match v
    case NoneValue => false
    case Str(s) => s != ""
    case Num(x) => x != 0.0
    case Clip(m) => m != map[]
  }

  /** The two values are of the same option type (str, float or dict). */
  predicate SameKind(v: Value, w: Value) {
    (v.Str? && w.Str?) || (v.Num? && w.Num?) || (v.Clip? && w.Clip?)
  }

  /** The default written out for a missing `nanvalue`. */
  const DefaultNanvalue: real := 9.969209968386869e36

  /** The default table, one entry per option. */
  const Defaults: map<string, Value> := map[
    "file" := Str("test_u.nc"),
    "uname" := Str("u"),
    "vname" := Str("v"),
    "xname" := Str("lon"),
    "yname" := Str("lat"),
    "tname" := Str("time"),
    "basedate" := Str("1990-01-01 00:00:00"),
    "calendar" := Str("standard"),
    "xdim" := Str("x"),
    "ydim" := Str("y"),
    "tdim" := Str("time"),
    "clip" := Clip(map["depth" := Pair(0, 1)]),
    "nanvalue" := Num(DefaultNanvalue)
  ]

  /** The options in the order the constructor sets them. */
  const OptionNames: seq<string> := ["file", "uname", "vname", "xname", "yname", "tname",
    "basedate", "calendar", "xdim", "ydim", "tdim", "clip", "nanvalue"]

  lemma OptionNamesAreDefaults()
    ensures (set k | 0 <= k < |OptionNames| :: OptionNames[k]) == Defaults.Keys
  {
    DefaultKeys();
    var names := set k | 0 <= k < |OptionNames| :: OptionNames[k];
    assert OptionNames[0] in names;
    assert OptionNames[1] in names;
    assert OptionNames[2] in names;
    assert OptionNames[3] in names;
    assert OptionNames[4] in names;
    assert OptionNames[5] in names;
    assert OptionNames[6] in names;
    assert OptionNames[7] in names;
    assert OptionNames[8] in names;
    assert OptionNames[9] in names;
    assert OptionNames[10] in names;
    assert OptionNames[11] in names;
    assert OptionNames[12] in names;
  }

  lemma DefaultKeys()
    ensures Defaults.Keys == {"file", "uname", "vname", "xname", "yname", "tname",
      "basedate", "calendar", "xdim", "ydim", "tdim", "clip", "nanvalue"}
  {
  }

  /** Every default is truthy, so a default never falls through to itself. */
  lemma DefaultsTruthy(name: string)
    requires name in Defaults
    ensures Truthy(Defaults[name])
  {
    DefaultKeys();
    assert Truthy(Defaults["file"]);
    assert Truthy(Defaults["uname"]);
    assert Truthy(Defaults["vname"]);
    assert Truthy(Defaults["xname"]);
    assert Truthy(Defaults["yname"]);
    assert Truthy(Defaults["tname"]);
    assert Truthy(Defaults["basedate"]);
    assert Truthy(Defaults["calendar"]);
    assert Truthy(Defaults["xdim"]);
    assert Truthy(Defaults["ydim"]);
    assert Truthy(Defaults["tdim"]);
    assert "depth" in Defaults["clip"].m;
    assert Truthy(Defaults["nanvalue"]);
  }

  /** The keyword argument `name` of a call, None when it is not passed. */
  function Arg(args: map<string, Value>, name: string): Value {
    if name in args then args[name] else NoneValue
  }

  /** The value `__set` stores for option `name`: the supplied one when it is
      truthy, the default otherwise. Every stored value is therefore truthy. */
  function Resolve(value: Value, name: string): (r: Value)
    requires name in Defaults
    ensures Truthy(value) ==> r == value
    ensures !Truthy(value) ==> r == Defaults[name]
    ensures Truthy(r)
  {
    DefaultsTruthy(name);
    if Truthy(value) then value else Defaults[name]
  }

  /** An argument of the option's own type (or None) keeps that type. */
  lemma ResolveKeepsKind(value: Value, name: string)
    requires name in Defaults
    requires value == NoneValue || SameKind(value, Defaults[name])
    ensures SameKind(Resolve(value, name), Defaults[name])
  {
  }

  /** An argument is acceptable for option `name` if it is None or has the
      option's type. */
  predicate Acceptable(value: Value, name: string)
    requires name in Defaults
  {
    value == NoneValue || SameKind(value, Defaults[name])
  }

  /** The table the constructor stores for the keyword arguments `args`. */
  function Resolved(args: map<string, Value>): (m: map<string, Value>)
    ensures m.Keys == Defaults.Keys
    ensures forall name :: name in m ==> m[name] == Resolve(Arg(args, name), name)
  {
    map name | name in Defaults :: Resolve(Arg(args, name), name)
  }

  /** A table with the option names as keys and the resolved values is the
      resolved table. */
  lemma SameTable(m: map<string, Value>, args: map<string, Value>)
    requires m.Keys == Defaults.Keys
    requires forall name :: name in m ==> m[name] == Resolve(Arg(args, name), name)
    ensures m == Resolved(args)
  {
  }

  /** With no arguments at all the stored table is the default table. */
  lemma ResolvedNothing()
    ensures Resolved(map[]) == Defaults
  {
    var m := Resolved(map[]);
    forall name | name in Defaults ensures m[name] == Defaults[name] {
      assert Arg(map[], name) == NoneValue;
    }
  }

  /** A falsy argument also falls back: an empty string, zero or an empty
      clip is stored as the default. */
  lemma ResolvedFalsy(args: map<string, Value>, name: string)
    requires name in Defaults && name in args && !Truthy(args[name])
    ensures Resolved(args)[name] == Defaults[name]
  {
  }

  /** The keyword arguments the netCDF driver passes for one input file. */
  function MainArgs(file: string): map<string, Value> {
    map["file" := Str(file), "calendar" := Str("noleap"),
        "clip" := Clip(map["depthu" := Pair(0, 1), "time" := Pair(0, 1)])]
  }

  /** The driver's configuration: the given file, the 'noleap' calendar, a
      clip that selects time index 0, and defaults elsewhere. */
  lemma MainConfig(file: string)
    requires file != ""
    ensures var m := Resolved(MainArgs(file));
      m["file"] == Str(file) && m["calendar"] == Str("noleap") &&
      m["tname"] == Str("time") && m["uname"] == Str("u") && m["vname"] == Str("v") &&
      m["clip"] == Clip(map["depthu" := Pair(0, 1), "time" := Pair(0, 1)]) &&
      m["nanvalue"] == Num(DefaultNanvalue) && m["basedate"] == Str("1990-01-01 00:00:00")
  {
    MainGiven(file);
    MainDefaulted(file);
  }

  /** The three options the driver passes are stored as passed. */
  lemma MainGiven(file: string)
    requires file != ""
    ensures var m := Resolved(MainArgs(file));
      m["file"] == Str(file) && m["calendar"] == Str("noleap") &&
      m["clip"] == Clip(map["depthu" := Pair(0, 1), "time" := Pair(0, 1)])
  {
    var a := MainArgs(file);
    var c := map["depthu" := Pair(0, 1), "time" := Pair(0, 1)];
    assert "time" in c;
    assert Arg(a, "clip") == Clip(c);
  }

  /** The options the driver leaves out are stored as their defaults. */
  lemma MainDefaulted(file: string)
    ensures var m := Resolved(MainArgs(file));
      m["tname"] == Str("time") && m["uname"] == Str("u") && m["vname"] == Str("v") &&
      m["nanvalue"] == Num(DefaultNanvalue) && m["basedate"] == Str("1990-01-01 00:00:00")
  {
    var a := MainArgs(file);
    assert Arg(a, "tname") == NoneValue;
    assert Arg(a, "uname") == NoneValue;
    assert Arg(a, "vname") == NoneValue;
    assert Arg(a, "nanvalue") == NoneValue;
    assert Arg(a, "basedate") == NoneValue;
  }

  /** Every option is present with the type of its default, option by option. */
  predicate WellTyped(m: map<string, Value>) {
    "file" in m && m["file"].Str? && "uname" in m && m["uname"].Str? &&
    "vname" in m && m["vname"].Str? && "xname" in m && m["xname"].Str? &&
    "yname" in m && m["yname"].Str? && "tname" in m && m["tname"].Str? &&
    "basedate" in m && m["basedate"].Str? && "calendar" in m && m["calendar"].Str? &&
    "xdim" in m && m["xdim"].Str? && "ydim" in m && m["ydim"].Str? &&
    "tdim" in m && m["tdim"].Str? && "clip" in m && m["clip"].Clip? &&
    "nanvalue" in m && m["nanvalue"].Num?
  }

  /** Being well typed is holding every option with the type of its default. */
  lemma WellTypedByKind(m: map<string, Value>)
    ensures WellTyped(m) <==> forall name :: name in Defaults ==> name in m && SameKind(m[name], Defaults[name])
  {
    DefaultKeys();
  }

  class Config {
    /** The stored options (the `__dict` of the source). */
    var entries: map<string, Value>

    /** Every option is stored, with the type of its default. */
    ghost predicate Valid()
      reads this
    {
      WellTyped(entries)
    }

    /** `Config(**args)`: one `__set` per option, in the order of the source;
        an option missing from `args` is passed as None. */
    constructor (args: map<string, Value>)
      requires forall name :: name in Defaults ==> Acceptable(Arg(args, name), name)
      ensures Valid()
      ensures entries == Resolved(args)
    {
      entries := map[];
      new;
      OptionNamesAreDefaults();
      for i := 0 to |OptionNames|
        invariant entries.Keys == set k | 0 <= k < i :: OptionNames[k]
        invariant forall n :: n in entries ==> n in Defaults && entries[n] == Resolve(Arg(args, n), n)
        invariant forall n :: n in entries ==> SameKind(entries[n], Defaults[n])
      {
        Set(Arg(args, OptionNames[i]), OptionNames[i]);
      }
      SameTable(entries, args);
      WellTypedByKind(entries);
    }

    /** `__set`: store the supplied value or the default, and nothing else. */
    method Set(value: Value, name: string)
      requires name in Defaults && Acceptable(value, name)
      modifies this
      ensures entries == old(entries)[name := Resolve(value, name)]
      ensures SameKind(entries[name], Defaults[name])
    {
      var actual: Value;
      if Truthy(value) {
        actual := value;
      } else {
        actual := Defaults[name];
      }
      entries := entries[name := actual];
    }

    function File(): string reads this requires Valid() { entries["file"].s }
    function UName(): string reads this requires Valid() { entries["uname"].s }
    function VName(): string reads this requires Valid() { entries["vname"].s }
    function TName(): string reads this requires Valid() { entries["tname"].s }
    function Calendar(): string reads this requires Valid() { entries["calendar"].s }
    function BaseDate(): string reads this requires Valid() { entries["basedate"].s }
    function ClipTable(): map<string, ClipEntry> reads this requires Valid() { entries["clip"].m }
    function Nanvalue(): real reads this requires Valid() { entries["nanvalue"].x }
  }
}
