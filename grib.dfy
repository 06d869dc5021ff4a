/** The GRIB-JSON post-processor: where a converted file goes, the command
    that converts it, and the pass that rounds the data of the first two
    records of the converted document. */
module Grib {
  import opened Common
  import opened PyText

  // ---------------------------------------------------------------------------
  // Output paths

  /** The fixed tail of every output file name. */
  const Suffix: string := "-surface-level-gfs-0.25.json"

  /** `get_outfile_path(inpath)`: `<dir>_json/<parts[1]>-<parts[0]><Suffix>`,
      where `parts` are the '_'-separated pieces of the file name. A file name
      without '_' has no second piece, and the lookup raises. */
  function OutfilePath(inpath: string): (r: Result<string>)
    ensures r.Err? <==> '_' !in PathSplit(inpath).1
    ensures r.Err? ==> r.error == IndexError(1)
  {
    var (dir, filename) := PathSplit(inpath);
    var parts := Split(filename, '_');
    SplitCount(filename, '_');
    if |parts| < 2 then Err(IndexError(1))
    else Ok(PathJoin(dir + "_json", parts[1] + "-" + parts[0] + Suffix))
  }

  /** The output sits in the input's directory with `_json` appended, under
      the name built from the first two pieces of the input's file name. */
  lemma OutfileLocation(inpath: string)
    requires OutfilePath(inpath).Ok?
    ensures var dir, filename := PathSplit(inpath).0, PathSplit(inpath).1;
      var parts := Split(filename, '_');
      |parts| >= 2 &&
      PathSplit(OutfilePath(inpath).value) == (dir + "_json", parts[1] + "-" + parts[0] + Suffix)
  {
    var dir, filename := PathSplit(inpath).0, PathSplit(inpath).1;
    SplitCount(filename, '_');
    SplitPartsWithout(filename, '_', '/');
    OutfileNamed(dir, Split(filename, '_'));
  }

  /** The output name built from two `/`-free pieces splits back off its
      `<dir>_json` directory. */
  lemma OutfileNamed(dir: string, parts: seq<string>)
    requires |parts| >= 2 && '/' !in parts[0] && '/' !in parts[1]
    ensures PathSplit(PathJoin(dir + "_json", parts[1] + "-" + parts[0] + Suffix)) ==
      (dir + "_json", parts[1] + "-" + parts[0] + Suffix)
  {
    assert '/' !in Suffix;
    JsonDirSplit(dir, parts[1] + "-" + parts[0] + Suffix);
  }

  /** A name without `/` joined under `<dir>_json` splits back into the two. */
  lemma JsonDirSplit(dir: string, name: string)
    requires '/' !in name
    ensures PathSplit(PathJoin(dir + "_json", name)) == (dir + "_json", name)
  {
    var d := dir + "_json";
    assert d[|d| - 1] == 'n';
    assert PathJoin(d, name) == d + "/" + name;
    PathSplitJoined(d, name);
  }

  /** The name the downloader gives a file, `wind_<date>_<hour>.grib`, in
      directory `dir`. */
  function Downloaded(dir: string, date: string, hour: string): string {
    dir + "/wind_" + date + "_" + hour + ".grib"
  }

  /** A downloaded file goes to `<dir>_json/<date>-wind<Suffix>`. */
  lemma OutfileOfDownload(dir: string, date: string, hour: string)
    requires dir != [] && dir[|dir| - 1] != '/'
    requires '/' !in date && '_' !in date && '/' !in hour && '_' !in hour
    ensures OutfilePath(Downloaded(dir, date, hour)) == Ok(dir + "_json/" + date + "-wind" + Suffix)
  {
    var name := "wind_" + date + "_" + hour + ".grib";
    DownloadSplit(dir, date, hour);
    DownloadParts(date, hour);
    OutfilePathOf(Downloaded(dir, date, hour), dir, name);
    JsonOutPath(dir, date);
  }

  /** A download's path splits into its directory and its file name. */
  lemma DownloadSplit(dir: string, date: string, hour: string)
    requires dir != [] && dir[|dir| - 1] != '/'
    requires '/' !in date && '/' !in hour
    ensures PathSplit(Downloaded(dir, date, hour)) == (dir, "wind_" + date + "_" + hour + ".grib")
  {
    var name := "wind_" + date + "_" + hour + ".grib";
    assert Downloaded(dir, date, hour) == dir + "/" + name;
    assert '/' !in name;
    PathSplitJoined(dir, name);
  }

  /** The output name joined under `<dir>_json`, written out in one. */
  lemma JsonOutPath(dir: string, date: string)
    requires '/' !in date
    ensures PathJoin(dir + "_json", date + "-" + "wind" + Suffix) == dir + "_json/" + date + "-wind" + Suffix
  {
    var d := dir + "_json";
    var out := date + "-" + "wind" + Suffix;
    assert d[|d| - 1] == 'n';
    assert PathJoin(d, out) == d + "/" + out;
    OutputSpelling(dir, date);
  }

  /** The output path of an input whose split and file name are known. */
  lemma OutfilePathOf(inpath: string, dir: string, filename: string)
    requires PathSplit(inpath) == (dir, filename) && |Split(filename, '_')| >= 2
    ensures var parts := Split(filename, '_');
      OutfilePath(inpath) == Ok(PathJoin(dir + "_json", parts[1] + "-" + parts[0] + Suffix))
  {
  }

  /** The pieces of a downloaded file name at '_'. */
  lemma DownloadParts(date: string, hour: string)
    requires '_' !in date && '_' !in hour
    ensures Split("wind_" + date + "_" + hour + ".grib", '_') == ["wind", date, hour + ".grib"]
  {
    var parts := ["wind", date, hour + ".grib"];
    assert Join(parts[2..], '_') == hour + ".grib";
    assert Join(parts[1..], '_') == date + "_" + hour + ".grib";
    assert Join(parts, '_') == "wind_" + date + "_" + hour + ".grib";
    assert '_' !in hour + ".grib";
    JoinSplit(parts, '_');
  }

  /** The output path as pieced together, and as written out in one. */
  lemma OutputSpelling(dir: string, date: string)
    ensures dir + "_json" + "/" + (date + "-" + "wind" + Suffix) == dir + "_json/" + date + "-wind" + Suffix
  {
  }

  /** The hour of a download is not part of the output name: the three
      downloads of one day all map to one output file. */
  lemma OutfileDropsHour(dir: string, date: string, h1: string, h2: string)
    requires dir != [] && dir[|dir| - 1] != '/'
    requires '/' !in date && '_' !in date
    requires '/' !in h1 && '_' !in h1 && '/' !in h2 && '_' !in h2
    ensures OutfilePath(Downloaded(dir, date, h1)) == OutfilePath(Downloaded(dir, date, h2))
  {
    OutfileOfDownload(dir, date, h1);
    OutfileOfDownload(dir, date, h2);
  }

  // ---------------------------------------------------------------------------
  // The external command

  /** The shell command that converts `filePath` into `outPath`. */
  function Command(outPath: string, filePath: string): string {
    "grib2json -d -n -o " + outPath + " " + filePath
  }

  /** Split at spaces, a command for paths free of spaces gives back the
      program, its three flags and the two paths, in that order. */
  lemma CommandWords(outPath: string, filePath: string)
    requires ' ' !in outPath && ' ' !in filePath
    ensures Split(Command(outPath, filePath), ' ') == ["grib2json", "-d", "-n", "-o", outPath, filePath]
  {
    var words := ["grib2json", "-d", "-n", "-o", outPath, filePath];
    assert Join(words[5..], ' ') == filePath;
    assert Join(words[4..], ' ') == outPath + " " + filePath;
    assert Join(words[3..], ' ') == "-o " + outPath + " " + filePath;
    assert Join(words[2..], ' ') == "-n -o " + outPath + " " + filePath;
    assert Join(words[1..], ' ') == "-d -n -o " + outPath + " " + filePath;
    assert Join(words, ' ') == Command(outPath, filePath);
    JoinSplit(words, ' ');
  }

  // ---------------------------------------------------------------------------
  // Rounding the first two records

  /** `np.around(x, 2).tolist()` of a record's data, a floating-point library
      call; it raises on data that is not numeric. */
  type Rounder = Json -> Result<Json>

  /** `rec['data'] = round(rec['data'])` on one record: a record that is not
      an object cannot be indexed by a key, one without `data` raises, and
      the rounder's own exception passes through. */
  function RoundRecord(rec: Json, round: Rounder): (r: Result<Json>)
    ensures !rec.JObj? ==> r == Err(TypeError("record is not an object"))
    ensures rec.JObj? && "data" !in rec.fields ==> r == Err(KeyError("data"))
    ensures rec.JObj? && "data" in rec.fields && round(rec.fields["data"]).Err? ==>
      r == Err(round(rec.fields["data"]).error)
    ensures r.Ok? <==> rec.JObj? && "data" in rec.fields && round(rec.fields["data"]).Ok?
    ensures r.Ok? ==> r.value.JObj? && r.value.fields.Keys == rec.fields.Keys
    ensures r.Ok? ==> r.value.fields["data"] == round(rec.fields["data"]).value
    ensures r.Ok? ==> forall k :: k in rec.fields && k != "data" ==> r.value.fields[k] == rec.fields[k]
  {
    if !rec.JObj? then Err(TypeError("record is not an object"))
    else if "data" !in rec.fields then Err(KeyError("data"))
    else
      var d := round(rec.fields["data"]);
      if d.Err? then Err(d.error)
      else Ok(JObj(rec.fields["data" := d.value]))
  }

  /** The records after the loop over indices 0 and 1: records 0 and 1 have
      their data rounded and every other record is kept. Fewer than two
      records, or a first or second record that cannot be rounded, raises
      at the first failing index. */
  function RoundedItems(items: seq<Json>, round: Rounder): (r: Result<seq<Json>>)
    ensures |items| == 0 ==> r == Err(IndexError(0))
    ensures |items| >= 1 && RoundRecord(items[0], round).Err? ==> r == Err(RoundRecord(items[0], round).error)
    ensures |items| == 1 && RoundRecord(items[0], round).Ok? ==> r == Err(IndexError(1))
    ensures r.Ok? <==> |items| >= 2 && RoundRecord(items[0], round).Ok? && RoundRecord(items[1], round).Ok?
    ensures r.Ok? ==> |r.value| == |items|
    ensures r.Ok? ==> forall k :: 0 <= k < 2 ==> r.value[k] == RoundRecord(items[k], round).value
    ensures r.Ok? ==> forall k :: 2 <= k < |items| ==> r.value[k] == items[k]
  {
    if |items| == 0 then Err(IndexError(0))
    else
      var r0 := RoundRecord(items[0], round);
      if r0.Err? then Err(r0.error)
      else if |items| == 1 then Err(IndexError(1))
      else
        var r1 := RoundRecord(items[1], round);
        if r1.Err? then Err(r1.error)
        else Ok(items[0 := r0.value][1 := r1.value])
  }

  /** The whole document after the loop. `data_json[i]` on an object looks up
      the key `i`, which a JSON object never has; the empty string has no
      index 0; the first character of a string, like a number or a literal,
      cannot be indexed by `'data'`. */
  function Rounded(doc: Json, round: Rounder): (r: Result<Json>)
    ensures doc.JObj? ==> r == Err(KeyError("0"))
    ensures doc == JStr("") ==> r == Err(IndexError(0))
    ensures !doc.JObj? && !doc.JArr? && doc != JStr("") ==> r == Err(TypeError("document is not a list"))
    ensures doc.JArr? ==> (r.Ok? <==> RoundedItems(doc.items, round).Ok?)
    ensures r.Ok? ==> doc.JArr? && r.value == JArr(RoundedItems(doc.items, round).value)
  {
    if doc.JObj? then Err(KeyError("0"))
    else if doc == JStr("") then Err(IndexError(0))
    else if !doc.JArr? then Err(TypeError("document is not a list"))
    else
      var rs := RoundedItems(doc.items, round);
      if rs.Err? then Err(rs.error) else Ok(JArr(rs.value))
  }

  /** Rounding twice rounds the rounded data again and changes nothing else:
      when the rounder is idempotent on what it returns, a second pass is no
      change. */
  lemma RoundedTwice(doc: Json, round: Rounder)
    requires Rounded(doc, round).Ok?
    requires forall j :: round(j).Ok? ==> round(round(j).value) == round(j)
    ensures Rounded(Rounded(doc, round).value, round) == Rounded(doc, round)
  {
    var items := doc.items;
    var once := RoundedItems(items, round).value;
    var twice := RoundedItems(once, round);
    assert twice.Ok?;
    forall k | 0 <= k < 2
      ensures twice.value[k] == once[k]
    {
      var f := RoundRecord(items[k], round).value.fields;
      assert RoundRecord(once[k], round).value.fields == f;
    }
    assert twice.value == once;
  }

  /** The `for i in range(2)` loop: each pass replaces the data of record
      `i` in the list in place. */
  method RoundFirstTwo(doc: Json, round: Rounder) returns (r: Result<Json>)
    ensures r == Rounded(doc, round)
  {
    if doc.JObj? {
      return Err(KeyError("0"));
    }
    if doc == JStr("") {
      return Err(IndexError(0));
    }
    if !doc.JArr? {
      return Err(TypeError("document is not a list"));
    }
    var items := doc.items;
    for i := 0 to 2
      invariant |items| == |doc.items| && i <= |items|
      invariant forall k :: 0 <= k < i ==> RoundRecord(doc.items[k], round).Ok?
      invariant forall k :: 0 <= k < i ==> items[k] == RoundRecord(doc.items[k], round).value
      invariant forall k :: i <= k < |items| ==> items[k] == doc.items[k]
    {
      if i >= |items| {
        return Err(IndexError(i));
      }
      var rec := RoundRecord(items[i], round);
      if rec.Err? {
        return Err(rec.error);
      }
      items := items[i := rec.value];
    }
    var rs := RoundedItems(doc.items, round);
    assert items == rs.value;
    return Ok(JArr(items));
  }

  // ---------------------------------------------------------------------------
  // One conversion

  /** What the external tool writes for a command: the converted document,
      or nothing when the conversion fails. */
  type Tool = string -> Option<Json>

  /** The files, the commands run and the outcome of one call of `main`:
      `Ok(true)` for a conversion, `Ok(false)` for a skipped one. */
  datatype Run = Run(files: map<string, Json>, commands: seq<string>, result: Result<bool>)

  /** `main(file_path, out_path, over_write)` on the files by path. An
      existing output is kept unless overwriting is asked for. Otherwise the
      command runs, whatever it writes replaces the output, and the output
      is read back, rounded and written again; a failure leaves the file as
      the tool wrote it. */
  function Convert(files: map<string, Json>, filePath: string, outPath: string, overWrite: bool,
                   tool: Tool, round: Rounder): (run: Run)
    ensures !overWrite && outPath in files ==> run == Run(files, [], Ok(false))
    ensures !(!overWrite && outPath in files) ==> run.commands == [Command(outPath, filePath)]
    ensures forall p :: p != outPath ==> (p in run.files <==> p in files)
    ensures forall p :: p != outPath && p in files ==> run.files[p] == files[p]
    ensures !(!overWrite && outPath in files) && tool(Command(outPath, filePath)).None? && outPath !in files ==>
      run == Run(files, [Command(outPath, filePath)], Err(FileNotFoundError(outPath)))
    ensures !(!overWrite && outPath in files) && tool(Command(outPath, filePath)).Some? && run.result.Err? ==>
      run.files == files[outPath := tool(Command(outPath, filePath)).value]
  {
    if !overWrite && outPath in files then Run(files, [], Ok(false))
    else
      var cmd := Command(outPath, filePath);
      var written := if tool(cmd).Some? then files[outPath := tool(cmd).value] else files;
      if outPath !in written then Run(written, [cmd], Err(FileNotFoundError(outPath)))
      else
        var r := Rounded(written[outPath], round);
        if r.Err? then Run(written, [cmd], Err(r.error))
        else Run(written[outPath := r.value], [cmd], Ok(true))
  }

  /** A successful conversion leaves the rounded output of the tool in place,
      or the rounded previous output when the tool wrote nothing. */
  lemma ConvertWrites(files: map<string, Json>, filePath: string, outPath: string, overWrite: bool,
                      tool: Tool, round: Rounder)
    requires Convert(files, filePath, outPath, overWrite, tool, round).result == Ok(true)
    ensures var t := tool(Command(outPath, filePath));
      var raw := if t.Some? then t.value else files[outPath];
      (t.None? ==> outPath in files) &&
      outPath in Convert(files, filePath, outPath, overWrite, tool, round).files &&
      Convert(files, filePath, outPath, overWrite, tool, round).files[outPath] == Rounded(raw, round).value
  {
  }

  /** Once the output exists, a run without overwriting changes nothing and
      runs no command: converting a file again is free. */
  lemma ConvertAgainSkips(files: map<string, Json>, filePath: string, outPath: string, overWrite: bool,
                          tool: Tool, round: Rounder, otherPath: string, tool2: Tool)
    requires Convert(files, filePath, outPath, overWrite, tool, round).result == Ok(true)
    ensures var after := Convert(files, filePath, outPath, overWrite, tool, round).files;
      Convert(after, otherPath, outPath, false, tool2, round) == Run(after, [], Ok(false))
  {
    ConvertWrites(files, filePath, outPath, overWrite, tool, round);
  }

  /** The downloads of one day at two hours: once the first is converted,
      the second maps to the same output and is skipped. */
  lemma SecondHourSkipped(files: map<string, Json>, dir: string, date: string, h1: string, h2: string,
                          tool: Tool, round: Rounder)
    requires dir != [] && dir[|dir| - 1] != '/'
    requires '/' !in date && '_' !in date
    requires '/' !in h1 && '_' !in h1 && '/' !in h2 && '_' !in h2
    ensures var out := dir + "_json/" + date + "-wind" + Suffix;
      OutfilePath(Downloaded(dir, date, h1)) == Ok(out) && OutfilePath(Downloaded(dir, date, h2)) == Ok(out) &&
      var first := Convert(files, Downloaded(dir, date, h1), out, false, tool, round);
      first.result == Ok(true) ==>
        Convert(first.files, Downloaded(dir, date, h2), out, false, tool, round) == Run(first.files, [], Ok(false))
  {
    OutfileOfDownload(dir, date, h1);
    OutfileOfDownload(dir, date, h2);
    var out := dir + "_json/" + date + "-wind" + Suffix;
    var first := Convert(files, Downloaded(dir, date, h1), out, false, tool, round);
    if first.result == Ok(true) {
      ConvertAgainSkips(files, Downloaded(dir, date, h1), out, false, tool, round, Downloaded(dir, date, h2), tool);
    }
  }

  /** One turn of the driver loop after `before`: the output path of `p`,
      then `main` without overwriting. A skipped file is handled too. */
  function Next(before: Run, p: string, tool: Tool, round: Rounder): (after: Run)
    ensures |after.commands| <= |before.commands| + 1
    ensures forall q :: q in before.files ==> q in after.files
  {
    var out := OutfilePath(p);
    if out.Err? then Run(before.files, before.commands, Err(out.error))
    else
      var last := Convert(before.files, p, out.value, false, tool, round);
      Run(last.files, before.commands + last.commands, if last.result.Ok? then Ok(true) else last.result)
  }

  /** The driver loop over the downloaded files, in glob's order. The first
      exception ends the loop; `Ok(true)` reports that every file was
      handled. */
  function ConvertAll(files: map<string, Json>, paths: seq<string>, tool: Tool, round: Rounder): (run: Run)
    ensures |run.commands| <= |paths|
    ensures run.result.Ok? ==> run.result.value
    ensures forall q :: q in files ==> q in run.files
    decreases |paths|
  {
    if paths == [] then Run(files, [], Ok(true))
    else
      var before := ConvertAll(files, paths[..|paths| - 1], tool, round);
      if before.result.Err? then before else Next(before, paths[|paths| - 1], tool, round)
  }

  /** After a completed turn the output of its file is there. */
  lemma NextWrites(before: Run, p: string, tool: Tool, round: Rounder)
    requires Next(before, p, tool, round).result.Ok?
    ensures OutfilePath(p).Ok? && OutfilePath(p).value in Next(before, p, tool, round).files
  {
    var out := OutfilePath(p).value;
    var last := Convert(before.files, p, out, false, tool, round);
    if last.result == Ok(true) {
      ConvertWrites(before.files, p, out, false, tool, round);
    } else {
      assert out in before.files;
    }
  }

  /** A completed run leaves an output for every input. */
  lemma {:induction false} ConvertAllOutputs(files: map<string, Json>, paths: seq<string>, tool: Tool, round: Rounder)
    requires ConvertAll(files, paths, tool, round).result.Ok?
    ensures forall k :: 0 <= k < |paths| ==> OutfilePath(paths[k]).Ok?
    ensures forall k :: 0 <= k < |paths| ==> OutfilePath(paths[k]).value in ConvertAll(files, paths, tool, round).files
    decreases |paths|
  {
    if paths != [] {
      var init := paths[..|paths| - 1];
      var before := ConvertAll(files, init, tool, round);
      ConvertAllOutputs(files, init, tool, round);
      NextWrites(before, paths[|paths| - 1], tool, round);
      forall k | 0 <= k < |paths| - 1
        ensures OutfilePath(paths[k]).Ok? && OutfilePath(paths[k]).value in ConvertAll(files, paths, tool, round).files
      {
        assert paths[k] == init[k];
      }
    }
  }

  /** One more path is one more turn of the loop. */
  lemma ConvertAllStep(files: map<string, Json>, paths: seq<string>, i: nat, tool: Tool, round: Rounder)
    requires i < |paths| && ConvertAll(files, paths[..i], tool, round).result.Ok?
    ensures ConvertAll(files, paths[..i + 1], tool, round) ==
      Next(ConvertAll(files, paths[..i], tool, round), paths[i], tool, round)
  {
    assert paths[..i + 1][..i] == paths[..i];
  }

  /** Once the loop has raised, the files after it are never looked at. */
  lemma {:induction false} FailureStays(files: map<string, Json>, paths: seq<string>, n: nat,
                                        tool: Tool, round: Rounder)
    requires n <= |paths| && ConvertAll(files, paths[..n], tool, round).result.Err?
    ensures ConvertAll(files, paths, tool, round) == ConvertAll(files, paths[..n], tool, round)
    decreases |paths|
  {
    if n < |paths| {
      var init := paths[..|paths| - 1];
      assert init[..n] == paths[..n];
      FailureStays(files, init, n, tool, round);
    } else {
      assert paths[..n] == paths;
    }
  }

  /** The files the script sees, and the shell commands it has run. */
  class FileSystem {
    var files: map<string, Json>
    var commands: seq<string>

    constructor (files: map<string, Json>)
      ensures this.files == files && commands == []
    {
      this.files := files;
      commands := [];
    }

    /** `main(file_path, out_path, over_write)`: the guard, the command, and
        the read-round-write of the output. */
    method ConvertFile(filePath: string, outPath: string, overWrite: bool, tool: Tool, round: Rounder)
      returns (r: Result<bool>)
      modifies this
      ensures var run := Convert(old(files), filePath, outPath, overWrite, tool, round);
        files == run.files && commands == old(commands) + run.commands && r == run.result
    {
      if !overWrite && outPath in files {
        return Ok(false);
      }
      var cmd := Command(outPath, filePath);
      commands := commands + [cmd];
      var produced := tool(cmd);
      if produced.Some? {
        files := files[outPath := produced.value];
      }
      if outPath !in files {
        return Err(FileNotFoundError(outPath));
      }
      var rounded := RoundFirstTwo(files[outPath], round);
      if rounded.Err? {
        return Err(rounded.error);
      }
      files := files[outPath := rounded.value];
      return Ok(true);
    }

    /** The serial driver loop: each downloaded file converted to its output
        path in turn, stopping at the first exception. */
    method ConvertEach(paths: seq<string>, tool: Tool, round: Rounder) returns (r: Result<bool>)
      modifies this
      ensures var run := ConvertAll(old(files), paths, tool, round);
        files == run.files && commands == old(commands) + run.commands && r == run.result
    {
      ghost var files0, commands0 := files, commands;
      for i := 0 to |paths|
        invariant ConvertAll(files0, paths[..i], tool, round).result == Ok(true)
        invariant files == ConvertAll(files0, paths[..i], tool, round).files
        invariant commands == commands0 + ConvertAll(files0, paths[..i], tool, round).commands
      {
        ghost var before := ConvertAll(files0, paths[..i], tool, round);
        ConvertAllStep(files0, paths, i, tool, round);
        var out := OutfilePath(paths[i]);
        if out.Err? {
          FailureStays(files0, paths, i + 1, tool, round);
          return Err(out.error);
        }
        ghost var last := Convert(before.files, paths[i], out.value, false, tool, round);
        var done := ConvertFile(paths[i], out.value, false, tool, round);
        assert commands == commands0 + (before.commands + last.commands) by {
          assert commands == commands0 + before.commands + last.commands;
        }
        if done.Err? {
          FailureStays(files0, paths, i + 1, tool, round);
          return done;
        }
      }
      assert paths[..|paths|] == paths;
      return Ok(true);
    }
  }
}
