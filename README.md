# netcdf2json / grib2json in Dafny

A model of the data-shaping core of two conversion scripts that turn gridded
ocean-current and wind data into the JSON format of the `earth` wind map.

- `netcdf2json.py` reads the U and V current components of a netCDF file.
  - `Config` holds thirteen options. Each is the supplied value when that value is truthy, and the default otherwise.
  - `Process` reads one variable into flat arrays. The lon-major grid is transposed, flipped north-first and flattened. The data is rounded and the time values are decoded.
  - The in-place passes `fix_data` and `interpolate` do three things:
    - shift the longitudes into [0, 360);
    - regrid onto a regular band;
    - replace NaN and out-of-range values by the sentinel `nanvalue`.
  - `WriteJSON` builds a GRIB-like header template from the U field.
    - Each record gets a `refTime` string and its data with the sentinel written as `null`.
    - The V header differs only in its parameter.
    - The records are framed as `[rec,rec]` in `<stem>.json`. Without a V component the second record is an empty `{}`.
- `grib2json.py` works on downloaded GRIB files.
  - It maps each file to its output path.
  - It skips outputs that already exist.
  - It runs the external `grib2json` tool.
  - It rounds the data of the first two records of the tool's output and writes it back.
- Both scripts end by writing a catalog: the sorted file names of the JSON outputs.

Modules, one file each:

| module | contents |
|---|---|
| `Common` | options, Python exceptions, floats, JSON values, datetimes |
| `PyText` | the Python string and path functions the scripts use |
| `Steps` | real arithmetic on multiples of a step |
| `NcConfig` | the configuration class and its defaults |
| `Grid` | index arithmetic, axes, meshgrids and masks |
| `Process` | the field class and its in-place passes |
| `Encoder` | the JSON writer |
| `Grib` | the GRIB post-processor |
| `Catalog` | the catalog |

The foreign calls become function parameters: `griddata`, `num2date`, `np.around`, `json.dumps` and the `grib2json` tool. Files are a map from path to parsed JSON document.

## Model

| member | source | states |
|---|---|---|
| Common.PyIndex | netcdf2json.py:389 | Python indexing: a negative index counts from the end; an index outside the range raises IndexError |
| PyText.Split | grib2json.py:35 | `str.split` with one separator: at least one piece, and no piece holds the separator |
| PyText.SplitCount | grib2json.py:35-36 | the split has a second piece exactly when the separator occurs |
| PyText.JoinSplit | netcdf2json.py:414-420 | splitting a join of separator-free pieces gives back the pieces |
| PyText.SplitLastField | netcdf2json.py:107 | the last `_` field of `a_b` is `b` when `b` has no `_` |
| PyText.PathSplit | grib2json.py:34 | `os.path.split`: the tail has no `/` and is a suffix of the path |
| PyText.PathJoin | grib2json.py:36 | `os.path.join`: an absolute right part wins; otherwise a `/` is added unless the left part is empty or ends in one |
| PyText.BasenameOfJoin | grib2json.py:64 | the last component of `join(dir, name)` is `name` |
| PyText.PathSplitJoined | grib2json.py:34 | splitting `d/name` gives back `d` and `name` |
| PyText.SplitExt | netcdf2json.py:107 | `os.path.splitext`: root plus extension is the path; the extension is empty or a dot followed by no dot and no `/` |
| PyText.SplitExtOf | netcdf2json.py:341-342 | the root of `a.ext` is `a` |
| PyText.ZeroPadLength | netcdf2json.py:392-394 | a zero-padded field of a number below 10^w has exactly w characters |
| PyText.ZeroPadRoundTrip | netcdf2json.py:392-394 | a zero-padded field reads back as the number |
| NcConfig.Resolve | netcdf2json.py:160-165 | a truthy value is stored as given; a falsy one (None, '', 0, empty dict) is replaced by the default; the stored value is always truthy |
| NcConfig.DefaultsTruthy | netcdf2json.py:226-239 | every default is truthy |
| NcConfig.DefaultKeys | netcdf2json.py:226-239 | the default table has exactly the thirteen option names |
| NcConfig.OptionNamesAreDefaults | netcdf2json.py:144-158 | the constructor sets exactly the options of the default table |
| NcConfig.ResolveKeepsKind | netcdf2json.py:165 | an argument of the option's type, or None, stores a value of the default's type |
| NcConfig.Resolved | netcdf2json.py:144-158 | the stored table has the option names as keys, each resolved from its keyword argument |
| NcConfig.SameTable | netcdf2json.py:144-158 | a table with those keys and resolved values is the stored table |
| NcConfig.ResolvedNothing | netcdf2json.py:252 | `Config()` stores the default table, e.g. nanvalue 9.969209968386869e36 and calendar 'standard' |
| NcConfig.ResolvedFalsy | netcdf2json.py:160-164 | a falsy argument is stored as the default |
| NcConfig.MainConfig | netcdf2json.py:86-88 | the driver's configuration keeps its file, the 'noleap' calendar and its clip with key 'time'; the other options are defaults |
| NcConfig.WellTypedByKind | netcdf2json.py:165 | holding every option with the default's type is the per-option type check |
| NcConfig.Config.constructor | netcdf2json.py:144-158 | the stored table is the resolved table and every option has its default's type |
| NcConfig.Config.Set | netcdf2json.py:160-165 | `__set` stores the resolved value under its name and changes no other entry |
| Grid.Transpose | netcdf2json.py:287 | `.T`: element [i][j] is source [j][i], with the shape swapped |
| Grid.FlipUd | netcdf2json.py:287 | `np.flipud`: row i is source row n-1-i |
| Grid.FlattenAt | netcdf2json.py:287 | flattening a rows x cols matrix puts [i][j] at i*cols+j, with length rows*cols |
| Grid.OrientAt | netcdf2json.py:287 | the read data has length nx*ny, and flat index i*nx+j holds source [j][ny-1-i], so row 0 is the last (northernmost) latitude |
| Grid.Ceil | netcdf2json.py:62 | ceiling of a real |
| Grid.Arange | netcdf2json.py:62 | `np.arange(start, stop, step)`: ceil((stop-start)/step) values start + k*step |
| Grid.ArangeBounds | netcdf2json.py:62 | every arange value is below stop, and one more step would reach stop |
| Grid.LonAxisShape | netcdf2json.py:62 | nx is the number of points 0, r, 2r, ... below 360, all in [0, 360) |
| Grid.LatAxis | netcdf2json.py:62 | the intended latitude axis: floor(160/r)+1 points -80 + k*r |
| Grid.LatAxisBounds | netcdf2json.py:62 | every intended latitude is in [-80, 80], and one more step would pass 80 |
| Grid.LatAxisOvershoots | netcdf2json.py:62 | the written latitude axis ends at 80.2 for r = 0.3, outside the band |
| Grid.LatAxisAsWrittenBounds | netcdf2json.py:62 | every written latitude is in [-80, 80 + r): the last one can pass 80 by less than one step |
| Grid.LatAxisWrittenExtends | netcdf2json.py:62 | the written axis is the intended one followed by at most one more latitude, which lies north of 80 |
| Grid.LatAxisAgrees | netcdf2json.py:62 | when r divides 160 the written axis is the intended one |
| Grid.MeshX | netcdf2json.py:63-65 | flattened meshgrid X: every row repeats the x axis |
| Grid.MeshY | netcdf2json.py:63-65 | flattened meshgrid Y: row i is y[i] throughout |
| Grid.CloudMirrorsRows | netcdf2json.py:64-65 | the cloud handed to griddata pairs coordinate y[i] with the value read at latitude y[ny-1-i] |
| Grid.CloudMirrorsExample | netcdf2json.py:64-65 | one longitude, two latitudes: the northern value sits at the southern coordinate |
| Grid.CloudNegatesLatitude | netcdf2json.py:64-65 | with an axis symmetric about the equator, each cloud value comes from the opposite latitude |
| Grid.Regridded | netcdf2json.py:69-70 | the interpolated data has ny rows of nx values; row i, column j is the interpolant at (lon[j], lat[i]) |
| Grid.RegriddedFlat | netcdf2json.py:63-70 | read flat, value k of the reshaped data is the interpolant at the k-th target point: longitude lon[k % nx], latitude lat[k / nx], which are X[k] and Y[k] of the flattened target meshgrid |
| Grid.ShiftLon | netcdf2json.py:30 | the longitude shift keeps the length |
| Grid.ShiftLonRange | netcdf2json.py:30 | x < 0 becomes x + 360 and x >= 0 is unchanged, so longitudes in [-360, 360) land in [0, 360) |
| Grid.ShiftLonIdempotent | netcdf2json.py:61 | shifting again changes nothing |
| Grid.ShiftLonExample | netcdf2json.py:30 | [-10, 0, 10] becomes [350, 0, 10] |
| Grid.Masked | netcdf2json.py:31-34 | a masked assignment keeps the length |
| Grid.SanitizedAt | netcdf2json.py:31-34 | after the three masks a value is the sentinel when it was NaN, above extranan or below -extranan, and is unchanged otherwise |
| Process.MapFloat | netcdf2json.py:288 | the rounding is applied value by value |
| Process.DecodedTimes | netcdf2json.py:294-302 | one decoded date per time value, decoding t - 8 in days since the base date with the configured calendar |
| Process.DecodeTimes | netcdf2json.py:295-302 | the append loop builds exactly those dates |
| Process.Field.constructor | netcdf2json.py:248-302 | the given configuration, or a default one; nx, ny from the dimensions; dx = dy = 0.25; data the rounded oriented grid; the decoded times |
| Process.ShiftInPlace | netcdf2json.py:30 | the array becomes the shifted longitudes |
| Process.MaskInPlace | netcdf2json.py:31 | the array becomes the masked array |
| Process.SanitizeInPlace | netcdf2json.py:31-34 | the array becomes the sanitized array |
| Process.FixData | netcdf2json.py:29-35 | x is shifted and data sanitized in place, and nothing else changes |
| Process.Interpolate | netcdf2json.py:38-81 | x is shifted in place and the shifted cloud regridded; the data is sanitized; x and y become the flattened meshgrid of `arange(0, 360, r)` and `arange(-80, 80 + r, r)` as written; nx, ny are the lengths of those two axes and dx = dy = r |
| Process.Replace | netcdf2json.py:76-78 | the coordinates, data, spacing and shape are replaced; nothing else changes |
| Process.RegridData | netcdf2json.py:69-74 | the new data is the sanitized interpolation, with ny*nx values |
| Process.RegriddedShape | netcdf2json.py:62-78 | on the written axes every target longitude is in [0, 360) and every latitude in [-80, 80 + r); each value is the interpolant at its meshgrid point |
| Encoder.Min | netcdf2json.py:369 | `min()` is an element no greater than any other |
| Encoder.Max | netcdf2json.py:370 | `max()` is an element no less than any other |
| Encoder.GridFields | netcdf2json.py:363-374 | numberPoints = nx*ny; lo1 = min x; la1 = max y; lo2 = max x; la2 = min y; dx and dy copied |
| Encoder.Template | netcdf2json.py:347-375 | the template exists exactly when both coordinate arrays are non-empty; otherwise `min()` raises ValueError |
| Encoder.TemplateContents | netcdf2json.py:347-375 | the template holds the fixed product fields unchanged and the grid fields, and nothing else |
| Encoder.KeysApart | netcdf2json.py:347-375 | no fixed field is a grid field |
| Encoder.TemplateGrid | netcdf2json.py:363-374 | the header grid fields as stated for GridFields |
| Encoder.TemplateOrder | netcdf2json.py:369-372 | lo1 <= lo2 and la2 <= la1 |
| Encoder.TemplateParameter | netcdf2json.py:356-357 | the template carries parameter 2, 'U_component_of_current' |
| Encoder.UParameter | netcdf2json.py:356-357 | the fixed fields hold the U parameter |
| Encoder.RefTimeLayout | netcdf2json.py:392-394 | refTime is 24 characters with each zero-padded field and separator in place and the seconds written as SS.000 |
| Encoder.FieldReadBack | netcdf2json.py:392-394 | a zero-padded field written into the string is digits that read back as its number |
| Encoder.RefTimeRoundTrip | netcdf2json.py:392-394 | every datetime of years 1..9999 gives the `YYYY-MM-DDTHH:MM:SS.000Z` layout, and the fields read back |
| Encoder.SelectTime | netcdf2json.py:389 | `Times[clip[tname][0]]`: a missing time key raises KeyError, a bare integer clip entry (as documented at netcdf2json.py:133-136) raises TypeError, and an index out of range raises IndexError |
| Encoder.DefaultClipHasNoTime | netcdf2json.py:238 | the default clip has no 'time' key, so a writer on default options raises KeyError('time') |
| Encoder.MainClipSelectsFirst | netcdf2json.py:86-88 | the driver's clip selects the first time step |
| Encoder.NullMask | netcdf2json.py:396-397 | the masked list has the input's length |
| Encoder.Unmask | netcdf2json.py:397 | reading a masked list back keeps its length |
| Encoder.NullMaskAt | netcdf2json.py:397 | an entry is null exactly where the input equals nanvalue; every other entry is the input value |
| Encoder.NullMaskRoundTrip | netcdf2json.py:397 | the data is recovered from the masked list |
| Encoder.UHeader | netcdf2json.py:387-394 | the U header is the template with only refTime added |
| Encoder.VHeader | netcdf2json.py:401-407 | the V header is the template with parameterNumber 3, 'V_component_of_current' and refTime; every other field is the template's |
| Encoder.HeadersDiffer | netcdf2json.py:401-407 | the U and V headers have the same keys and differ only in parameterNumber, parameterNumberName and refTime |
| Encoder.TimeOf | netcdf2json.py:378-389 | without a configuration the `clip` lookup raises AttributeError; otherwise the time is selected |
| Encoder.URecord | netcdf2json.py:385-397 | the U record is the U header and masked data, or the error of its time lookup |
| Encoder.VRecord | netcdf2json.py:400-409 | the V record is the V header and masked data, or the error of its time lookup |
| Encoder.FileRecords | netcdf2json.py:316-318 | the intended records: U, then V only when there is a V component |
| Encoder.FileRecordsAsWritten | netcdf2json.py:385-409 | the records as collected: always two, U first, then V or the empty record `{}` |
| Encoder.EmptyVRecordWritten | netcdf2json.py:385 | as written, without a V component the file still holds an empty second record |
| Encoder.RecordsAgreeWithV | netcdf2json.py:385 | with a V component the written and intended records agree |
| Encoder.Records | netcdf2json.py:383-409 | the records succeed exactly when every time lookup does, and the U lookup's failure is raised before the V lookup's; on success there are always two records, U first, then V, or the empty record `{}` set up at :385 when there is no V component |
| Encoder.Frame | netcdf2json.py:414-420 | the file text starts with `[` and ends with `]` |
| Encoder.Dumped | netcdf2json.py:417 | one `json.dumps` text per record, in order |
| Encoder.CommaJoinIsJoin | netcdf2json.py:416-419 | the comma loop is `','.join` |
| Encoder.FrameShapes | netcdf2json.py:414-420 | one record gives `[a]`, two give `[a,b]` |
| Encoder.WriteFrame | netcdf2json.py:414-420 | the write loop produces the framed text |
| Encoder.CommaJoinSnoc | netcdf2json.py:416-419 | one more text is appended after a comma |
| Encoder.FileText | netcdf2json.py:383-420 | the file text is the frame of the dumped records (always two) when they exist; otherwise their error |
| Encoder.FileTextWithoutV | netcdf2json.py:385-420 | without a V component the file is `[dumps(U),dumps({})]`, not the `[dumps(U)]` of the intended records |
| Encoder.MainFileText | netcdf2json.py:111 | the driver writes `[dumps(U),dumps(V)]`, each dated by its first time step |
| Encoder.FirstStepsText | netcdf2json.py:383-420 | when both time lookups select the first step, the file is `[dumps(U),dumps(V)]` with those dates |
| Encoder.RecordsBuilt | netcdf2json.py:385-409 | the records collected one by one, with `{}` for a missing V, are the record list |
| Encoder.CollectedInOrder | netcdf2json.py:385-416 | the dictionary with keys u, v, in that insertion order, read in key order is the record list, `{}` included |
| Encoder.DumpedInOrder | netcdf2json.py:416-417 | dumping in key order is dumping the record list |
| Encoder.DumpAll | netcdf2json.py:416-417 | one dump per key, in key order |
| Encoder.ConfigOrDefault | netcdf2json.py:327-335 | the given configuration, or a fresh default one |
| Encoder.Create | netcdf2json.py:324-380 | a given configuration is kept and a missing one is a fresh one holding the default table; a non-empty stem is kept, else `<u stem>-<v stem>`; the written text is FileText of the template and the components as they are on entry, or the template's error, in which case nothing is collected; on success the keys are u, v and the path is `<stem>.json` |
| Encoder.SetUp | netcdf2json.py:324-343 | each configuration is the one passed or a fresh default one; a non-empty stem is kept, else `<u stem>-<v stem>`; nothing is collected yet |
| Encoder.Writer.constructor | netcdf2json.py:324-343 | the configurations and stem are stored; nothing is collected yet |
| Encoder.Writer.Build | netcdf2json.py:345-380 | the template is built from U as it is on entry, or its error is raised and nothing else changes; then `write_json` runs with the configurations as passed, leaving keys u, v and, on success, the path `<stem>.json` |
| Encoder.Writer.WriteJson | netcdf2json.py:383-420 | the text is FileText; the keys are always u, then v; on success the path is `<stem>.json` |
| Encoder.Writer.Collect | netcdf2json.py:385-409 | 'u' and 'v' are set up with `{}` first; the collected records are Records, stored under 'u' and 'v' in that order, 'v' staying `{}` when there is no V component |
| Encoder.Writer.WriteFile | netcdf2json.py:414-420 | writes `<stem>.json` with the frame of the records dumped in key order |
| Encoder.StemOfPlain | netcdf2json.py:340-343 | the default stem part of `<dir>/<name>.<ext>` is `name` |
| Encoder.UvStemOfInput | netcdf2json.py:106-108 | for input `<dir>/<prefix>_<date>.nc` the stem is `<out>/<date>-surface-currents-oscar-0.25` |
| Grib.OutfilePath | grib2json.py:33-37 | fails with IndexError exactly when the file name has no '_' |
| Grib.OutfileLocation | grib2json.py:34-36 | the output is in the input's directory with '_json' appended, named `parts[1]-parts[0]-surface-level-gfs-0.25.json` |
| Grib.DownloadParts | grib2json.py:35 | `wind_<date>_<hour>.grib` splits into wind, date and `<hour>.grib` |
| Grib.OutfileOfDownload | grib2json.py:33-37 | a download named as wind_download.py:42 names it goes to `<dir>_json/<date>-wind-surface-level-gfs-0.25.json` |
| Grib.OutfileDropsHour | grib2json.py:33-37 | the downloads of one day at different hours share one output path |
| Grib.CommandWords | grib2json.py:21 | the command is exactly `grib2json -d -n -o <out> <in>`: for space-free paths its words are those six |
| Grib.RoundRecord | grib2json.py:27-28 | a record's data is replaced by its rounding and every other field kept; a non-object raises TypeError; a record without data raises KeyError; data the rounding rejects raises the rounding's error |
| Grib.RoundedItems | grib2json.py:26-28 | records 0 and 1 are rounded and every later record is unchanged; fewer than two records, or a failing record, raises at the first failing index |
| Grib.Rounded | grib2json.py:24-28 | an object document raises KeyError, an empty string IndexError and any other non-list TypeError; a list is rounded as RoundedItems |
| Grib.RoundedTwice | grib2json.py:26-28 | with a rounding idempotent on what it returns, a second pass changes nothing |
| Grib.RoundFirstTwo | grib2json.py:26-28 | the `range(2)` loop computes Rounded |
| Grib.Convert | grib2json.py:17-31 | an existing output with no overwrite: nothing runs or changes; otherwise exactly the one command runs and no other file changes; a missing output raises FileNotFoundError; on an error the tool's output stays |
| Grib.ConvertWrites | grib2json.py:21-31 | a conversion leaves the rounded tool output, or the rounded old file when the tool wrote nothing |
| Grib.ConvertAgainSkips | grib2json.py:18-20 | converting again without overwrite is skipped and changes nothing |
| Grib.SecondHourSkipped | grib2json.py:18-20 | after one hour's download is converted, another hour of the same day is skipped |
| Grib.Next | grib2json.py:53-55 | one driver turn runs at most one command and removes no file |
| Grib.ConvertAll | grib2json.py:52-55 | the driver loop runs at most one command per file, removes no file, and stops at the first exception |
| Grib.NextWrites | grib2json.py:54-55 | after a completed turn its output exists |
| Grib.ConvertAllOutputs | grib2json.py:52-55 | a completed loop leaves an output file for every input path |
| Grib.FailureStays | grib2json.py:52-55 | after an exception the remaining files are not handled |
| Grib.FileSystem.constructor | grib2json.py:17 | the file system starts with the given files and no commands |
| Grib.FileSystem.ConvertFile | grib2json.py:17-31 | one `main` call changes the files and commands as Convert says |
| Grib.FileSystem.ConvertEach | grib2json.py:52-55 | the serial loop changes the files and commands as ConvertAll says |
| Catalog.LeTotal | grib2json.py:66 | any two strings are ordered one way or the other |
| Catalog.LeReflexive | grib2json.py:66 | a string is ordered before-or-equal itself |
| Catalog.LeAntisymmetric | grib2json.py:66 | strings ordered both ways are equal |
| Catalog.LeTransitive | grib2json.py:66 | the string order is transitive |
| Catalog.Insert | grib2json.py:66 | insertion adds the element to the collection |
| Catalog.InsertSorted | grib2json.py:66 | insertion into an ascending list keeps it ascending |
| Catalog.Sort | grib2json.py:66 | the sorted list is a permutation of the input |
| Catalog.SortSorted | grib2json.py:66 | the sorted list is ascending |
| Catalog.SortedUnique | grib2json.py:66 | two ascending lists with the same elements are equal |
| Catalog.SortedFirstLeast | grib2json.py:66 | the first element of an ascending list is at most every element |
| Catalog.SortedTail | grib2json.py:66 | the tail of an ascending list is ascending |
| Catalog.TailMultiset | grib2json.py:66 | equal collections with equal first elements have equal tails |
| Catalog.SortCharacterized | grib2json.py:66 | sorting depends only on the collection, and a sorted list is its own sort |
| Catalog.Matching | grib2json.py:63 | only entries that end in `.json` and do not start with a dot are kept |
| Catalog.MatchingCount | grib2json.py:63 | each matching entry is kept as often as the listing holds it, and no other is kept |
| Catalog.Globbed | grib2json.py:63 | the glob gives the joined path of each matching entry |
| Catalog.Basenames | grib2json.py:64 | the last path component of each path |
| Catalog.BasenamesOfGlob | grib2json.py:63-64 | the base names of the globbed paths are the matching entries |
| Catalog.MatchingEntries | grib2json.py:63 | the matching entries are entry names |
| Catalog.CatalogDocument | grib2json.py:65-66 | the written document is a list of the catalog's strings |
| Catalog.CatalogContents | grib2json.py:63-66 | the catalog is ascending and holds exactly the `.json` file names of the directory, each as often as listed; the same code is at netcdf2json.py:442-445 |
| Catalog.CatalogOrderFree | grib2json.py:63-66 | the catalog does not depend on the order glob lists the entries in |

## Left out

- The ends of both scripts are not modelled:
  - netCDF and GRIB reading;
  - HTTP downloads;
  - `os.makedirs`;
  - progress bars, `print` messages and the `DEBUG` branches.
  - The reason: I/O.
- The sorted catalog list is modelled, but the JSON file it is written to is not.
- The `multiprocessing.Pool` branches of both drivers are left out as concurrency. In `grib2json.py` that branch uses an undefined `f` and cannot run.
- `griddata` is a parameter: a function from the point cloud and a target point to a value.
  - The same goes for `num2date` (a decoder), `np.around` (a rounder, fallible on the GRIB side) and `json.dumps` (a function from a JSON value to text).
  - The reason: floating-point and calendar libraries.
- Numbers are mathematical reals. A float is NaN or finite.
  - The infinities are not modelled.
  - `extranan = np.inf` is passed as no threshold.
- `json.load` of the tool's output is taken as already parsed. Key order inside a JSON object is not modelled, because `json.dumps` is a parameter.
- A document that is not a list of objects is modelled by the exception Python raises first. The rounder parameter returns a result, so `np.around` raising on non-numeric data passes through RoundRecord and Rounded. Which data it rejects is the parameter's, not the model's.
- `os.system`'s exit status is ignored, as in the source. The tool is a function from the command to the document it writes, or to nothing.
- `np.squeeze`: the variable is taken as one 2-D (longitude, latitude) grid.
- The unused `alldims`/`vardims` computation in `__read_var` is left out, because it changes nothing.
- The `str(date)` / `strptime` round trip at netcdf2json.py:389 is not modelled. The decoded datetime is taken with its integral fields, and a date string with fractional seconds (which `strptime` would reject) is not modelled.
- The `try`/`except` in the netCDF driver, which prints and returns when reading fails, is left out: it is reporting, not data shaping.
- The netCDF driver's loop over input files is left out. It only calls `main` per file, and `main` is modelled through MainConfig, UvStemOfInput and MainFileText.
- Process.Field.constructor: requires the variable to exist and the dataset to be dimensioned (longitude, latitude). The source raises inside netCDF4/numpy otherwise, and that is not modelled.
- NcConfig.Config.constructor: requires every argument to be None or of its option's type. Conversion of other types by `str()`, `float()` and `dict()` is not modelled.
- NcConfig.Config.Set: requires an argument of the option's type, as above.
- NcConfig.Config.constructor: the arguments are a map from option name to value, and names outside the thirteen options are ignored. In the source the keyword signature rejects them with TypeError; that error is not modelled.
- Process.Interpolate: requires r > 0. With r = 0 `np.arange` raises; with r < 0 it gives empty axes. Neither is modelled. The arange count is computed exactly, so the floating-point rounding that can add or drop the last point of `np.arange` is not modelled.
- Grib.Rounded: a dict document raises `KeyError(0)` with the integer key 0. The model's KeyError carries its key as text, so it is `KeyError("0")`.
- Encoder.Create: requires the given configurations to be complete (Valid), as every `Config` object is.
- Encoder.Template: the text of the ValueError raised by `min()` of an empty array is not modelled.
- Encoder.RefTimeRoundTrip: stated for years 1..9999 with time fields in range. The `{:04d}` layout of larger years is not covered.
- Process.DecodedTimes is stated with the day offset and units string handed to the decoder. Calendar arithmetic is not modelled.

## Findings

| source | as written | input that shows it | evidently intended | confidence | as-written member | corrected member |
|---|---|---|---|---|---|---|
| netcdf2json.py:62 | `np.arange(-80, 80 + r, r)` | r = 0.3: 535 latitudes, the last 80.2 | latitudes from -80 up to and including 80 | not executed | Grid.LatAxisOvershoots | Grid.LatAxis |
| netcdf2json.py:385 | `data['v']` is created empty before the V branch, so the write loop emits it | v = None: the file is `[<u>,{}]` | when v is None only u is written (netcdf2json.py:316-318) | not executed | Encoder.FileTextWithoutV | Encoder.FileRecords |

The operations follow the code as written: Process.Interpolate regrids onto `np.arange(-80, 80 + r, r)` and Encoder.Records keeps the empty V record. The corrected definitions stand beside them. Grid.LatAxisWrittenExtends and Grid.LatAxisAgrees relate the two latitude axes; Encoder.EmptyVRecordWritten and Encoder.RecordsAgreeWithV relate the two record lists.
