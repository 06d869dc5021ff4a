/** The catalog both converters write last: the file names of the JSON
    outputs in the output directory, in ascending order, as a JSON list. */
module Catalog {
  import opened Common
  import opened PyText

  // ---------------------------------------------------------------------------
  // String order

  /** Python's string comparison `a <= b`: lexicographic by code point, a
      proper prefix first. */
  predicate Le(a: string, b: string)
    decreases |a|
  {
    a == [] || (b != [] && (a[0] < b[0] || (a[0] == b[0] && Le(a[1..], b[1..]))))
  }

  lemma {:induction false} LeTotal(a: string, b: string)
    ensures Le(a, b) || Le(b, a)
    decreases |a|
  {
    if a != [] && b != [] && a[0] == b[0] {
      LeTotal(a[1..], b[1..]);
    }
  }

  lemma {:induction false} LeReflexive(a: string)
    ensures Le(a, a)
    decreases |a|
  {
    if a != [] {
      LeReflexive(a[1..]);
    }
  }

  lemma {:induction false} LeAntisymmetric(a: string, b: string)
    requires Le(a, b) && Le(b, a)
    ensures a == b
    decreases |a|
  {
    if a != [] {
      LeAntisymmetric(a[1..], b[1..]);
      assert a == [a[0]] + a[1..] && b == [b[0]] + b[1..];
    }
  }

  lemma {:induction false} LeTransitive(a: string, b: string, c: string)
    requires Le(a, b) && Le(b, c)
    ensures Le(a, c)
    decreases |a|
  {
    if a != [] && a[0] == b[0] && b[0] == c[0] {
      LeTransitive(a[1..], b[1..], c[1..]);
    }
  }

  /** Ascending order of a list of strings. */
  predicate Sorted(s: seq<string>) {
    forall i, j :: 0 <= i < j < |s| ==> Le(s[i], s[j])
  }

  // ---------------------------------------------------------------------------
  // Sorting (`np.sort` of a list of strings)

  /** `x` put in front of the first element it does not exceed. */
  function Insert(x: string, s: seq<string>): (r: seq<string>)
    ensures multiset(r) == multiset(s) + multiset{x}
  {
    if s == [] then [x]
    else if Le(x, s[0]) then [x] + s
    else
      assert s == [s[0]] + s[1..];
      [s[0]] + Insert(x, s[1..])
  }

  lemma {:induction false} InsertSorted(x: string, s: seq<string>)
    requires Sorted(s)
    ensures Sorted(Insert(x, s))
  {
    if s == [] {
    } else if Le(x, s[0]) {
      var r := [x] + s;
      forall j | 1 <= j < |r| ensures Le(x, r[j]) {
        if j > 1 {
          LeTransitive(x, s[0], r[j]);
        }
      }
    } else {
      LeTotal(x, s[0]);
      InsertSorted(x, s[1..]);
      var tail := Insert(x, s[1..]);
      var r := [s[0]] + tail;
      forall j | 0 <= j < |tail| ensures Le(s[0], tail[j]) {
        assert tail[j] in multiset(s[1..]) + multiset{x};
        if tail[j] != x {
          assert tail[j] in s[1..];
        }
      }
      assert r == Insert(x, s);
    }
  }

  /** Insertion sort: the ascending arrangement of `s`. */
  function Sort(s: seq<string>): (r: seq<string>)
    ensures multiset(r) == multiset(s)
  {
    if s == [] then []
    else
      assert s == [s[0]] + s[1..];
      Insert(s[0], Sort(s[1..]))
  }

  lemma {:induction false} SortSorted(s: seq<string>)
    ensures Sorted(Sort(s))
  {
    if s != [] {
      SortSorted(s[1..]);
      InsertSorted(s[0], Sort(s[1..]));
    }
  }

  /** The first element of an ascending list is at most each element. */
  lemma SortedFirstLeast(a: seq<string>, x: string)
    requires Sorted(a) && x in a
    ensures Le(a[0], x)
  {
    var i :| 0 <= i < |a| && a[i] == x;
    if i == 0 {
      LeReflexive(x);
    }
  }

  lemma SortedTail(a: seq<string>)
    requires Sorted(a) && a != []
    ensures Sorted(a[1..])
  {
    forall i, j | 0 <= i < j < |a| - 1 ensures Le(a[1..][i], a[1..][j]) {
      assert a[1..][i] == a[i + 1] && a[1..][j] == a[j + 1];
    }
  }

  lemma TailMultiset(a: seq<string>, b: seq<string>)
    requires a != [] && b != [] && a[0] == b[0] && multiset(a) == multiset(b)
    ensures multiset(a[1..]) == multiset(b[1..])
  {
    assert a == [a[0]] + a[1..] && b == [b[0]] + b[1..];
    assert multiset(a) == multiset{a[0]} + multiset(a[1..]);
    assert multiset(b) == multiset{b[0]} + multiset(b[1..]);
    assert multiset(a[1..]) == multiset(a) - multiset{a[0]};
    assert multiset(b[1..]) == multiset(b) - multiset{b[0]};
  }

  /** The sorted arrangement of a collection is unique. */
  lemma {:induction false} SortedUnique(a: seq<string>, b: seq<string>)
    requires Sorted(a) && Sorted(b) && multiset(a) == multiset(b)
    ensures a == b
    decreases |a|
  {
    if a != [] {
      assert |b| == |a| by { assert |multiset(b)| == |multiset(a)|; }
      assert a[0] in multiset(b);
      assert b[0] in multiset(a);
      SortedFirstLeast(b, a[0]);
      SortedFirstLeast(a, b[0]);
      LeAntisymmetric(a[0], b[0]);
      TailMultiset(a, b);
      SortedTail(a);
      SortedTail(b);
      SortedUnique(a[1..], b[1..]);
      assert a == [a[0]] + a[1..] && b == [b[0]] + b[1..];
    } else {
      assert |multiset(b)| == 0;
    }
  }

  /** Sorting a sorted list changes nothing, and the result depends only on
      the collection, not on its order. */
  lemma SortCharacterized(s: seq<string>, t: seq<string>)
    requires multiset(s) == multiset(t)
    ensures Sort(s) == Sort(t)
    ensures Sorted(s) ==> Sort(s) == s
  {
    SortSorted(s);
    SortSorted(t);
    SortedUnique(Sort(s), Sort(t));
    if Sorted(s) {
      SortedUnique(Sort(s), s);
    }
  }

  // ---------------------------------------------------------------------------
  // The glob and the catalog

  /** A directory entry `glob('*.json')` picks: it ends in `.json` and, as
      glob skips hidden entries, does not start with a dot. */
  predicate Matches(name: string) {
    |name| >= 5 && name[|name| - 5..] == ".json" && name[0] != '.'
  }

  /** The matching entries of a directory listing, in listing order. */
  function Matching(names: seq<string>): (r: seq<string>)
    ensures forall k :: 0 <= k < |r| ==> Matches(r[k])
  {
    if names == [] then []
    else if Matches(names[0]) then [names[0]] + Matching(names[1..])
    else Matching(names[1..])
  }

  /** Filtering keeps each matching entry as often as the listing holds it. */
  lemma {:induction false} MatchingCount(names: seq<string>, x: string)
    ensures multiset(Matching(names))[x] == if Matches(x) then multiset(names)[x] else 0
  {
    if names != [] {
      MatchingCount(names[1..], x);
      assert names == [names[0]] + names[1..];
    }
  }

  /** `glob(os.path.join(dir, '*.json'))` over the entries of `dir`: the
      joined path of every matching entry. */
  function Globbed(dir: string, names: seq<string>): (r: seq<string>)
    ensures |r| == |Matching(names)|
    ensures forall k :: 0 <= k < |r| ==> r[k] == PathJoin(dir, Matching(names)[k])
  {
    var m := Matching(names);
    seq(|m|, k requires 0 <= k < |m| => PathJoin(dir, m[k]))
  }

  /** `[os.path.split(i)[-1] for i in files]`. */
  function Basenames(paths: seq<string>): (r: seq<string>)
    ensures |r| == |paths|
    ensures forall k :: 0 <= k < |r| ==> r[k] == PathSplit(paths[k]).1
  {
    seq(|paths|, k requires 0 <= k < |paths| => PathSplit(paths[k]).1)
  }

  /** An entry name of a directory never holds the separator. */
  predicate EntryNames(names: seq<string>) {
    forall k :: 0 <= k < |names| ==> '/' !in names[k]
  }

  /** The catalog of the directory `dir` whose listing, in glob's order, is
      `names`. */
  function CatalogOf(dir: string, names: seq<string>): seq<string> {
    Sort(Basenames(Globbed(dir, names)))
  }

  /** What `json.dump` receives: a list of strings. */
  function CatalogDocument(dir: string, names: seq<string>): (r: Json)
    ensures r.JArr? && |r.items| == |CatalogOf(dir, names)|
    ensures forall k :: 0 <= k < |r.items| ==> r.items[k] == JStr(CatalogOf(dir, names)[k])
  {
    var c := CatalogOf(dir, names);
    JArr(seq(|c|, k requires 0 <= k < |c| => JStr(c[k])))
  }

  /** The base names of the globbed paths are the matching entries. */
  lemma BasenamesOfGlob(dir: string, names: seq<string>)
    requires EntryNames(names)
    ensures Basenames(Globbed(dir, names)) == Matching(names)
  {
    var m := Matching(names);
    MatchingEntries(names);
    forall k | 0 <= k < |m| ensures Basenames(Globbed(dir, names))[k] == m[k] {
      BasenameOfJoin(dir, m[k]);
    }
  }

  lemma {:induction false} MatchingEntries(names: seq<string>)
    requires EntryNames(names)
    ensures EntryNames(Matching(names))
  {
    if names != [] {
      MatchingEntries(names[1..]);
    }
  }

  /** The catalog is in ascending order, and each name occurs in it exactly
      as often as among the matching entries of the directory: it is the
      sorted list of the `.json` file names. */
  lemma CatalogContents(dir: string, names: seq<string>, x: string)
    requires EntryNames(names)
    ensures Sorted(CatalogOf(dir, names))
    ensures multiset(CatalogOf(dir, names))[x] == if Matches(x) then multiset(names)[x] else 0
    ensures x in CatalogOf(dir, names) <==> x in names && Matches(x)
  {
    SortSorted(Basenames(Globbed(dir, names)));
    BasenamesOfGlob(dir, names);
    MatchingCount(names, x);
  }

  /** The order glob returns the entries in does not matter. */
  lemma CatalogOrderFree(dir: string, names: seq<string>, others: seq<string>)
    requires EntryNames(names) && EntryNames(others)
    requires multiset(names) == multiset(others)
    ensures CatalogOf(dir, names) == CatalogOf(dir, others)
  {
    BasenamesOfGlob(dir, names);
    BasenamesOfGlob(dir, others);
    forall x ensures multiset(Matching(names))[x] == multiset(Matching(others))[x] {
      MatchingCount(names, x);
      MatchingCount(others, x);
    }
    assert multiset(Matching(names)) == multiset(Matching(others));
    SortCharacterized(Matching(names), Matching(others));
  }
}
