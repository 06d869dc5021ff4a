/** The Python string and path operations both scripts build names with:
    str.split, str.rfind, os.path.split, os.path.splitext, os.path.join
    and the zero-padded integer fields of str.format, on POSIX paths. */
module PyText {

  // ---------------------------------------------------------------------------
  // str.split(c) for a one-character separator

  /** `s.split(c)`: the pieces of `s` between occurrences of `c`. */
  function Split(s: string, c: char): (parts: seq<string>)
    ensures |parts| >= 1
    ensures forall i :: 0 <= i < |parts| ==> c !in parts[i]
    decreases |s|
  {
    if s == [] then [[]]
    else
      var rest := Split(s[1..], c);
      if s[0] == c then [[]] + rest
      else [[s[0]] + rest[0]] + rest[1..]
  }

  /** `c.join(parts)`, the inverse of Split. */
  function Join(parts: seq<string>, c: char): string
    requires |parts| >= 1
    decreases |parts|
  {
    if |parts| == 1 then parts[0] else parts[0] + [c] + Join(parts[1..], c)
  }

  function Last<T>(s: seq<T>): T
    requires |s| >= 1
  {
    s[|s| - 1]
  }

  lemma {:induction false} JoinPrefixChar(x: char, parts: seq<string>, c: char)
    requires |parts| >= 1
    ensures Join([[x] + parts[0]] + parts[1..], c) == [x] + Join(parts, c)
  {
    var q := [[x] + parts[0]] + parts[1..];
    assert q[1..] == parts[1..];
  }

  /** Joining the pieces of a split with the separator gives back the string. */
  lemma {:induction false} SplitJoin(s: string, c: char)
    ensures Join(Split(s, c), c) == s
    decreases |s|
  {
    if s != [] {
      var rest := Split(s[1..], c);
      SplitJoin(s[1..], c);
      if s[0] == c {
        assert ([[]] + rest)[1..] == rest;
        assert Join([[]] + rest, c) == [c] + Join(rest, c);
      } else {
        JoinPrefixChar(s[0], rest, c);
      }
      assert s == [s[0]] + s[1..];
    }
  }

  /** A string free of the separator splits into itself alone. */
  lemma {:induction false} SplitFree(s: string, c: char)
    requires c !in s
    ensures Split(s, c) == [s]
    decreases |s|
  {
    if s != [] {
      assert c !in s[1..];
      SplitFree(s[1..], c);
      assert s == [s[0]] + s[1..];
    }
  }

  /** Splitting at a separator splits both sides independently. */
  lemma {:induction false} SplitConcat(a: string, b: string, c: char)
    ensures Split(a + [c] + b, c) == Split(a, c) + Split(b, c)
    decreases |a|
  {
    var s := a + [c] + b;
    if a == [] {
      assert s[1..] == b;
    } else {
      assert s[0] == a[0];
      assert s[1..] == a[1..] + [c] + b;
      SplitConcat(a[1..], b, c);
    }
  }

  /** The last piece of `a + c + b` is `b` when `b` holds no separator. */
  lemma SplitLastField(a: string, b: string, c: char)
    requires c !in b
    ensures Last(Split(a + [c] + b, c)) == b
  {
    SplitConcat(a, b, c);
    SplitFree(b, c);
  }

  /** Splitting a join of separator-free pieces gives the pieces back. */
  lemma {:induction false} JoinSplit(parts: seq<string>, c: char)
    requires |parts| >= 1
    requires forall k :: 0 <= k < |parts| ==> c !in parts[k]
    ensures Split(Join(parts, c), c) == parts
    decreases |parts|
  {
    if |parts| == 1 {
      SplitFree(parts[0], c);
    } else {
      JoinSplit(parts[1..], c);
      SplitFree(parts[0], c);
      SplitConcat(parts[0], Join(parts[1..], c), c);
      assert parts == [parts[0]] + parts[1..];
    }
  }

  /** A string splits into two or more pieces exactly when it holds the
      separator. */
  lemma SplitCount(s: string, c: char)
    ensures |Split(s, c)| >= 2 <==> c in s
  {
    SplitJoin(s, c);
    if c !in s {
      SplitFree(s, c);
    }
  }

  /** The pieces of a string are free of every character the string is free of. */
  lemma {:induction false} SplitPartsWithout(s: string, c: char, d: char)
    requires d !in s
    ensures forall k :: 0 <= k < |Split(s, c)| ==> d !in Split(s, c)[k]
    decreases |s|
  {
    if s != [] {
      assert d !in s[1..];
      SplitPartsWithout(s[1..], c, d);
    }
  }

  // ---------------------------------------------------------------------------
  // str.rfind(c)

  /** `s.rfind(c)`: the index of the last `c` in `s`, or -1. */
  function RFind(s: string, c: char): (r: int)
    ensures -1 <= r < |s|
    ensures r >= 0 ==> s[r] == c
    ensures r == -1 ==> c !in s
    ensures forall k :: r < k < |s| ==> s[k] != c
    decreases |s|
  {
    if s == [] then -1
    else if s[|s| - 1] == c then |s| - 1
    else RFind(s[..|s| - 1], c)
  }

  /** The last occurrence is the one with no occurrence after it. */
  lemma RFindAt(s: string, c: char, k: int)
    requires 0 <= k < |s| && s[k] == c
    requires forall m :: k < m < |s| ==> s[m] != c
    ensures RFind(s, c) == k
  {
  }

  // ---------------------------------------------------------------------------
  // os.path on POSIX paths

  function RStripSlash(s: string): (r: string)
    ensures |r| <= |s| && r == s[..|r|]
    ensures r == [] || r[|r| - 1] != '/'
    ensures forall k :: |r| <= k < |s| ==> s[k] == '/'
  {
    if s != [] && s[|s| - 1] == '/' then RStripSlash(s[..|s| - 1]) else s
  }

  predicate AllSlashes(s: string) {
    forall k :: 0 <= k < |s| ==> s[k] == '/'
  }

  /** `os.path.split(p)`: the directory part (trailing slashes removed unless
      it is all slashes) and the last component. */
  function PathSplit(p: string): (r: (string, string))
    ensures '/' !in r.1
    ensures |r.1| <= |p| && r.1 == p[|p| - |r.1|..]
  {
    var i := RFind(p, '/') + 1;
    var head, tail := p[..i], p[i..];
    if head != [] && !AllSlashes(head) then (RStripSlash(head), tail) else (head, tail)
  }

  /** `os.path.join(a, b)` for two components. */
  function PathJoin(a: string, b: string): (r: string)
    ensures |b| > 0 && b[0] == '/' ==> r == b
    ensures !(|b| > 0 && b[0] == '/') ==> r == JoinPrefix(a) + b
  {
    if |b| > 0 && b[0] == '/' then b
    else if a == [] || a[|a| - 1] == '/' then a + b
    else a + "/" + b
  }

  /** What os.path.join puts in front of a relative component. */
  function JoinPrefix(a: string): (r: string)
    ensures r == [] || r[|r| - 1] == '/'
  {
    if a == [] || a[|a| - 1] == '/' then a else a + "/"
  }

  /** The last component of a joined path is the component joined on. */
  lemma BasenameOfJoin(dir: string, name: string)
    requires '/' !in name
    ensures PathSplit(PathJoin(dir, name)).1 == name
  {
    var pre := JoinPrefix(dir);
    var p := PathJoin(dir, name);
    assert p == pre + name;
    if pre == [] {
      assert RFind(p, '/') == -1;
    } else {
      RFindAt(p, '/', |pre| - 1);
    }
  }

  /** Splitting `d/name` gives back `d` and `name`. */
  lemma PathSplitJoined(d: string, name: string)
    requires d != [] && d[|d| - 1] != '/'
    requires '/' !in name
    ensures PathSplit(d + "/" + name) == (d, name)
  {
    var p := d + "/" + name;
    RFindAt(p, '/', |d|);
    assert p[..|d| + 1] == d + "/";
    assert !AllSlashes(d + "/") by { assert (d + "/")[|d| - 1] != '/'; }
    var h := RStripSlash(d + "/");
    assert RStripSlash(d + "/") == RStripSlash(d);
    assert p[|d| + 1..] == name;
  }

  /** `os.path.splitext(p)`: the extension is the part from the last dot of
      the last component, unless that component has only dots before it. */
  function SplitExt(p: string): (r: (string, string))
    ensures r.0 + r.1 == p
    ensures r.1 == [] || (r.1[0] == '.' && '/' !in r.1 && '.' !in r.1[1..])
  {
    var sep := RFind(p, '/');
    var dot := RFind(p, '.');
    if dot > sep && exists k :: sep + 1 <= k < dot && p[k] != '.' then
      assert p[dot..][1..] == p[dot + 1..];
      assert p[..dot] + p[dot..] == p;
      (p[..dot], p[dot..])
    else
      (p, [])
  }

  /** The root of `a + ".ext"` is `a` when the extension holds no dot or slash
      and the last component of `a` is not only dots. */
  lemma SplitExtOf(a: string, ext: string, k: int)
    requires '.' !in ext && '/' !in ext
    requires 0 <= k < |a| && a[k] != '.' && a[k] != '/'
    requires forall m :: k < m < |a| ==> a[m] != '/'
    ensures SplitExt(a + "." + ext).0 == a
  {
    var p := a + "." + ext;
    RFindAt(p, '.', |a|);
    assert p[k] == a[k];
    var sep := RFind(p, '/');
    assert sep < k;
    assert p[..|a|] == a;
  }

  // ---------------------------------------------------------------------------
  // Zero-padded decimal fields, as '{:0Nd}'.format(n) writes them

  function DigitChar(d: nat): char
    requires d < 10
  {
    "0123456789"[d]
  }

  predicate IsDigit(ch: char) {
    '0' <= ch <= '9'
  }

  /** The decimal digits of `n`, most significant first, with no leading zero. */
  function Digits(n: nat): (s: string)
    ensures |s| >= 1
    ensures forall k :: 0 <= k < |s| ==> IsDigit(s[k])
  {
    if n < 10 then [DigitChar(n)] else Digits(n / 10) + [DigitChar(n % 10)]
  }

  function Zeros(k: int): (s: string)
    ensures |s| == if k > 0 then k else 0
    ensures forall m :: 0 <= m < |s| ==> s[m] == '0'
  {
    if k <= 0 then [] else "0" + Zeros(k - 1)
  }

  /** `'{:0wd}'.format(n)`: at least `w` characters, left-padded with zeros;
      a number with more than `w` digits is written in full. */
  function ZeroPad(n: nat, w: nat): (s: string)
    ensures forall k :: 0 <= k < |s| ==> IsDigit(s[k])
  {
    Zeros(w - |Digits(n)|) + Digits(n)
  }

  function Pow10(w: nat): (p: nat)
    ensures p >= 1
  {
    if w == 0 then 1 else 10 * Pow10(w - 1)
  }

  /** The value a string of decimal digits denotes. */
  function ParseNat(s: string): nat
    requires forall k :: 0 <= k < |s| ==> IsDigit(s[k])
  {
    if s == [] then 0 else ParseNat(s[..|s| - 1]) * 10 + DigitValue(s[|s| - 1])
  }

  function DigitValue(ch: char): (d: nat)
    requires IsDigit(ch)
    ensures d < 10
  {
    ch as int - '0' as int
  }

  lemma {:induction false} DigitsShort(n: nat, w: nat)
    requires w >= 1 && n < Pow10(w)
    ensures |Digits(n)| <= w
  {
    if n >= 10 {
      assert n / 10 < Pow10(w - 1);
      DigitsShort(n / 10, w - 1);
    }
  }

  /** A number below 10^w is written in exactly `w` characters. */
  lemma ZeroPadLength(n: nat, w: nat)
    requires w >= 1 && n < Pow10(w)
    ensures |ZeroPad(n, w)| == w
  {
    DigitsShort(n, w);
  }

  lemma {:induction false} ParseDigits(n: nat)
    ensures ParseNat(Digits(n)) == n
  {
    if n >= 10 {
      var s := Digits(n);
      assert s[..|s| - 1] == Digits(n / 10);
      ParseDigits(n / 10);
    }
  }

  lemma {:induction false} ParseLeadingZeros(k: int, s: string)
    requires forall m :: 0 <= m < |s| ==> IsDigit(s[m])
    ensures ParseNat(Zeros(k) + s) == ParseNat(s)
    decreases |s|
  {
    var z := Zeros(k);
    if s == [] {
      assert z + s == z;
      AllZeros(z);
    } else {
      var t := z + s;
      assert t[..|t| - 1] == z + s[..|s| - 1];
      ParseLeadingZeros(k, s[..|s| - 1]);
    }
  }

  lemma {:induction false} AllZeros(z: string)
    requires forall m :: 0 <= m < |z| ==> z[m] == '0'
    ensures ParseNat(z) == 0
    decreases |z|
  {
    if z != [] {
      AllZeros(z[..|z| - 1]);
    }
  }

  /** Reading back a zero-padded field gives the number written. */
  lemma ZeroPadRoundTrip(n: nat, w: nat)
    ensures ParseNat(ZeroPad(n, w)) == n
  {
    ParseLeadingZeros(w - |Digits(n)|, Digits(n));
    ParseDigits(n);
  }
}
