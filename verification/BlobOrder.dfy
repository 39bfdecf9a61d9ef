/** The comparison of two lines of a blob list, and the order it amounts to. */
module BlobOrder {
  /** The sign of the comparison of two code-point sequences, as strcoll gives
      it in the C locale: the first difference decides, a proper prefix is less. */
  function Lex(a: seq<int>, b: seq<int>): int {
    if a == [] && b == [] then 0
    else if a == [] then -1
    else if b == [] then 1
    else if a[0] != b[0] then (if a[0] < b[0] then -1 else 1)
    else Lex(a[1..], b[1..])
  }

  function Codes(s: string): (codes: seq<int>)
    ensures |codes| == |s|
    ensures forall i :: 0 <= i < |s| ==> codes[i] == s[i] as int && 0 <= codes[i] < MIDDLE
  {
    seq(|s|, i requires 0 <= i < |s| => s[i] as int)
  }

  function StrColl(a: string, b: string): int {
    Lex(Codes(a), Codes(b))
  }

  // Symbols outside the range of code points.
  const LOWEST := -1
  const MIDDLE := 0x11_0000
  const HIGHEST := 0x11_0001

  // ------------------------------------------------------------- the comparator

  function Strip(line: string): string {
    if line != "" && line[0] == '-' then line[1..] else line
  }

  /** The part of s up to and including its last slash; empty if there is none. */
  function DirPart(s: string): (d: string)
    ensures d <= s
    ensures '/' !in s[|d|..]
    ensures '/' in s ==> d != "" && d[|d| - 1] == '/'
    ensures '/' !in s ==> d == ""
  {
    if s == "" then ""
    else if s[|s| - 1] == '/' then s
    else
      var front, last := s[..|s| - 1], s[|s| - 1];
      var d := DirPart(front);
      assert s == front + [last];
      assert '/' in s <==> '/' in front;
      assert s[|d|..] == front[|d|..] + [last];
      d
  }

  /** rsplit("/", 1)[0] + "/", which puts a slashless string in a directory of its own. */
  function Dir(s: string): string {
    if '/' in s then DirPart(s) else s + "/"
  }

  function Compare(line1: string, line2: string): int {
    if line1 == "" || line2 == "" then StrColl(line1, line2)
    else
      var s1, s2 := Strip(line1), Strip(line2);
      if '/' !in s1 && '/' !in s2 then StrColl(s1, s2)
      else CompareByDir(Dir(s1), s1, Dir(s2), s2)
  }

  function CompareByDir(dir1: string, s1: string, dir2: string, s2: string): int {
    if dir1 == dir2 then StrColl(s1, s2)
    else if dir2 <= dir1 then -1
    else if dir1 <= dir2 then 1
    else StrColl(s1, s2)
  }

  // -------------------------------------------------------- lexicographic order

  lemma {:induction false} LexCommonPrefix(p: seq<int>, a: seq<int>, b: seq<int>)
    ensures Lex(p + a, p + b) == Lex(a, b)
  {
    if p == [] {
      assert p + a == a && p + b == b;
    } else {
      LexCommonPrefix(p[1..], a, b);
      assert (p + a)[1..] == p[1..] + a && (p + b)[1..] == p[1..] + b;
    }
  }

  /** The first difference decides. */
  lemma LexDiffers(a: seq<int>, b: seq<int>, k: nat)
    requires k < |a| && k < |b| && a[..k] == b[..k] && a[k] != b[k]
    ensures Lex(a, b) == if a[k] < b[k] then -1 else 1
  {
    LexCommonPrefix(a[..k], a[k..], b[k..]);
    assert a == a[..k] + a[k..] && b == b[..k] + b[k..];
  }

  lemma LexProperPrefix(a: seq<int>, b: seq<int>)
    requires a < b
    ensures Lex(a, b) == -1 && Lex(b, a) == 1
  {
    LexCommonPrefix(a, [], b[|a|..]);
    LexCommonPrefix(a, b[|a|..], []);
    assert a + [] == a && a + b[|a|..] == b;
  }

  lemma {:induction false} LexTotal(a: seq<int>, b: seq<int>)
    ensures Lex(a, b) == -Lex(b, a)
    ensures Lex(a, b) == 0 <==> a == b
  {
    if a != [] && b != [] && a[0] == b[0] {
      LexTotal(a[1..], b[1..]);
      assert a == [a[0]] + a[1..] && b == [b[0]] + b[1..];
    }
  }

  lemma {:induction false} LexTransitive(a: seq<int>, b: seq<int>, c: seq<int>)
    requires Lex(a, b) <= 0 && Lex(b, c) <= 0
    ensures Lex(a, c) <= 0
    ensures Lex(a, c) == 0 ==> Lex(a, b) == 0 && Lex(b, c) == 0
  {
    if a != [] && b != [] && c != [] && a[0] == b[0] == c[0] {
      LexTransitive(a[1..], b[1..], c[1..]);
    }
  }

  /** Sequences with a common prefix are next to each other. */
  lemma {:induction false} LexPrefixBlock(p: seq<int>, a: seq<int>, b: seq<int>, c: seq<int>)
    requires p <= a && p <= c && Lex(a, b) <= 0 && Lex(b, c) <= 0
    ensures p <= b
  {
    if p != [] {
      assert a[0] == c[0] == p[0];
      LexPrefixBlock(p[1..], a[1..], b[1..], c[1..]);
      assert p == [p[0]] + p[1..] && b == [b[0]] + b[1..];
    }
  }

  /** Where two strings first differ, if neither is a prefix of the other. */
  lemma {:induction false} FirstDifference(a: string, b: string) returns (k: nat)
    requires !(a <= b) && !(b <= a)
    ensures k < |a| && k < |b| && a[..k] == b[..k] && a[k] != b[k]
  {
    if a[0] != b[0] {
      k := 0;
    } else {
      assert a == [a[0]] + a[1..] && b == [b[0]] + b[1..];
      var j := FirstDifference(a[1..], b[1..]);
      k := j + 1;
      assert a[..k] == [a[0]] + a[1..][..j] && b[..k] == [b[0]] + b[1..][..j];
    }
  }

  // --------------------------------------------------------------------- keys

  /** The line is a path strictly below the directory that the slashless line c names. */
  predicate Below(path: string, c: string) {
    && path != "" && c != ""
    && '/' in Strip(path) && '/' !in Strip(c)
    && Strip(c) + "/" < DirPart(Strip(path))
  }

  /** Something that a plain string comparison puts between the slashless line c
      and everything below the directory it names. */
  predicate Crosses(x: string, c: string) {
    && x != "" && c != "" && '/' !in Strip(c)
    && Strip(c) < Strip(x) && Strip(x)[|Strip(c)|] < '/'
  }

  function PathKey(d: string, s: string): seq<int> {
    Codes(d) + [HIGHEST] + Codes(s)
  }

  function PlainKey(c: string, hasBelow: bool): seq<int> {
    if hasBelow then Codes(c + "/") + [MIDDLE] else Codes(c) + [LOWEST]
  }

  /** The sort key of a line. A path goes by its directory, closed off by a
      symbol above every character, and then by all of it. A slashless line goes
      by itself, unless there is something below the directory it names. */
  function Key(line: string, hasBelow: bool): seq<int> {
    if line == "" then []
    else
      var s := Strip(line);
      if '/' in s then PathKey(DirPart(s), s)
      else PlainKey(s, hasBelow)
  }

  predicate HasBelow(section: seq<string>, line: string) {
    exists p :: p in section && Below(p, line)
  }

  function KeyIn(section: seq<string>, line: string): seq<int> {
    Key(line, HasBelow(section, line))
  }

  /** No slashless line with something below it has a line that crosses it. */
  ghost predicate Orderly(section: seq<string>) {
    forall p, c, x :: p in section && c in section && x in section ==> !(Below(p, c) && Crosses(x, c))
  }

  // ------------------------------------------------ the comparator goes by keys

  /** Keys that start like their strings do compare like them, if the strings
      differ early enough. */
  lemma DiffersAlike(s: string, t: string, ka: seq<int>, kb: seq<int>, k: nat)
    requires k < |s| && k < |t| && s[..k] == t[..k] && s[k] != t[k]
    requires k < |ka| && k < |kb| && ka[..k + 1] == Codes(s)[..k + 1] && kb[..k + 1] == Codes(t)[..k + 1]
    ensures Lex(ka, kb) == StrColl(s, t)
  {
    forall i | 0 <= i <= k
      ensures ka[i] == Codes(s)[i] && kb[i] == Codes(t)[i]
    {
      assert ka[..k + 1][i] == Codes(s)[..k + 1][i] && kb[..k + 1][i] == Codes(t)[..k + 1][i];
    }
    forall i | 0 <= i < k
      ensures s[i] == t[i]
    {
      assert s[..k][i] == t[..k][i];
    }
    assert ka[..k] == kb[..k] && Codes(s)[..k] == Codes(t)[..k];
    LexDiffers(ka, kb, k);
    LexDiffers(Codes(s), Codes(t), k);
  }

  /** The deeper directory comes first. */
  lemma DeeperFirst(d: string, s: string, e: string, t: string)
    requires e < d
    ensures Lex(PathKey(d, s), PathKey(e, t)) == -1 && Lex(PathKey(e, t), PathKey(d, s)) == 1
  {
    var k, ka, kb := |e|, PathKey(d, s), PathKey(e, t);
    forall i | 0 <= i < k
      ensures ka[i] == kb[i]
    {
      assert e[i] == d[i];
    }
    assert ka[..k] == kb[..k] && ka[k] < HIGHEST == kb[k];
    LexDiffers(ka, kb, k);
    LexDiffers(kb, ka, k);
  }

  /** Unrelated directories are compared as strings. */
  lemma UnrelatedByString(d: string, s: string, e: string, t: string)
    requires d <= s && e <= t && !(d <= e) && !(e <= d)
    ensures Lex(PathKey(d, s), PathKey(e, t)) == StrColl(s, t)
  {
    var k := FirstDifference(d, e);
    assert s[..k] == d[..k] && t[..k] == e[..k];
    assert forall i :: 0 <= i <= k ==> PathKey(d, s)[i] == Codes(s)[i] && PathKey(e, t)[i] == Codes(t)[i];
    DiffersAlike(s, t, PathKey(d, s), PathKey(e, t), k);
  }

  lemma PathsGoByKey(a: string, b: string)
    requires a != "" && b != "" && '/' in Strip(a) && '/' in Strip(b)
    ensures Compare(a, b) == Lex(Key(a, false), Key(b, false))
  {
    var s, t := Strip(a), Strip(b);
    var d, e := DirPart(s), DirPart(t);
    if d == e {
      LexCommonPrefix(Codes(d) + [HIGHEST], Codes(s), Codes(t));
    } else if e <= d {
      DeeperFirst(d, s, e, t);
    } else if d <= e {
      DeeperFirst(e, t, d, s);
    } else {
      UnrelatedByString(d, s, e, t);
    }
  }

  /** x is put by a plain comparison between c and everything below c. */
  predicate CrossesPlain(x: string, c: string) {
    c < x && x[|c|] < '/'
  }

  lemma PlainStart(c: string, hasBelow: bool)
    ensures |PlainKey(c, hasBelow)| > |c|
    ensures forall i :: 0 <= i < |c| ==> PlainKey(c, hasBelow)[i] == Codes(c)[i]
    ensures PlainKey(c, hasBelow)[|c|] == if hasBelow then '/' as int else LOWEST
    ensures hasBelow ==> |PlainKey(c, hasBelow)| == |c| + 2 && PlainKey(c, hasBelow)[|c| + 1] == MIDDLE
  {}

  lemma ProperPrefixByString(c: string, x: string)
    requires c < x
    ensures StrColl(c, x) == -1 && StrColl(x, c) == 1
  {
    assert Codes(x)[..|c|] == Codes(c);
    LexProperPrefix(Codes(c), Codes(x));
  }

  /** A slashless string and a longer string that starts with it, but not with
      the directory it names. */
  lemma PlainBeforeLonger(c: string, hasBelow: bool, x: string, kx: seq<int>)
    requires c < x && x[|c|] != '/' && (hasBelow ==> !CrossesPlain(x, c))
    requires |kx| > |c| && forall i :: 0 <= i <= |c| ==> kx[i] == Codes(x)[i]
    ensures Lex(PlainKey(c, hasBelow), kx) == -1 && Lex(kx, PlainKey(c, hasBelow)) == 1
  {
    var kc := PlainKey(c, hasBelow);
    PlainStart(c, hasBelow);
    assert forall i :: 0 <= i < |c| ==> c[i] == x[i];
    assert kc[..|c|] == kx[..|c|];
    LexDiffers(kc, kx, |c|);
    LexDiffers(kx, kc, |c|);
  }

  lemma PlainsGoByKey(c: string, m: bool, d: string, n: bool)
    requires '/' !in c && '/' !in d && (c == d ==> m == n)
    requires (m ==> !CrossesPlain(d, c)) && (n ==> !CrossesPlain(c, d))
    ensures StrColl(c, d) == Lex(PlainKey(c, m), PlainKey(d, n))
  {
    PlainStart(c, m);
    PlainStart(d, n);
    if c == d {
      LexTotal(Codes(c), Codes(d));
      LexTotal(PlainKey(c, m), PlainKey(d, n));
    } else if c <= d {
      assert d[|c|] in d;
      ProperPrefixByString(c, d);
      PlainBeforeLonger(c, m, d, PlainKey(d, n));
    } else if d <= c {
      assert c[|d|] in c;
      ProperPrefixByString(d, c);
      PlainBeforeLonger(d, n, c, PlainKey(c, m));
    } else {
      var k := FirstDifference(c, d);
      DiffersAlike(c, d, PlainKey(c, m), PlainKey(d, n), k);
    }
  }

  /** The comparator on a slashless string and a path. */
  function ComparePlain(c: string, t: string): int
    requires '/' !in c && '/' in t
  {
    CompareByDir(c + "/", c, DirPart(t), t)
  }

  lemma NoDirectoryInPlain(c: string, d: string)
    requires '/' !in c && d != "" && d[|d| - 1] == '/'
    ensures !(d <= c)
    ensures d <= c + "/" ==> d == c + "/"
  {
    if |d| <= |c| {
      assert c[|d| - 1] in c;
    }
  }

  /** A slashless string against a path in or below the directory it names. */
  lemma PlainAndInside(c: string, hasBelow: bool, d: string, t: string)
    requires '/' !in c && c + "/" <= d <= t
    requires c + "/" < d ==> hasBelow
    ensures Lex(PlainKey(c, hasBelow), PathKey(d, t)) == if d == c + "/" then -1 else 1
    ensures c < t
  {
    var kc, kt := PlainKey(c, hasBelow), PathKey(d, t);
    PlainStart(c, hasBelow);
    forall i | 0 <= i <= |c|
      ensures kt[i] == (c + "/")[i] as int && t[i] == (c + "/")[i]
    {
      assert d[i] == (c + "/")[i] && t[i] == d[i];
    }
    assert c == t[..|c|];
    var k := if hasBelow then |c| + 1 else |c|;
    assert kc[..k] == kt[..k];
    if d != c + "/" {
      assert |d| > |c| + 1;
    }
    LexDiffers(kc, kt, k);
  }

  /** A slashless string against a path outside that directory. */
  lemma PlainAndOutside(c: string, hasBelow: bool, d: string, t: string)
    requires '/' !in c && !(c + "/" <= d) && !(d <= c) && d <= t
    requires hasBelow ==> !CrossesPlain(t, c)
    ensures Lex(PlainKey(c, hasBelow), PathKey(d, t)) == StrColl(c, t)
  {
    var kt := PathKey(d, t);
    assert forall i :: 0 <= i < |d| ==> kt[i] == Codes(t)[i] && d[i] == t[i];
    if c <= d {
      assert |d| > |c|;
      ProperPrefixByString(c, t);
      PlainBeforeLonger(c, hasBelow, t, kt);
    } else {
      var k := FirstDifference(c, d);
      PlainStart(c, hasBelow);
      assert t[..k] == d[..k];
      DiffersAlike(c, t, PlainKey(c, hasBelow), kt, k);
    }
  }

  lemma PlainAndPathGoByKey(c: string, hasBelow: bool, t: string)
    requires '/' !in c && '/' in t
    requires c + "/" < DirPart(t) ==> hasBelow
    requires hasBelow ==> !CrossesPlain(t, c)
    ensures ComparePlain(c, t) == Lex(PlainKey(c, hasBelow), PathKey(DirPart(t), t))
  {
    var d := DirPart(t);
    NoDirectoryInPlain(c, d);
    if c + "/" <= d {
      PlainAndInside(c, hasBelow, d, t);
      ProperPrefixByString(c, t);
    } else {
      PlainAndOutside(c, hasBelow, d, t);
    }
  }

  // ------------------------------------------------------------- whole sections

  lemma ByDirIsAntisymmetric(d: string, s: string, e: string, t: string)
    ensures CompareByDir(d, s, e, t) == -CompareByDir(e, t, d, s)
  {
    LexTotal(Codes(s), Codes(t));
    if d <= e && e <= d {
      assert d == e;
    }
  }

  lemma CompareSplits(a: string, b: string)
    requires a != "" && b != ""
    ensures var s, t := Strip(a), Strip(b);
            && ('/' !in s && '/' in t ==> Compare(a, b) == ComparePlain(s, t))
            && ('/' in s && '/' !in t ==> Compare(a, b) == -ComparePlain(t, s))
            && ('/' !in s && '/' !in t ==> Compare(a, b) == StrColl(s, t))
  {
    var s, t := Strip(a), Strip(b);
    ByDirIsAntisymmetric(Dir(s), s, Dir(t), t);
  }

  /** Comparing in the other direction gives the opposite answer, for any two lines. */
  lemma CompareIsAntisymmetric(a: string, b: string)
    ensures Compare(a, b) == -Compare(b, a)
  {
    var s, t := Strip(a), Strip(b);
    LexTotal(Codes(a), Codes(b));
    LexTotal(Codes(s), Codes(t));
    ByDirIsAntisymmetric(Dir(s), s, Dir(t), t);
  }

  /** In a section without crossings the comparator compares keys. */
  lemma ComparesKeys(section: seq<string>, a: string, b: string)
    requires Orderly(section) && a in section && b in section
    ensures Compare(a, b) == Lex(KeyIn(section, a), KeyIn(section, b))
  {
    var s, t := Strip(a), Strip(b);
    if a == "" || b == "" {
      assert Codes("") == [];
    } else if '/' in s && '/' in t {
      PathsGoByKey(a, b);
    } else {
      CompareSplits(a, b);
      if '/' in t {
        PlainAndPathInSection(section, a, b);
      } else if '/' in s {
        PlainAndPathInSection(section, b, a);
        LexTotal(KeyIn(section, a), KeyIn(section, b));
      } else {
        NotCrossed(section, a, b);
        NotCrossed(section, b, a);
        SameTextSameKey(section, a, b);
        PlainsGoByKey(s, HasBelow(section, a), t, HasBelow(section, b));
      }
    }
  }

  lemma NotCrossed(section: seq<string>, c: string, x: string)
    requires Orderly(section) && c in section && x in section
    requires c != "" && x != "" && '/' !in Strip(c)
    ensures HasBelow(section, c) ==> !CrossesPlain(Strip(x), Strip(c))
  {
    if p :| p in section && Below(p, c) {
      assert !(Below(p, c) && Crosses(x, c));
    }
  }

  lemma PlainAndPathInSection(section: seq<string>, c: string, p: string)
    requires Orderly(section) && c in section && p in section && c != "" && p != ""
    requires '/' !in Strip(c) && '/' in Strip(p)
    ensures ComparePlain(Strip(c), Strip(p)) == Lex(KeyIn(section, c), KeyIn(section, p))
  {
    NotCrossed(section, c, p);
    if Strip(c) + "/" < DirPart(Strip(p)) {
      assert Below(p, c);
    }
    PlainAndPathGoByKey(Strip(c), HasBelow(section, c), Strip(p));
  }

  lemma SameTextSameKey(section: seq<string>, a: string, b: string)
    requires a != "" && b != ""
    ensures Strip(a) == Strip(b) ==> (HasBelow(section, a) <==> HasBelow(section, b))
  {
    if Strip(a) == Strip(b) {
      assert forall p :: Below(p, a) <==> Below(p, b);
    }
  }

  ghost predicate Transitive(section: seq<string>) {
    forall a, b, c :: a in section && b in section && c in section && Compare(a, b) <= 0 && Compare(b, c) <= 0 ==>
                        Compare(a, c) <= 0
  }

  /** A crossing is a cycle: the path comes before the slashless line, the
      slashless line before the crossing line, and that before the path. */
  lemma CrossingIsCycle(p: string, c: string, x: string)
    requires Below(p, c) && Crosses(x, c)
    ensures Compare(p, c) < 0 && Compare(c, x) < 0 && Compare(x, p) < 0
  {
    BelowComesFirst(p, c);
    CrossingComesLater(c, x);
    CrossingBeforePath(p, c, x);
  }

  lemma BelowComesFirst(p: string, c: string)
    requires Below(p, c)
    ensures Compare(p, c) == -1
  {
    CompareSplits(p, c);
  }

  lemma CrossingComesLater(c: string, x: string)
    requires Crosses(x, c)
    ensures Compare(c, x) == -1
  {
    var s, y := Strip(c), Strip(x);
    CompareSplits(c, x);
    ProperPrefixByString(s, y);
    if '/' in y {
      CrossingDirectory(s, y);
      Incomparable(s, DirPart(y), s + "/");
    }
  }

  lemma CrossingBeforePath(p: string, c: string, x: string)
    requires Below(p, c) && Crosses(x, c)
    ensures Compare(x, p) == -1
  {
    var t, s, y := Strip(p), Strip(c), Strip(x);
    CompareSplits(x, p);
    BeforeTheDirectory(s, t, y);
    if '/' in y {
      CrossingDirectory(s, y);
      Incomparable(s, DirPart(y), DirPart(t));
    } else {
      Incomparable(s, y + "/", DirPart(t));
    }
  }

  lemma BeforeTheDirectory(s: string, t: string, y: string)
    requires s + "/" <= t && s < y && y[|s|] < '/'
    ensures StrColl(y, t) == -1
  {
    assert t[|s|] == (s + "/")[|s|] == '/';
    assert forall i :: 0 <= i < |s| ==> t[i] == (s + "/")[i] && y[i] == s[i];
    assert Codes(y)[..|s|] == Codes(t)[..|s|];
    LexDiffers(Codes(y), Codes(t), |s|);
  }

  lemma CrossingDirectory(s: string, y: string)
    requires '/' !in s && s < y && y[|s|] != '/' && '/' in y
    ensures s < DirPart(y) && DirPart(y)[|s|] == y[|s|]
  {
    NoDirectoryInPlain(s, DirPart(y));
  }

  /** Two strings that go on differently after s are not prefixes of each other. */
  lemma Incomparable(s: string, d: string, e: string)
    requires s < d && s + "/" <= e && d[|s|] != '/'
    ensures !(d <= e) && !(e <= d)
  {
    assert e[|s|] == (s + "/")[|s|];
  }

  /** The comparator is transitive on a section, and so a total preorder that a
      sort can rely on, exactly when no slashless line that names a directory
      with something strictly below it is crossed. */
  lemma TransitiveExactly(section: seq<string>)
    ensures Transitive(section) <==> Orderly(section)
  {
    if Orderly(section) {
      forall a, b, c | && a in section && b in section && c in section
                       && Compare(a, b) <= 0 && Compare(b, c) <= 0
        ensures Compare(a, c) <= 0
      {
        ComparesKeys(section, a, b);
        ComparesKeys(section, b, c);
        ComparesKeys(section, a, c);
        LexTransitive(KeyIn(section, a), KeyIn(section, b), KeyIn(section, c));
      }
    } else {
      var p, c, x :| p in section && c in section && x in section && Below(p, c) && Crosses(x, c);
      CrossingIsCycle(p, c, x);
      CompareIsAntisymmetric(p, x);
    }
  }

  /** Sections of paths only are always fine, and so are sections of slashless lines only. */
  lemma PathsAreOrderly(section: seq<string>)
    requires (forall l :: l in section ==> '/' in l) || (forall l :: l in section ==> '/' !in l)
    ensures Orderly(section)
  {
    forall l | l in section
      ensures '/' in Strip(l) <==> '/' in l
    {
      if l != "" {
        assert l == [l[0]] + l[1..];
      }
    }
  }

  /** So are paths under headings: slashless lines that start with '#', and paths that do not. */
  lemma HeadedSectionsAreOrderly(section: seq<string>)
    requires forall l :: l in section && l != "" ==> if '/' in Strip(l) then Strip(l)[0] != '#' else l[0] == '#'
    ensures Orderly(section)
  {
    forall p, c | p in section && c in section
      ensures !Below(p, c)
    {
      if p != "" && c != "" && '/' in Strip(p) && '/' !in Strip(c) {
        assert Strip(c)[0] == '#' && Strip(p)[0] != '#';
      }
    }
  }

  /** A slashless line, one that continues it with `!`, and a path two levels
      below it: three lines that no order satisfies. */
  lemma SmallestCycle()
    ensures !Transitive(["b", "b!", "b/c/d"])
  {
    var section := ["b", "b!", "b/c/d"];
    assert DirPart("b/c/d") == "b/c/" by {
      assert "b/c/d"[..4] == "b/c/";
    }
    assert Strip("b") == "b" && Strip("b!") == "b!" && Strip("b/c/d") == "b/c/d";
    assert "b" + "/" == "b/" && "b/" == "b/c/"[..2];
    assert "b" == "b!"[..1];
    assert Below(section[2], section[0]) && Crosses(section[1], section[0]);
    TransitiveExactly(section);
  }

  /** Two lines tie exactly when they differ at most by a
      leading '-' (which an empty line does not have). */
  lemma TiesExactly(a: string, b: string)
    ensures Compare(a, b) == 0 <==> Strip(a) == Strip(b) && (a == "" <==> b == "")
  {
    StrCollTies(a, b);
    StrCollTies(Strip(a), Strip(b));
    if a != "" && b != "" {
      ByDirTies(Dir(Strip(a)), Strip(a), Dir(Strip(b)), Strip(b));
    }
  }

  lemma ByDirTies(d: string, s: string, e: string, t: string)
    requires s == t ==> d == e
    ensures CompareByDir(d, s, e, t) == 0 <==> s == t
  {
    StrCollTies(s, t);
  }

  lemma StrCollTies(a: string, b: string)
    ensures StrColl(a, b) == 0 <==> a == b
  {
    LexTotal(Codes(a), Codes(b));
    CodesInjective(a, b);
  }

  lemma CodesInjective(a: string, b: string)
    ensures Codes(a) == Codes(b) ==> a == b
  {
    if Codes(a) == Codes(b) {
      forall i | 0 <= i < |a|
        ensures a[i] == b[i]
      {
        assert Codes(a)[i] == Codes(b)[i];
      }
    }
  }

  // --------------------------------------------------- the comparator, exactly

  /** One leading dash is removed and no other; a line without one stays as it is. */
  lemma StripExactly(s: string)
    ensures Strip("-" + s) == s
    ensures s == "" || s[0] != '-' ==> Strip(s) == s
  {
    assert ("-" + s)[1..] == s;
  }

  /** The comparator does not see a leading dash, in either line; but it sees a second one. */
  lemma DashIsIgnored(s: string, t: string)
    requires s != "" && s[0] != '-' && t != ""
    ensures Compare("-" + s, t) == Compare(s, t) && Compare(t, "-" + s) == Compare(t, s)
    ensures Compare("--" + s, s) != 0
  {
    StripExactly(s);
    StripExactly("-" + s);
    assert "-" + ("-" + s) == "--" + s;
    TiesExactly("--" + s, s);
  }

  lemma BelowIsNotAcross(p: string, c: string)
    ensures !Below(c, c) && !Crosses(c, c)
    ensures Below(p, c) ==> !Crosses(p, c)
  {
    if Below(p, c) {
      assert Strip(p)[|Strip(c)|] == (Strip(c) + "/")[|Strip(c)|];
    }
  }

  /** In two lines nothing is crossed. */
  lemma PairIsOrderly(a: string, b: string)
    ensures Orderly([a, b])
  {
    BelowIsNotAcross(a, b);
    BelowIsNotAcross(b, a);
    hide Below;
    hide Crosses;
  }

  /** What the comparator computes, for any two lines: the lexicographic order of
      their keys, where a slashless line goes by the directory it names exactly
      if the other line is strictly below it. */
  lemma ComparesExactly(a: string, b: string)
    ensures Compare(a, b) == Lex(Key(a, Below(b, a)), Key(b, Below(a, b)))
  {
    var pair := [a, b];
    PairIsOrderly(a, b);
    ComparesKeys(pair, a, b);
    assert a in pair && b in pair;
    assert !Below(a, a) && !Below(b, b);
    assert HasBelow(pair, a) <==> Below(b, a);
    assert HasBelow(pair, b) <==> Below(a, b);
  }

  lemma SlashInDirPart(s: string, k: nat)
    requires k < |s| && s[k] == '/'
    ensures k < |DirPart(s)|
  {
    var d := DirPart(s);
    forall j | |d| <= j < |s|
      ensures s[j] != '/'
    {
      assert s[j] == s[|d|..][j - |d|];
    }
  }

  lemma DirPartOf(d: string, f: string)
    requires d != "" && d[|d| - 1] == '/' && '/' !in f
    ensures DirPart(d + f) == d
  {
    var s := d + f;
    var e := DirPart(s);
    SlashInDirPart(s, |d| - 1);
    assert forall k :: |d| <= k < |s| ==> s[k] == f[k - |d|];
    assert e[|e| - 1] == s[|e| - 1] == '/';
    assert e == s[..|d|];
  }

  lemma DirPartBelow(d: string, p: string)
    requires d != "" && d[|d| - 1] == '/' && '/' in p
    ensures d < DirPart(d + p)
  {
    var s := d + p;
    var k :| 0 <= k < |p| && p[k] == '/';
    SlashInDirPart(s, |d| + k);
    assert d == s[..|d|];
  }

  /** A slash is what it is for: under one directory whatever lies deeper comes
      before the files directly in it, and those go by their names. */
  lemma DeeperBeforeDirect(d: string, p: string, f: string, g: string)
    requires d != "" && d[0] != '-' && d[|d| - 1] == '/'
    requires '/' in p && '/' !in f && '/' !in g
    ensures Compare(d + p, d + f) == -1 && Compare(d + f, d + p) == 1
    ensures Compare(d + f, d + g) == Lex(Codes(f), Codes(g))
  {
    DirPartOf(d, f);
    DirPartOf(d, g);
    DirPartBelow(d, p);
    ComparesUnder(d, p, f);
    ComparesUnder(d, f, p);
    ComparesUnder(d, f, g);
    hide DirPart;
    hide Compare;
    hide StrColl;
    StrCollUnder(d, f, g);
  }

  lemma StrCollUnder(d: string, f: string, g: string)
    ensures StrColl(d + f, d + g) == Lex(Codes(f), Codes(g))
  {
    assert Codes(d + f) == Codes(d) + Codes(f) && Codes(d + g) == Codes(d) + Codes(g);
    LexCommonPrefix(Codes(d), Codes(f), Codes(g));
  }

  lemma ComparesUnder(d: string, f: string, g: string)
    requires d != "" && d[0] != '-' && d[|d| - 1] == '/'
    ensures Compare(d + f, d + g) == CompareByDir(DirPart(d + f), d + f, DirPart(d + g), d + g)
  {
    UnderDirectory(d, f);
    UnderDirectory(d, g);
    hide Strip;
    hide DirPart;
    hide CompareByDir;
  }

  lemma UnderDirectory(d: string, f: string)
    requires d != "" && d[0] != '-' && d[|d| - 1] == '/'
    ensures d + f != "" && Strip(d + f) == d + f && '/' in d + f
  {
    assert (d + f)[|d| - 1] == '/' && (d + f)[0] == d[0];
  }
}
