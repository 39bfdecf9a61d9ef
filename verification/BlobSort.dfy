/** Sorting the sections of a blob list, and what a sorted section looks like. */
module BlobSort {
  import opened BlobOrder

  // ------------------------------------------------------------- stable sorting

  /** The lines of a section that tie with x, in order. */
  function Ties(lines: seq<string>, x: string): seq<string> {
    if lines == [] then []
    else if Compare(x, lines[0]) == 0 then [lines[0]] + Ties(lines[1..], x)
    else Ties(lines[1..], x)
  }

  ghost predicate Sorted(lines: seq<string>) {
    forall i, j :: 0 <= i < j < |lines| ==> Compare(lines[i], lines[j]) <= 0
  }

  /** What list.sort promises of a comparator that is a total preorder. */
  ghost predicate IsStableSort(input: seq<string>, output: seq<string>) {
    && multiset(output) == multiset(input)
    && Sorted(output)
    && forall x :: Ties(output, x) == Ties(input, x)
  }

  function Insert(line: string, lines: seq<string>): seq<string> {
    if lines == [] || Compare(line, lines[0]) <= 0 then [line] + lines
    else [lines[0]] + Insert(line, lines[1..])
  }

  function SortSection(lines: seq<string>): seq<string> {
    if lines == [] then [] else Insert(lines[0], SortSection(lines[1..]))
  }

  lemma {:induction false} InsertKeepsLines(line: string, lines: seq<string>)
    ensures multiset(Insert(line, lines)) == multiset([line] + lines)
    ensures forall l :: l in Insert(line, lines) <==> l == line || l in lines
  {
    if lines != [] && Compare(line, lines[0]) > 0 {
      InsertKeepsLines(line, lines[1..]);
      assert lines == [lines[0]] + lines[1..];
    }
  }

  lemma {:induction false} SortKeepsLines(lines: seq<string>)
    ensures multiset(SortSection(lines)) == multiset(lines)
    ensures forall l :: l in SortSection(lines) <==> l in lines
  {
    if lines != [] {
      SortKeepsLines(lines[1..]);
      InsertKeepsLines(lines[0], SortSection(lines[1..]));
      assert lines == [lines[0]] + lines[1..];
    }
  }

  lemma SortedCons(x: string, lines: seq<string>)
    requires Sorted(lines) && forall l :: l in lines ==> Compare(x, l) <= 0
    ensures Sorted([x] + lines)
  {}

  lemma SortedTail(lines: seq<string>)
    requires Sorted(lines) && lines != []
    ensures Sorted(lines[1..])
    ensures forall l :: l in lines[1..] ==> l in lines && Compare(lines[0], l) <= 0
  {}

  lemma TransitiveAt(section: seq<string>, a: string, b: string, c: string)
    requires Transitive(section) && a in section && b in section && c in section
    requires Compare(a, b) <= 0 && Compare(b, c) <= 0
    ensures Compare(a, c) <= 0
  {}

  /** A line that is not after the first of a sorted list is not after any of it. */
  lemma InFrontOfAll(section: seq<string>, line: string, lines: seq<string>)
    requires Transitive(section) && line in section && forall l :: l in lines ==> l in section
    requires Sorted(lines) && lines != [] && Compare(line, lines[0]) <= 0
    ensures forall l :: l in lines ==> Compare(line, l) <= 0
  {
    hide Compare;
    forall l | l in lines
      ensures Compare(line, l) <= 0
    {
      var k :| 0 <= k < |lines| && lines[k] == l;
      if k > 0 {
        assert lines[0] in section;
        TransitiveAt(section, line, lines[0], l);
      }
    }
  }

  lemma {:induction false} InsertSorts(section: seq<string>, line: string, lines: seq<string>)
    requires Transitive(section) && line in section && forall l :: l in lines ==> l in section
    requires Sorted(lines)
    ensures Sorted(Insert(line, lines))
  {
    hide Compare;
    if lines != [] {
      SortedTail(lines);
      if Compare(line, lines[0]) <= 0 {
        InFrontOfAll(section, line, lines);
        SortedCons(line, lines);
      } else {
        InsertSorts(section, line, lines[1..]);
        InsertKeepsLines(line, lines[1..]);
        CompareIsAntisymmetric(line, lines[0]);
        SortedCons(lines[0], Insert(line, lines[1..]));
      }
    }
  }

  lemma {:induction false} InsertIsStable(line: string, lines: seq<string>, x: string)
    ensures Ties(Insert(line, lines), x) == Ties([line] + lines, x)
  {
    if lines != [] && Compare(line, lines[0]) > 0 {
      InsertIsStable(line, lines[1..], x);
      assert ([line] + lines)[1..] == lines && ([line] + lines[1..])[1..] == lines[1..];
      assert ([lines[0]] + Insert(line, lines[1..]))[1..] == Insert(line, lines[1..]);
      if Compare(x, line) == 0 && Compare(x, lines[0]) == 0 {
        TiesExactly(x, line);
        TiesExactly(x, lines[0]);
        TiesExactly(line, lines[0]);
        assert false;
      }
    }
  }

  /** Inserting line by line sorts an orderly section, and sorts it stably. */
  lemma {:induction false} SortsStably(section: seq<string>, lines: seq<string>)
    requires Orderly(section) && forall l :: l in lines ==> l in section
    ensures IsStableSort(lines, SortSection(lines))
  {
    TransitiveExactly(section);
    SortKeepsLines(lines);
    if lines != [] {
      SortsStably(section, lines[1..]);
      SortKeepsLines(lines[1..]);
      InsertSorts(section, lines[0], SortSection(lines[1..]));
      forall x
        ensures Ties(SortSection(lines), x) == Ties(lines, x)
      {
        InsertIsStable(lines[0], SortSection(lines[1..]), x);
        assert ([lines[0]] + SortSection(lines[1..]))[1..] == SortSection(lines[1..]);
        assert Ties(SortSection(lines[1..]), x) == Ties(lines[1..], x);
      }
    }
  }

  /** There is only one stable sort of a section: two sorted lists with the same
      ties are the same list. */
  lemma {:induction false} SortedTiesDetermine(a: seq<string>, b: seq<string>)
    requires Sorted(a) && Sorted(b) && |a| == |b|
    requires forall x :: Ties(a, x) == Ties(b, x)
    requires forall l :: l in a <==> l in b
    ensures a == b
  {
    if a != [] {
      assert a[0] in b && b[0] in a;
      FirstIsLeast(a, b[0]);
      FirstIsLeast(b, a[0]);
      CompareIsAntisymmetric(a[0], b[0]);
      TiesExactly(a[0], a[0]);
      assert Ties(a, a[0])[0] == a[0] && Ties(b, a[0])[0] == b[0];
      forall x
        ensures Ties(a[1..], x) == Ties(b[1..], x)
      {
        assert Ties(a, x) == Ties(b, x);
        if Compare(x, a[0]) == 0 {
          assert Ties(a[1..], x) == Ties(a, x)[1..] && Ties(b[1..], x) == Ties(b, x)[1..];
        }
      }
      SameTailLines(a, b);
      SortedTiesDetermine(a[1..], b[1..]);
    }
  }

  lemma FirstIsLeast(lines: seq<string>, l: string)
    requires Sorted(lines) && l in lines
    ensures Compare(lines[0], l) <= 0
  {
    TiesExactly(l, l);
    var i :| 0 <= i < |lines| && lines[i] == l;
  }

  lemma {:induction false} TiesHoldLines(lines: seq<string>, l: string)
    ensures l in lines <==> l in Ties(lines, l)
  {
    TiesExactly(l, l);
    if lines != [] {
      TiesHoldLines(lines[1..], l);
      assert lines == [lines[0]] + lines[1..];
    }
  }

  lemma SameTailLines(a: seq<string>, b: seq<string>)
    requires a != [] && b != []
    requires forall x :: Ties(a[1..], x) == Ties(b[1..], x)
    ensures forall l :: l in a[1..] <==> l in b[1..]
  {
    forall l
      ensures l in a[1..] <==> l in b[1..]
    {
      TiesHoldLines(a[1..], l);
      TiesHoldLines(b[1..], l);
      assert Ties(a[1..], l) == Ties(b[1..], l);
    }
  }

  lemma SameMultisetSameLines(a: seq<string>, b: seq<string>)
    requires multiset(a) == multiset(b)
    ensures |a| == |b| && forall l :: l in a <==> l in b
  {
    assert |a| == |multiset(a)| && |b| == |multiset(b)|;
    assert forall l :: l in a <==> l in multiset(a);
    assert forall l :: l in b <==> l in multiset(b);
  }

  /** Whatever algorithm sorts an orderly section stably, the result is the one
      that insertion gives. */
  lemma StableSortIsUnique(section: seq<string>, output: seq<string>)
    requires Orderly(section) && IsStableSort(section, output)
    ensures output == SortSection(section)
  {
    SortsStably(section, section);
    SameMultisetSameLines(section, output);
    SameMultisetSameLines(section, SortSection(section));
    forall x
      ensures Ties(output, x) == Ties(SortSection(section), x)
    {
      assert Ties(output, x) == Ties(section, x) && Ties(SortSection(section), x) == Ties(section, x);
    }
    SortedTiesDetermine(output, SortSection(section));
  }

  /** Sorting a sorted section again, by any stable sort, changes nothing. */
  lemma SortingAgainChangesNothing(section: seq<string>, once: seq<string>, twice: seq<string>)
    requires Orderly(section) && IsStableSort(section, once) && IsStableSort(once, twice)
    ensures Orderly(once) && twice == once
  {
    SameMultisetSameLines(section, once);
    assert IsStableSort(once, once);
    StableSortIsUnique(once, once);
    StableSortIsUnique(once, twice);
  }

  // ------------------------------------------------------ what sorting achieves

  predicate IsDirectory(d: string) {
    d != "" && d[|d| - 1] == '/'
  }

  /** The line is a path in the directory d or somewhere below it. */
  predicate Under(d: string, line: string) {
    line != "" && d <= Strip(line)
  }

  /** The line is a path directly in the directory d. */
  predicate DirectlyIn(d: string, line: string) {
    line != "" && DirPart(Strip(line)) == d
  }

  /** The line is d without its slash. */
  predicate Names(d: string, line: string) {
    line != "" && '/' !in Strip(line) && Strip(line) + "/" == d
  }

  lemma UnderByKey(section: seq<string>, d: string, line: string)
    requires IsDirectory(d)
    ensures Under(d, line) ==> Codes(d) <= KeyIn(section, line)
    ensures Under(d, line) ==> '/' in Strip(line) && d <= DirPart(Strip(line))
    ensures Codes(d) <= KeyIn(section, line) ==> Under(d, line) || Names(d, line)
  {
    if line != "" {
      var s := Strip(line);
      if Under(d, line) {
        PrefixOfDir(d, s);
      }
      if Codes(d) <= KeyIn(section, line) {
        if '/' in s {
          PrefixOfPathKey(d, DirPart(s), s);
        } else {
          PrefixOfPlainKey(d, s, HasBelow(section, line));
        }
      }
    }
  }

  lemma PrefixOfDir(d: string, s: string)
    requires IsDirectory(d) && d <= s
    ensures '/' in s && d <= DirPart(s) && Codes(d) <= PathKey(DirPart(s), s)
  {
    var e := DirPart(s);
    assert s[|d| - 1] == '/';
    NoSlashAfterDir(s, |d| - 1);
    forall i | 0 <= i < |d|
      ensures e[i] == d[i]
    {
      assert s[i] == d[i];
    }
  }

  lemma NoSlashAfterDir(s: string, i: nat)
    requires i < |s| && s[i] == '/'
    ensures i < |DirPart(s)|
  {
    assert forall j :: |DirPart(s)| <= j < |s| ==> s[j] == s[|DirPart(s)|..][j - |DirPart(s)|];
  }

  lemma PrefixOfPathKey(d: string, e: string, s: string)
    requires Codes(d) <= PathKey(e, s) && e <= s
    ensures d <= s
  {
    var k := PathKey(e, s);
    assert k[|e|] == HIGHEST;
    forall i | 0 <= i < |d|
      ensures d[i] == s[i]
    {
      assert Codes(d)[i] == k[i] == Codes(e)[i];
    }
  }

  lemma PrefixOfPlainKey(d: string, c: string, hasBelow: bool)
    requires IsDirectory(d) && '/' !in c && Codes(d) <= PlainKey(c, hasBelow)
    ensures d == c + "/"
  {
    var k := PlainKey(c, hasBelow);
    PlainStart(c, hasBelow);
    assert forall i :: 0 <= i < |d| ==> Codes(d)[i] == k[i];
    assert forall i :: 0 <= i < |c| ==> c[i] != '/';
    assert k[|d| - 1] == '/' as int;
  }

  /** Only an orderly section has a sorted arrangement at all. */
  lemma SortedIsOrderly(lines: seq<string>)
    requires Sorted(lines)
    ensures Orderly(lines)
  {
    forall p, c, x | p in lines && c in lines && x in lines
      ensures !(Below(p, c) && Crosses(x, c))
    {
      var i :| 0 <= i < |lines| && lines[i] == p;
      var j :| 0 <= j < |lines| && lines[j] == c;
      var k :| 0 <= k < |lines| && lines[k] == x;
      NoCycleInSorted(lines, i, j, k);
      if Below(p, c) && Crosses(x, c) {
        CrossingIsCycle(p, c, x);
      }
    }
  }

  lemma NoCycleInSorted(lines: seq<string>, i: nat, j: nat, k: nat)
    requires Sorted(lines) && i < |lines| && j < |lines| && k < |lines|
    ensures !(Compare(lines[i], lines[j]) < 0 && Compare(lines[j], lines[k]) < 0 && Compare(lines[k], lines[i]) < 0)
  {
    SmallerComesFirst(lines, i, j);
    SmallerComesFirst(lines, j, k);
    SmallerComesFirst(lines, k, i);
  }

  lemma SmallerComesFirst(lines: seq<string>, i: nat, j: nat)
    requires Sorted(lines) && i < |lines| && j < |lines|
    ensures Compare(lines[i], lines[j]) < 0 ==> i < j
  {
    CompareIsAntisymmetric(lines[i], lines[j]);
  }

  /** The lines of a section can be arranged in sorted order exactly when the
      section is orderly. */
  lemma SortableExactly(section: seq<string>)
    ensures (exists lines :: multiset(lines) == multiset(section) && Sorted(lines)) <==> Orderly(section)
  {
    if Orderly(section) {
      SortsStably(section, section);
      assert multiset(SortSection(section)) == multiset(section);
    }
    forall lines | multiset(lines) == multiset(section) && Sorted(lines)
      ensures Orderly(section)
    {
      SortedIsOrderly(lines);
      SameMultisetSameLines(lines, section);
    }
  }

  /** In a sorted section everything under a directory is one block; the only
      other line that can stand inside it is the directory's own name. */
  lemma DirectoriesAreBlocks(lines: seq<string>, d: string, i: nat, j: nat, k: nat)
    requires Sorted(lines) && IsDirectory(d)
    requires i < j < k < |lines| && Under(d, lines[i]) && Under(d, lines[k])
    ensures Under(d, lines[j]) || Names(d, lines[j])
  {
    SortedIsOrderly(lines);
    ComparesKeys(lines, lines[i], lines[j]);
    ComparesKeys(lines, lines[j], lines[k]);
    UnderByKey(lines, d, lines[i]);
    UnderByKey(lines, d, lines[j]);
    UnderByKey(lines, d, lines[k]);
    LexPrefixBlock(Codes(d), KeyIn(lines, lines[i]), KeyIn(lines, lines[j]), KeyIn(lines, lines[k]));
  }

  /** Within the block, what is deeper comes first: after a line that names the
      directory or is directly in it, only lines directly in it follow. */
  lemma DirectFilesComeLast(lines: seq<string>, d: string, i: nat, j: nat)
    requires Sorted(lines) && IsDirectory(d) && i < j < |lines|
    requires DirectlyIn(d, lines[i]) || Names(d, lines[i])
    requires Under(d, lines[j])
    ensures DirectlyIn(d, lines[j])
  {
    UnderByKey(lines, d, lines[j]);
    assert Compare(lines[i], lines[j]) <= 0;
  }
}
