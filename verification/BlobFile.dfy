/** The script on a whole file, whatever stable sort the library has, and what
    it does to its own output. */
module BlobFile {
  import opened BlobOrder
  import opened BlobSort
  import opened BlobText

  /** What list.sort promises of any comparator: the same lines, and a stable
      sort if the comparator is an order on them. */
  ghost predicate IsSorting(input: seq<string>, output: seq<string>) {
    multiset(output) == multiset(input) && (Orderly(input) ==> IsStableSort(input, output))
  }

  function Output(lists: seq<seq<string>>): string {
    Trim(Join("\n\n", Texts(lists))) + "\n"
  }

  ghost predicate AreSortings(sections: seq<string>, lists: seq<seq<string>>) {
    |lists| == |sections| && forall i :: 0 <= i < |sections| ==> IsSorting(SectionList(sections[i]), lists[i])
  }

  /** What the script can write for a file with this text, whatever the library's sort is. */
  ghost predicate IsReordering(text: string, output: string) {
    exists lists :: AreSortings(Sections(text), lists) && output == Output(lists)
  }

  lemma SortSectionSorts(lines: seq<string>)
    ensures IsSorting(lines, SortSection(lines))
  {
    SortKeepsLines(lines);
    if Orderly(lines) {
      SortsStably(lines, lines);
    }
  }

  lemma TextsAppend(lists: seq<seq<string>>, list: seq<string>)
    ensures Texts(lists + [list]) == Texts(lists) + [Join("\n", list)]
  {}

  method ReorderSections(text: string) returns (output: string)
    ensures IsReordering(text, output)
  {
    hide IsSorting;
    hide Texts;
    hide Join;
    hide Trim;
    hide Sections;
    hide SectionList;
    var sections := Sections(text);
    var orderedSections, i := [], 0;
    ghost var lists := [];
    while i < |sections|
      invariant 0 <= i <= |sections| && |lists| == i
      invariant forall j :: 0 <= j < i ==> IsSorting(SectionList(sections[j]), lists[j])
      invariant orderedSections == Texts(lists)
    {
      var sectionList := SortSection(SectionList(sections[i]));
      SortSectionSorts(SectionList(sections[i]));
      TextsAppend(lists, sectionList);
      orderedSections := orderedSections + [Join("\n", sectionList)];
      lists := lists + [sectionList];
      i := i + 1;
    }
    output := Trim(Join("\n\n", orderedSections)) + "\n";
    assert AreSortings(sections, lists);
  }

  // ----------------------------------------------------------- the written lines

  /** A list of lines with the same text that is not empty. */
  function NonEmpty(lines: seq<string>): seq<string> {
    if lines == [] then [""] else lines
  }

  /** The lines of sections that are put one below the other with a blank line between them. */
  function Weave(lists: seq<seq<string>>): (lines: seq<string>)
    requires lists != []
    ensures lines != []
  {
    if |lists| == 1 then NonEmpty(lists[0])
    else NonEmpty(lists[0]) + ([""] + Weave(lists[1..]))
  }

  lemma WeavePush(list: seq<string>, lists: seq<seq<string>>)
    requires lists != []
    ensures Weave([list] + lists) == NonEmpty(list) + ([""] + Weave(lists))
  {
    assert ([list] + lists)[1..] == lists;
  }

  lemma WeaveJoinsOneMore(list: seq<string>, lists: seq<seq<string>>)
    requires lists != [] && Join("\n\n", Texts(lists)) == Join("\n", Weave(lists))
    ensures Join("\n\n", Texts([list] + lists)) == Join("\n", Weave([list] + lists))
  {
    hide Join;
    hide Texts;
    hide Weave;
    var first, rest := NonEmpty(list), Weave(lists);
    TextsPush(list, lists);
    WeavePush(list, lists);
    NonEmptyJoins(list);
    JoinPush("\n\n", Join("\n", list), Texts(lists));
    JoinAppend("\n", first, [""] + rest);
    JoinPush("\n", "", rest);
    var front, back := Join("\n", first), Join("\n", rest);
    assert front + "\n" + ("" + "\n" + back) == front + "\n\n" + back;
  }

  lemma NonEmptyJoins(list: seq<string>)
    ensures Join("\n", NonEmpty(list)) == Join("\n", list)
  {}

  lemma {:induction false} WeaveJoins(lists: seq<seq<string>>)
    requires lists != []
    ensures Join("\n\n", Texts(lists)) == Join("\n", Weave(lists))
  {
    if |lists| == 1 {
      NonEmptyJoins(lists[0]);
    } else {
      WeaveJoins(lists[1..]);
      WeaveJoinsOneMore(lists[0], lists[1..]);
      assert lists == [lists[0]] + lists[1..];
    }
  }

  lemma SortingIsClean(section: string, list: seq<string>)
    requires IsSorting(SectionList(section), list)
    ensures forall l :: l in list ==> Clean(l)
  {
    SectionListIsClean(section);
    SameMultisetSameLines(list, SectionList(section));
  }

  lemma {:induction false} WeaveIsClean(lists: seq<seq<string>>)
    requires lists != [] && forall i, l :: 0 <= i < |lists| && l in lists[i] ==> Clean(l)
    ensures forall l :: l in Weave(lists) ==> Clean(l)
  {
    assert Clean("");
    if |lists| > 1 {
      WeaveIsClean(lists[1..]);
    }
  }

  /** The lines of what the script writes, but for the last line break. */
  function OutputLines(lists: seq<seq<string>>): seq<string>
    requires lists != []
  {
    Core(Weave(lists))
  }

  lemma OutputIsJoin(sections: seq<string>, lists: seq<seq<string>>)
    requires sections != [] && AreSortings(sections, lists)
    ensures lists != [] && Output(lists) == Join("\n", OutputLines(lists)) + "\n"
    ensures IsCore(OutputLines(lists))
    ensures forall l :: l in OutputLines(lists) ==> Clean(l)
  {
    forall i, l | 0 <= i < |lists| && l in lists[i]
      ensures Clean(l)
    {
      SortingIsClean(sections[i], lists[i]);
    }
    WeaveIsClean(lists);
    WeaveJoins(lists);
    TrimJoin(Weave(lists));
    var i, j := CoreIsCore(Weave(lists));
  }

  // -------------------------------------------------- sorted between blank lines

  ghost predicate NoBlankAfter(lines: seq<string>, i: nat, j: nat)
    requires j < |lines|
  {
    forall k :: i < k <= j ==> lines[k] != ""
  }

  /** Sorted but for blank lines, which start anew. */
  ghost predicate SortedBetweenBlanks(lines: seq<string>) {
    forall i, j :: 0 <= i < j < |lines| && NoBlankAfter(lines, i, j) ==> Compare(lines[i], lines[j]) <= 0
  }

  lemma BlankComesFirst(line: string)
    ensures Compare("", line) <= 0
  {}

  lemma NoBlankInTail(front: seq<string>, tail: seq<string>, i: nat, j: nat)
    requires j < |tail| && NoBlankAfter(front + tail, |front| + i, |front| + j)
    ensures NoBlankAfter(tail, i, j)
  {
    forall k | i < k <= j
      ensures tail[k] != ""
    {
      assert (front + tail)[|front| + k] == tail[k];
    }
  }

  lemma BlankStartsAnew(a: seq<string>, b: seq<string>)
    requires Sorted(a) && SortedBetweenBlanks(b)
    ensures SortedBetweenBlanks(a + ([""] + b))
  {
    hide Compare;
    var n, lines := |a|, (a + [""]) + b;
    assert lines == a + ([""] + b) && lines[n] == "";
    forall i, j | 0 <= i < j < |lines| && NoBlankAfter(lines, i, j)
      ensures Compare(lines[i], lines[j]) <= 0
    {
      if i == n {
        BlankComesFirst(lines[j]);
      } else if i > n {
        NoBlankInTail(a + [""], b, i - n - 1, j - n - 1);
        assert Compare(b[i - n - 1], b[j - n - 1]) <= 0;
      } else {
        assert j < n;
        assert Compare(a[i], a[j]) <= 0;
      }
    }
  }

  lemma {:induction false} WeaveIsSortedBetweenBlanks(lists: seq<seq<string>>)
    requires lists != [] && forall i :: 0 <= i < |lists| ==> Sorted(lists[i])
    ensures SortedBetweenBlanks(Weave(lists))
  {
    hide Compare;
    if |lists| > 1 {
      WeaveIsSortedBetweenBlanks(lists[1..]);
      BlankStartsAnew(NonEmpty(lists[0]), Weave(lists[1..]));
    }
  }

  lemma SliceIsSortedBetweenBlanks(lines: seq<string>, a: nat, b: nat)
    requires SortedBetweenBlanks(lines) && a <= b <= |lines|
    ensures SortedBetweenBlanks(lines[a..b])
  {
    hide Compare;
    var slice := lines[a..b];
    forall i, j | 0 <= i < j < |slice| && NoBlankAfter(slice, i, j)
      ensures Compare(slice[i], slice[j]) <= 0
    {
      forall k | a + i < k <= a + j
        ensures lines[k] != ""
      {
        assert lines[k] == slice[k - a];
      }
      assert NoBlankAfter(lines, a + i, a + j);
    }
  }

  lemma BlankAtEnd(lines: seq<string>)
    requires SortedBetweenBlanks(lines)
    ensures SortedBetweenBlanks(lines + [""])
  {
    hide Compare;
    var all := lines + [""];
    forall i, j | 0 <= i < j < |all| && NoBlankAfter(all, i, j)
      ensures Compare(all[i], all[j]) <= 0
    {
      assert all[j] != "";
      assert forall k :: i < k <= j ==> lines[k] == all[k];
      assert NoBlankAfter(lines, i, j);
    }
  }

  lemma FirstGroupIsSorted(lines: seq<string>)
    requires lines != [] && SortedBetweenBlanks(lines)
    ensures Sorted(Chop(Group(lines)[0]))
  {
    hide Compare;
    hide Group;
    FirstGroup(lines);
    var first := Chop(Group(lines)[0]);
    forall i, j | 0 <= i < j < |first|
      ensures Compare(first[i], first[j]) <= 0
    {
      assert first[i] == lines[i] && first[j] == lines[j];
      assert forall k :: i < k <= j ==> lines[k] == Group(lines)[0][k];
      assert NoBlankAfter(lines, i, j);
    }
  }

  /** All groups but the first are those of the lines behind it. */
  lemma LaterGroups(lines: seq<string>) returns (n: nat, first: nat)
    requires |lines| > 2
    ensures 0 < n < |lines| && first <= |Group(lines[n..])|
    ensures Group(lines)[1..] == Group(lines[n..])[first..]
  {
    n, first := if lines[1] == "" then 2 else 1, if lines[1] == "" then 0 else 1;
  }

  lemma {:induction false} GroupsAreSorted(lines: seq<string>)
    requires lines != [] && SortedBetweenBlanks(lines)
    ensures forall i :: 0 <= i < |Group(lines)| ==> Sorted(Chop(Group(lines)[i]))
  {
    hide Chop;
    hide SortedBetweenBlanks;
    hide Sorted;
    FirstGroupIsSorted(lines);
    if |lines| > 2 {
      var n, first := LaterGroups(lines);
      SliceIsSortedBetweenBlanks(lines, n, |lines|);
      assert lines[n..|lines|] == lines[n..];
      GroupsAreSorted(lines[n..]);
      hide Group;
      forall i | 0 < i < |Group(lines)|
        ensures Sorted(Chop(Group(lines)[i]))
      {
        assert Group(lines)[i] == Group(lines)[1..][i - 1] == Group(lines[n..])[first..][i - 1];
      }
    }
  }

  lemma OutputIsSorted(sections: seq<string>, lists: seq<seq<string>>)
    requires sections != [] && AreSortings(sections, lists)
    requires forall i :: 0 <= i < |sections| ==> Orderly(SectionList(sections[i]))
    ensures SortedBetweenBlanks(OutputLines(lists))
  {
    WeaveIsSortedBetweenBlanks(lists);
    var i, j := CoreIsCore(Weave(lists));
    SliceIsSortedBetweenBlanks(Weave(lists), i, j);
  }

  // ---------------------------------------------------- running the script again

  lemma SortedStays(list: seq<string>, output: seq<string>)
    requires Sorted(list) && IsSorting(list, output)
    ensures output == list
  {
    SortedIsOrderly(list);
    StableSortIsUnique(list, output);
    StableSortIsUnique(list, list);
  }

  /** Sorting what the script has written gives its lines back. */
  lemma SortingsAgain(lines: seq<string>, lists: seq<seq<string>>)
    requires lines != [] && IsCore(lines) && SortedBetweenBlanks(lines)
    requires forall l :: l in lines ==> Clean(l)
    requires AreSortings(Sections(Join("\n", lines) + "\n"), lists)
    ensures Output(lists) == Join("\n", lines) + "\n"
  {
    hide Group;
    hide Join;
    hide SectionList;
    hide Sections;
    hide IsSorting;
    var all := lines + [""];
    var groups := Group(all);
    SectionsAgain(lines);
    BlankAtEnd(lines);
    GroupsAreSorted(all);
    forall i | 0 <= i < |groups|
      ensures lists[i] == Chop(groups[i])
    {
      SortedStays(Chop(groups[i]), lists[i]);
    }
    assert lists == ChopAll(groups);
    GroupsJoin(all);
    assert Chop(all) == lines;
    TrimJoin(lines);
    var i, j := CoreIsCore(lines);
  }

  lemma SectionsOfNothing()
    ensures Sections("\n") == ["\n"] && SectionList("\n") == [""]
  {
    SectionsOfBreak("");
    SectionsOfBreakless("");
    assert "\n" + "" == "\n" && Sections("\n") == ["\n"];
    LinesOfLine("", "");
    assert "" + "\n" + "" == "\n" && Lines("\n") == [""];
    CleanTrimmed([""]);
  }

  lemma NothingStaysNothing(lists: seq<seq<string>>)
    requires AreSortings(Sections("\n"), lists)
    ensures Output(lists) == "\n"
  {
    SectionsOfNothing();
    SameMultisetSameLines(lists[0], [""]);
    assert lists[0] == [""];
    assert Texts(lists) == [""];
  }

  lemma JoinNothing()
    ensures Join("\n", []) + "\n" == "\n"
  {}

  lemma OutputAgain(text: string, first: seq<seq<string>>, second: seq<seq<string>>)
    requires forall i :: 0 <= i < |Sections(text)| ==> Orderly(SectionList(Sections(text)[i]))
    requires AreSortings(Sections(text), first) && AreSortings(Sections(Output(first)), second)
    ensures Output(second) == Output(first)
  {
    hide *;
    OutputIsJoin(Sections(text), first);
    OutputIsSorted(Sections(text), first);
    if OutputLines(first) != [] {
      SortingsAgain(OutputLines(first), second);
    } else {
      JoinNothing();
      NothingStaysNothing(second);
    }
  }

  /** Running the script on its own output changes nothing, whatever the
      library's sort is, if the sections of the first input are orderly. */
  lemma RunningAgainChangesNothing(text: string, once: string, twice: string)
    requires forall i :: 0 <= i < |Sections(text)| ==> Orderly(SectionList(Sections(text)[i]))
    requires IsReordering(text, once) && IsReordering(once, twice)
    ensures twice == once
  {
    hide AreSortings;
    var first :| AreSortings(Sections(text), first) && once == Output(first);
    var second :| AreSortings(Sections(once), second) && twice == Output(second);
    OutputAgain(text, first, second);
  }

  /** Every section of the written file, as a reader finds it there, is sorted. */
  lemma WrittenSectionsAreSorted(text: string, output: string, i: nat)
    requires forall j :: 0 <= j < |Sections(text)| ==> Orderly(SectionList(Sections(text)[j]))
    requires IsReordering(text, output) && i < |Sections(output)|
    ensures Sorted(SectionList(Sections(output)[i]))
  {
    hide AreSortings;
    hide Output;
    hide SortedBetweenBlanks;
    var lists :| AreSortings(Sections(text), lists) && output == Output(lists);
    OutputIsJoin(Sections(text), lists);
    OutputIsSorted(Sections(text), lists);
    var lines := OutputLines(lists);
    if lines != [] {
      SectionsAgain(lines);
      BlankAtEnd(lines);
      GroupsAreSorted(lines + [""]);
    } else {
      JoinNothing();
      SectionsOfNothing();
    }
  }

  /** The written text ends in one line break; in front of it, it begins and ends
      with a character that is not white space, if there is anything at all. */
  lemma WrittenTextIsTidy(text: string, output: string)
    requires IsReordering(text, output)
    ensures |output| > 0 && output[|output| - 1] == '\n'
    ensures |output| > 1 ==> !IsSpace(output[0]) && !IsSpace(output[|output| - 2])
  {
    hide AreSortings;
    hide IsSpace;
    var lists :| AreSortings(Sections(text), lists) && output == Output(lists);
    TrimTrims(Join("\n\n", Texts(lists)));
    hide Trim;
  }
}
