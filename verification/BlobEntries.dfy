/** The entries of a blob list, which the script neither loses nor invents. */
module BlobEntries {
  import opened BlobFile
  import opened BlobText

  function NonBlank(lines: seq<string>): seq<string> {
    if lines == [] then []
    else if lines[0] == "" then NonBlank(lines[1..])
    else [lines[0]] + NonBlank(lines[1..])
  }

  /** What remains of lines that are trimmed, without the blank ones. */
  function Kept(lines: seq<string>): seq<string> {
    NonBlank(TrimAll(lines))
  }

  /** What a file lists. */
  function Entries(text: string): seq<string> {
    Kept(Lines(text))
  }

  function AllNonBlank(lists: seq<seq<string>>): seq<string> {
    if lists == [] then [] else NonBlank(lists[0]) + AllNonBlank(lists[1..])
  }

  lemma Associate(first: string, front: seq<string>, rest: seq<string>)
    ensures [first] + (front + rest) == ([first] + front) + rest
  {}

  lemma {:induction false} NonBlankAppend(a: seq<string>, b: seq<string>)
    ensures NonBlank(a + b) == NonBlank(a) + NonBlank(b)
  {
    if a == [] {
      assert a + b == b;
    } else {
      NonBlankAppend(a[1..], b);
      assert (a + b)[1..] == a[1..] + b;
      Associate(a[0], NonBlank(a[1..]), NonBlank(b));
    }
  }

  lemma {:induction false} KeptAppend(a: seq<string>, b: seq<string>)
    ensures Kept(a + b) == Kept(a) + Kept(b)
  {
    TrimAllAppend(a, b);
    NonBlankAppend(TrimAll(a), TrimAll(b));
  }

  lemma KeptBlank(lines: seq<string>)
    ensures Kept(lines + [""]) == Kept(lines) && Kept([""] + lines) == Kept(lines)
  {
    KeptAppend(lines, [""]);
    KeptAppend([""], lines);
    assert TrimAll([""]) == [""];
    assert NonBlank([""]) == [];
  }

  lemma TrimAllPush(line: string, lines: seq<string>)
    ensures TrimAll([line] + lines) == [Trim(line)] + TrimAll(lines)
  {
    hide Trim;
    assert ([line] + lines)[1..] == lines;
  }

  lemma {:induction false} TrimAllAppend(a: seq<string>, b: seq<string>)
    ensures TrimAll(a + b) == TrimAll(a) + TrimAll(b)
  {
    if a == [] {
      assert a + b == b && TrimAll(a) == [];
    } else {
      hide Trim;
      hide TrimAll;
      var rest := a[1..];
      TrimAllAppend(rest, b);
      TrimAllPush(a[0], rest);
      TrimAllPush(a[0], rest + b);
      assert a == [a[0]] + rest && a + b == [a[0]] + (rest + b);
      Associate(Trim(a[0]), TrimAll(rest), TrimAll(b));
    }
  }

  lemma {:induction false} NonBlankLines(lines: seq<string>)
    ensures multiset(NonBlank(lines)) == multiset(lines)["" := 0]
  {
    if lines != [] {
      NonBlankLines(lines[1..]);
      assert lines == [lines[0]] + lines[1..];
    }
  }

  lemma LinesOfPush(c: char, s: string)
    ensures Lines([c] + s) == PushChar(c, Lines(s))
  {
    assert ([c] + s)[1..] == s;
  }

  function PushChar(c: char, lines: seq<string>): seq<string> {
    if IsBreak(c) then [""] + lines
    else if lines == [] then [[c]]
    else [[c] + lines[0]] + lines[1..]
  }

  lemma PushCharAppend(c: char, lines: seq<string>, rest: seq<string>)
    requires lines != []
    ensures PushChar(c, lines + rest) == PushChar(c, lines) + rest
  {
    hide IsBreak;
    assert (lines + rest)[1..] == lines[1..] + rest;
    Associate("", lines, rest);
    Associate([c] + lines[0], lines[1..], rest);
  }

  lemma LinesPush(c: char, s: string, t: string, rest: seq<string>)
    requires Lines(s) != [] && Lines(t) == Lines(s) + rest
    ensures Lines([c] + t) == Lines([c] + s) + rest
  {
    LinesOfPush(c, s);
    LinesOfPush(c, t);
    PushCharAppend(c, Lines(s), rest);
  }

  lemma {:induction false} LinesOfBreak(a: string)
    ensures Lines(a + "\n") != []
    ensures Lines(a + "\n") == Lines(a) || Lines(a + "\n") == Lines(a) + [""]
  {
    var t := a + "\n";
    if a == "" {
      assert t[1..] == "";
    } else {
      LinesOfBreak(a[1..]);
      assert t[1..] == a[1..] + "\n";
      assert a == [a[0]] + a[1..] && t == [a[0]] + t[1..];
      if |a| == 1 {
        assert a[1..] == "" && t[1..] == "\n";
      } else if Lines(t[1..]) != Lines(a[1..]) {
        LinesPush(a[0], a[1..], t[1..], [""]);
      }
    }
  }

  lemma {:induction false} LinesAcross(a: string, b: string)
    ensures Lines(a + "\n" + b) == Lines(a + "\n") + Lines(b)
  {
    var s, t := a + "\n", a + "\n" + b;
    if a == "" {
      assert t[1..] == b && s[1..] == "";
    } else {
      LinesAcross(a[1..], b);
      LinesOfBreak(a[1..]);
      assert t[1..] == a[1..] + "\n" + b && s[1..] == a[1..] + "\n";
      LinesPush(a[0], s[1..], t[1..], Lines(b));
    }
  }

  lemma EntriesAcross(a: string, b: string)
    ensures Entries(a + "\n\n" + b) == Entries(a) + Entries(b)
  {
    hide Kept;
    LinesOfBreak(a);
    LinesAcross(a, "\n" + b);
    LinesOfLine("", b);
    assert a + "\n\n" + b == a + "\n" + ("\n" + b) && "" + "\n" + b == "\n" + b;
    KeptBlank(Lines(a));
    KeptBlank(Lines(b));
    KeptAppend(Lines(a + "\n"), [""] + Lines(b));
  }

  function SectionLists(sections: seq<string>): (lists: seq<seq<string>>)
    ensures |lists| == |sections|
    ensures forall i :: 0 <= i < |lists| ==> lists[i] == SectionList(sections[i])
  {
    seq(|sections|, i requires 0 <= i < |sections| => SectionList(sections[i]))
  }

  lemma {:induction false} EntriesOfSections(text: string)
    ensures Entries(text) == AllNonBlank(SectionLists(Sections(text)))
    decreases |text|
  {
    var sections := Sections(text);
    var rest := FirstSection(text);
    assert SectionLists(sections)[1..] == SectionLists(sections[1..]);
    if |sections| > 1 {
      EntriesOfSections(rest);
      EntriesAcross(sections[0], rest);
    }
  }

  lemma {:induction false} NonBlankOfWeave(lists: seq<seq<string>>)
    requires lists != []
    ensures NonBlank(Weave(lists)) == AllNonBlank(lists)
  {
    if |lists| > 1 {
      NonBlankOfWeave(lists[1..]);
      NonBlankAppend(NonEmpty(lists[0]), [""] + Weave(lists[1..]));
      NonBlankAppend([""], Weave(lists[1..]));
    }
  }

  lemma {:induction false} NonBlankOfDrop(lines: seq<string>)
    ensures NonBlank(DropBlanks(lines)) == NonBlank(lines)
  {
    if lines != [] && lines[0] == "" {
      NonBlankOfDrop(lines[1..]);
    }
  }

  lemma {:induction false} NonBlankOfChop(lines: seq<string>)
    ensures NonBlank(ChopBlanks(lines)) == NonBlank(lines)
  {
    if lines != [] && lines[|lines| - 1] == "" {
      NonBlankOfChop(lines[..|lines| - 1]);
      NonBlankAppend(lines[..|lines| - 1], [""]);
      assert lines == lines[..|lines| - 1] + [""];
    }
  }

  lemma EntriesOfOutput(sections: seq<string>, lists: seq<seq<string>>)
    requires sections != [] && AreSortings(sections, lists)
    ensures Entries(Output(lists)) == AllNonBlank(lists)
  {
    hide AreSortings;
    OutputIsJoin(sections, lists);
    var lines := OutputLines(lists);
    NonBlankOfDrop(Weave(lists));
    NonBlankOfChop(DropBlanks(Weave(lists)));
    NonBlankOfWeave(lists);
    assert forall k :: 0 <= k < |lines| ==> lines[k] in lines;
    EntriesOfLines(lines);
  }

  lemma KeptChop(lines: seq<string>)
    ensures Kept(Chop(lines)) == Kept(lines)
  {
    hide Kept;
    if lines != [] && lines[|lines| - 1] == "" {
      var front := lines[..|lines| - 1];
      assert lines == front + [""];
      KeptBlank(front);
    }
  }

  lemma KeptClean(lines: seq<string>)
    requires forall k :: 0 <= k < |lines| ==> Clean(lines[k])
    ensures Kept(lines) == NonBlank(lines)
  {
    CleanTrimmed(lines);
  }

  lemma EntriesOfLines(lines: seq<string>)
    requires forall k :: 0 <= k < |lines| ==> Clean(lines[k])
    ensures Entries(Join("\n", lines) + "\n") == NonBlank(lines)
  {
    hide Lines;
    hide Kept;
    hide Chop;
    LinesOfBreak(Join("\n", lines));
    LinesOfJoin(lines);
    KeptBlank(Chop(lines));
    KeptChop(lines);
    KeptClean(lines);
  }

  lemma {:induction false} SameEntries(lists: seq<seq<string>>, sorted: seq<seq<string>>)
    requires |lists| == |sorted|
    requires forall i :: 0 <= i < |lists| ==> multiset(sorted[i]) == multiset(lists[i])
    ensures multiset(AllNonBlank(sorted)) == multiset(AllNonBlank(lists))
  {
    if lists != [] {
      NonBlankLines(lists[0]);
      NonBlankLines(sorted[0]);
      SameEntries(lists[1..], sorted[1..]);
    }
  }

  /** Whatever the file and whatever the library's sort, orderly or not: every
      entry is written as often as it was read. */
  lemma NothingIsLost(text: string, output: string)
    requires IsReordering(text, output)
    ensures multiset(Entries(output)) == multiset(Entries(text))
  {
    hide Entries;
    hide Output;
    var lists :| AreSortings(Sections(text), lists) && output == Output(lists);
    EntriesOfOutput(Sections(text), lists);
    EntriesOfSections(text);
    SameEntries(SectionLists(Sections(text)), lists);
  }
}
