/** The string operations of the script, and what they do to lists of lines:
    reading text into sections of trimmed lines, and writing it again. */
module BlobText {
  /** The characters that splitlines ends a line at. */
  predicate IsBreak(c: char) {
    '\U{0A}' <= c <= '\U{0D}' || '\U{1C}' <= c <= '\U{1E}' || c == '\U{85}' || c == '\U{2028}' || c == '\U{2029}'
  }

  /** The characters that strip removes. */
  predicate IsSpace(c: char) {
    || IsBreak(c)
    || c == '\t' || c == '\U{1F}' || c == ' ' || c == '\U{A0}' || c == '\U{1680}'
    || '\U{2000}' <= c <= '\U{200A}' || c == '\U{202F}' || c == '\U{205F}' || c == '\U{3000}'
  }

  predicate Trimmed(s: string) {
    s == "" || (!IsSpace(s[0]) && !IsSpace(s[|s| - 1]))
  }

  function TrimLeft(s: string): string {
    if s != "" && IsSpace(s[0]) then TrimLeft(s[1..]) else s
  }

  function TrimRight(s: string): string {
    if s != "" && IsSpace(s[|s| - 1]) then TrimRight(s[..|s| - 1]) else s
  }

  /** strip() */
  function Trim(s: string): string {
    TrimRight(TrimLeft(s))
  }

  /** split("\n\n") */
  function Sections(text: string): (sections: seq<string>)
    ensures sections != []
  {
    if text == "" then [""]
    else if |text| > 1 && text[0] == text[1] == '\n' then [""] + Sections(text[2..])
    else
      var rest := Sections(text[1..]);
      [[text[0]] + rest[0]] + rest[1..]
  }

  /** splitlines() */
  function Lines(text: string): seq<string> {
    if text == "" then []
    else
      var rest := Lines(text[1..]);
      if IsBreak(text[0]) then [""] + rest
      else if rest == [] then [[text[0]]]
      else [[text[0]] + rest[0]] + rest[1..]
  }

  /** sep.join(parts) */
  function Join(sep: string, parts: seq<string>): string {
    if parts == [] then ""
    else if |parts| == 1 then parts[0]
    else parts[0] + sep + Join(sep, parts[1..])
  }

  function TrimAll(lines: seq<string>): (trimmed: seq<string>)
    ensures |trimmed| == |lines|
  {
    if lines == [] then [] else [Trim(lines[0])] + TrimAll(lines[1..])
  }

  /** The lines of a section, as they are sorted. */
  function SectionList(section: string): seq<string> {
    TrimAll(Lines(section))
  }

  function Texts(lists: seq<seq<string>>): (texts: seq<string>)
    ensures |texts| == |lists|
    ensures forall i :: 0 <= i < |lists| ==> texts[i] == Join("\n", lists[i])
  {
    seq(|lists|, i requires 0 <= i < |lists| => Join("\n", lists[i]))
  }

  /** The two kinds of characters, one by one. */
  lemma CharacterClasses(c: char)
    ensures IsBreak(c) <==> c in "\n\U{0B}\U{0C}\r\U{1C}\U{1D}\U{1E}\U{85}\U{2028}\U{2029}"
    ensures IsSpace(c) <==>
            c in "\t\n\U{0B}\U{0C}\r\U{1C}\U{1D}\U{1E}\U{1F} \U{85}\U{A0}" ||
            c in "\U{1680}\U{2028}\U{2029}\U{202F}\U{205F}\U{3000}" ||
            c in "\U{2000}\U{2001}\U{2002}\U{2003}\U{2004}\U{2005}\U{2006}\U{2007}\U{2008}\U{2009}\U{200A}"
  {}

  // -------------------------------------------------------------------- sections

  lemma SectionsPush(c: char, text: string)
    requires c != '\n'
    ensures var s := Sections(text);
            Sections([c] + text) == [[c] + s[0]] + s[1..]
  {
    assert ([c] + text)[1..] == text;
  }

  lemma {:induction false} FirstSection(text: string) returns (rest: string)
    ensures var sections := Sections(text);
            (|sections| == 1 && sections[0] == text) ||
            (|rest| < |text| && text == sections[0] + "\n\n" + rest && sections[1..] == Sections(rest))
  {
    rest := "";
    if |text| > 1 && text[0] == text[1] == '\n' {
      rest := text[2..];
      assert text == "" + "\n\n" + rest;
    } else if text != "" {
      rest := FirstSection(text[1..]);
      assert text == [text[0]] + text[1..];
    }
  }

  lemma JoinPush(sep: string, part: string, parts: seq<string>)
    requires parts != []
    ensures Join(sep, [part] + parts) == part + sep + Join(sep, parts)
  {}

  /** Splitting loses nothing: joining the sections gives the text back. */
  lemma {:induction false} SplitJoinsBack(text: string)
    ensures Join("\n\n", Sections(text)) == text
    decreases |text|
  {
    hide Sections;
    var sections := Sections(text);
    var rest := FirstSection(text);
    if |sections| > 1 {
      SplitJoinsBack(rest);
      JoinPush("\n\n", sections[0], sections[1..]);
      assert sections == [sections[0]] + sections[1..];
    }
  }

  /** No blank line inside the text. */
  ghost predicate NoBlankLine(text: string) {
    forall i :: 0 <= i < |text| - 1 ==> !(text[i] == '\n' && text[i + 1] == '\n')
  }

  lemma NoBlankLineInFront(c: char, text: string)
    requires NoBlankLine(text) && (c == '\n' && text != "" ==> text[0] != '\n')
    ensures NoBlankLine([c] + text)
  {}

  /** None has a blank line in it, and none but the last ends in a line break. */
  ghost predicate WellCut(sections: seq<string>) {
    && (forall i :: 0 <= i < |sections| ==> NoBlankLine(sections[i]))
    && (forall i :: 0 <= i < |sections| - 1 && sections[i] != "" ==> sections[i][|sections[i]| - 1] != '\n')
  }

  lemma WellCutAfterBlank(later: seq<string>)
    requires WellCut(later)
    ensures WellCut([""] + later)
  {
    hide NoBlankLine;
    var all := [""] + later;
    assert forall i :: 0 < i < |all| ==> all[i] == later[i - 1];
    assert NoBlankLine("") by { NoBlankInNothing(); }
  }

  lemma NoBlankInNothing()
    ensures NoBlankLine("")
  {}

  lemma WellCutBehind(c: char, later: seq<string>)
    requires later != [] && WellCut(later)
    requires c == '\n' ==> (later[0] == "" && |later| == 1) || (later[0] != "" && later[0][0] != '\n')
    ensures WellCut([[c] + later[0]] + later[1..])
  {
    NoBlankLineInFront(c, later[0]);
    hide NoBlankLine;
    var all := [[c] + later[0]] + later[1..];
    assert forall i :: 0 < i < |all| ==> all[i] == later[i];
  }

  /** The sections are cut wherever possible, and as early as possible. */
  lemma {:induction false} SectionsAreCut(text: string)
    ensures WellCut(Sections(text))
    ensures text != "" && text[0] != '\n' ==> Sections(text)[0] != "" && Sections(text)[0][0] == text[0]
    decreases |text|
  {
    if text == "" {
      NoBlankInNothing();
    } else {
      hide WellCut;
      if |text| > 1 && text[0] == text[1] == '\n' {
        SectionsAreCut(text[2..]);
        WellCutAfterBlank(Sections(text[2..]));
      } else {
        SectionsAreCut(text[1..]);
        WellCutBehind(text[0], Sections(text[1..]));
      }
    }
  }

  lemma {:induction false} UncutText(text: string)
    requires NoBlankLine(text)
    ensures Sections(text) == [text]
  {
    if text != "" {
      UncutText(text[1..]);
      assert text == [text[0]] + text[1..];
    }
  }

  lemma {:induction false} CutAfter(first: string, rest: string)
    requires NoBlankLine(first) && (first != "" ==> first[|first| - 1] != '\n')
    ensures Sections(first + "\n\n" + rest) == [first] + Sections(rest)
  {
    var text := first + "\n\n" + rest;
    if first == "" {
      assert text[2..] == rest;
    } else {
      CutAfter(first[1..], rest);
      assert text[1..] == first[1..] + "\n\n" + rest;
      assert |first| > 1 ==> text[1] == first[1];
      assert first == [first[0]] + first[1..];
    }
  }

  /** The split is the only one of its kind. */
  lemma {:induction false} SplitsExactly(text: string, sections: seq<string>)
    requires sections != [] && WellCut(sections) && Join("\n\n", sections) == text
    ensures sections == Sections(text)
    decreases |sections|
  {
    if |sections| == 1 {
      UncutText(text);
    } else {
      var first, later := sections[0], sections[1..];
      WellCutTail(sections);
      SplitsExactly(Join("\n\n", later), later);
      CutAfter(first, Join("\n\n", later));
      assert sections == [first] + later;
    }
  }

  lemma WellCutTail(sections: seq<string>)
    requires |sections| > 1 && WellCut(sections)
    ensures WellCut(sections[1..])
  {
    hide NoBlankLine;
    var later := sections[1..];
    assert forall i :: 0 <= i < |later| ==> later[i] == sections[i + 1];
  }

  // ----------------------------------------------------------------- clean lines

  ghost predicate Breakless(line: string) {
    forall i :: 0 <= i < |line| ==> !IsBreak(line[i])
  }

  /** A line as the script sorts it. */
  ghost predicate Clean(line: string) {
    Trimmed(line) && Breakless(line)
  }

  lemma {:induction false} TrimLeftTrims(s: string)
    ensures var t := TrimLeft(s);
            && |t| <= |s| && t == s[|s| - |t|..]
            && (t != "" ==> !IsSpace(t[0]))
            && (Trimmed(s) ==> t == s)
  {
    if s != "" && IsSpace(s[0]) {
      TrimLeftTrims(s[1..]);
    }
  }

  lemma {:induction false} TrimRightTrims(s: string)
    ensures var t := TrimRight(s);
            && |t| <= |s| && t == s[..|t|]
            && (t != "" ==> !IsSpace(t[|t| - 1]))
            && (Trimmed(s) ==> t == s)
  {
    if s != "" && IsSpace(s[|s| - 1]) {
      TrimRightTrims(s[..|s| - 1]);
    }
  }

  lemma {:induction false} TrimLeftLeaves(s: string)
    ensures |TrimLeft(s)| <= |s|
    ensures forall k :: 0 <= k < |s| - |TrimLeft(s)| ==> IsSpace(s[k])
  {
    if s != "" && IsSpace(s[0]) {
      TrimLeftLeaves(s[1..]);
    }
  }

  lemma {:induction false} TrimRightLeaves(s: string)
    ensures |TrimRight(s)| <= |s|
    ensures forall k :: |TrimRight(s)| <= k < |s| ==> IsSpace(s[k])
  {
    if s != "" && IsSpace(s[|s| - 1]) {
      TrimRightLeaves(s[..|s| - 1]);
    }
  }

  /** Trimming cuts white space off both ends, all of it, and nothing else. */
  lemma TrimsExactly(s: string) returns (i: nat, j: nat)
    ensures i <= j <= |s| && Trim(s) == s[i..j]
    ensures (forall k :: 0 <= k < i ==> IsSpace(s[k])) && (forall k :: j <= k < |s| ==> IsSpace(s[k]))
    ensures i < j ==> !IsSpace(s[i]) && !IsSpace(s[j - 1])
  {
    hide IsSpace;
    var left := TrimLeft(s);
    TrimLeftTrims(s);
    TrimRightTrims(left);
    TrimLeftLeaves(s);
    TrimRightLeaves(left);
    hide TrimLeft;
    hide TrimRight;
    i := |s| - |left|;
    j := i + |Trim(s)|;
    assert forall k :: j <= k < |s| ==> s[k] == left[k - i];
  }

  lemma {:induction false} TrimsEachLine(lines: seq<string>, i: nat)
    requires i < |lines|
    ensures TrimAll(lines)[i] == Trim(lines[i])
  {
    if i > 0 {
      TrimsEachLine(lines[1..], i - 1);
    }
  }

  lemma TrimTrims(s: string)
    ensures Trimmed(Trim(s))
    ensures Trimmed(s) ==> Trim(s) == s
    ensures Breakless(s) ==> Breakless(Trim(s))
  {
    hide IsSpace;
    hide IsBreak;
    hide TrimLeft;
    hide TrimRight;
    var left := TrimLeft(s);
    TrimLeftTrims(s);
    TrimRightTrims(left);
    var t := Trim(s);
    if t != "" {
      assert t[0] == left[0] && t == s[|s| - |left|..|s| - |left| + |t|];
    }
  }

  lemma {:induction false} LinesAreBreakless(text: string)
    ensures forall l :: l in Lines(text) ==> Breakless(l)
  {
    if text != "" {
      LinesAreBreakless(text[1..]);
      var rest := Lines(text[1..]);
      if rest != [] {
        assert rest[0] in rest;
        assert forall l :: l in rest[1..] ==> l in rest;
      }
    }
  }

  lemma {:induction false} TrimAllCleans(lines: seq<string>)
    requires forall l :: l in lines ==> Breakless(l)
    ensures forall l :: l in TrimAll(lines) ==> Clean(l)
    ensures (forall l :: l in lines ==> Clean(l)) ==> TrimAll(lines) == lines
  {
    if lines != [] {
      TrimTrims(lines[0]);
      assert lines[0] in lines;
      TrimAllCleans(lines[1..]);
    }
  }

  lemma CleanTrimmed(lines: seq<string>)
    requires forall k :: 0 <= k < |lines| ==> Clean(lines[k])
    ensures TrimAll(lines) == lines
  {
    TrimAllCleans(lines);
  }

  lemma SectionListIsClean(section: string)
    ensures forall l :: l in SectionList(section) ==> Clean(l)
  {
    LinesAreBreakless(section);
    TrimAllCleans(Lines(section));
  }

  // ----------------------------------------------------- lists of lines as texts

  lemma JoinOne(line: string)
    ensures Join("\n", [line]) == Join("\n\n", [line]) == Join("\n", Chop([line])) == line
  {}

  lemma {:induction false} JoinAppend(sep: string, a: seq<string>, b: seq<string>)
    requires a != [] && b != []
    ensures Join(sep, a + b) == Join(sep, a) + sep + Join(sep, b)
  {
    assert (a + b)[1..] == a[1..] + b;
    if |a| == 1 {
      assert a[1..] + b == b;
    } else {
      JoinAppend(sep, a[1..], b);
      var front, rest := Join(sep, a[1..]), Join(sep, b);
      assert a[0] + sep + (front + sep + rest) == (a[0] + sep + front) + sep + rest;
    }
  }

  lemma JoinFront(sep: string, front: string, first: string, rest: seq<string>)
    ensures Join(sep, [front + first] + rest) == front + Join(sep, [first] + rest)
  {
    assert ([front + first] + rest)[1..] == rest == ([first] + rest)[1..];
    assert (front + first) + sep + Join(sep, rest) == front + (first + sep + Join(sep, rest));
  }

  /** What splitlines makes of a text that ends in a line break. */
  function Chop(lines: seq<string>): seq<string> {
    if lines != [] && lines[|lines| - 1] == "" then lines[..|lines| - 1] else lines
  }

  lemma ChopFront(line: string, lines: seq<string>)
    requires lines != []
    ensures Chop([line] + lines) == [line] + Chop(lines)
  {}

  lemma ChopNothing()
    ensures Chop([]) == []
  {}

  lemma {:induction false} LinesOfBreakless(line: string)
    requires Breakless(line)
    ensures Lines(line) == if line == "" then [] else [line]
  {
    if line != "" {
      LinesOfBreakless(line[1..]);
      assert line == [line[0]] + line[1..];
      assert line[1..] == "" ==> line == [line[0]];
    }
  }

  /** A line ends at the first break, whichever it is, and the break is dropped. */
  lemma {:induction false} LinesOfBreakAfter(line: string, c: char, text: string)
    requires Breakless(line) && IsBreak(c)
    ensures Lines(line + [c] + text) == [line] + Lines(text)
  {
    hide IsBreak;
    var t := line + [c] + text;
    if line == "" {
      assert t[1..] == text;
    } else {
      LinesOfBreakAfter(line[1..], c, text);
      assert t[1..] == line[1..] + [c] + text;
      assert [line[0]] + line[1..] == line;
    }
  }

  lemma LinesOfLine(line: string, text: string)
    requires Breakless(line)
    ensures Lines(line + "\n" + text) == [line] + Lines(text)
  {
    LinesOfBreakAfter(line, '\n', text);
  }

  lemma {:induction false} LinesOfJoin(lines: seq<string>)
    requires forall i :: 0 <= i < |lines| ==> Breakless(lines[i])
    ensures Lines(Join("\n", lines)) == Chop(lines)
  {
    if |lines| == 1 {
      LinesOfBreakless(lines[0]);
    } else if |lines| > 1 {
      LinesOfJoin(lines[1..]);
      LinesOfLine(lines[0], Join("\n", lines[1..]));
      assert lines == [lines[0]] + lines[1..];
      assert Chop(lines) == [lines[0]] + Chop(lines[1..]);
    }
  }

  lemma SectionListOfJoin(lines: seq<string>)
    requires forall k :: 0 <= k < |lines| ==> Clean(lines[k])
    ensures SectionList(Join("\n", lines)) == Chop(lines)
  {
    LinesOfJoin(lines);
    CleanTrimmed(Chop(lines));
  }

  // ------------------------------------------------------- trimming a whole text

  function DropBlanks(lines: seq<string>): seq<string> {
    if lines != [] && lines[0] == "" then DropBlanks(lines[1..]) else lines
  }

  function ChopBlanks(lines: seq<string>): seq<string> {
    if lines != [] && lines[|lines| - 1] == "" then ChopBlanks(lines[..|lines| - 1]) else lines
  }

  function Core(lines: seq<string>): seq<string> {
    ChopBlanks(DropBlanks(lines))
  }

  lemma {:induction false} TrimLeftJoin(lines: seq<string>)
    requires forall l :: l in lines ==> Trimmed(l)
    ensures TrimLeft(Join("\n", lines)) == Join("\n", DropBlanks(lines))
  {
    if lines != [] {
      assert lines[0] in lines;
      if lines[0] == "" && |lines| > 1 {
        TrimLeftJoin(lines[1..]);
        assert Join("\n", lines)[1..] == Join("\n", lines[1..]);
      }
    }
  }

  lemma TrimRightEnd(front: string, end: string)
    ensures end != "" && !IsSpace(end[|end| - 1]) ==> TrimRight(front + end) == front + end
    ensures TrimRight(front + "\n") == TrimRight(front)
  {
    assert (front + "\n")[..|front|] == front;
  }

  lemma {:induction false} TrimRightJoin(lines: seq<string>)
    requires forall l :: l in lines ==> Trimmed(l)
    ensures TrimRight(Join("\n", lines)) == Join("\n", ChopBlanks(lines))
  {
    if lines != [] {
      var n := |lines| - 1;
      var front, last := lines[..n], lines[n];
      assert last in lines;
      if n == 0 {
        TrimRightEnd("", last);
        assert "" + last == last;
      } else {
        JoinAppend("\n", front, [last]);
        assert lines == front + [last];
        TrimRightEnd(Join("\n", front) + "\n", last);
        if last == "" {
          TrimRightJoin(front);
          TrimRightEnd(Join("\n", front), "");
          assert Join("\n", front) + "\n" + "" == Join("\n", front) + "\n";
        }
      }
    }
  }

  lemma {:induction false} DropBlanksDrops(lines: seq<string>)
    ensures var t := DropBlanks(lines);
            && |t| <= |lines| && t == lines[|lines| - |t|..]
            && (t != [] ==> t[0] != "")
            && (lines == [] || lines[0] != "" ==> t == lines)
  {
    if lines != [] && lines[0] == "" {
      DropBlanksDrops(lines[1..]);
    }
  }

  lemma {:induction false} ChopBlanksChops(lines: seq<string>)
    ensures var t := ChopBlanks(lines);
            && |t| <= |lines| && t == lines[..|t|]
            && (t != [] ==> t[|t| - 1] != "")
            && (lines == [] || lines[|lines| - 1] != "" ==> t == lines)
  {
    if lines != [] && lines[|lines| - 1] == "" {
      ChopBlanksChops(lines[..|lines| - 1]);
    }
  }

  /** No blank line at either end. */
  predicate IsCore(lines: seq<string>) {
    lines == [] || (lines[0] != "" && lines[|lines| - 1] != "")
  }

  lemma CoreIsCore(lines: seq<string>) returns (i: nat, j: nat)
    ensures i <= j <= |lines| && Core(lines) == lines[i..j]
    ensures IsCore(Core(lines)) && (IsCore(lines) ==> Core(lines) == lines)
  {
    var left := DropBlanks(lines);
    DropBlanksDrops(lines);
    ChopBlanksChops(left);
    i := |lines| - |left|;
    j := i + |Core(lines)|;
  }

  lemma TrimJoin(lines: seq<string>)
    requires forall l :: l in lines ==> Trimmed(l)
    ensures Trim(Join("\n", lines)) == Join("\n", Core(lines))
  {
    DropBlanksDrops(lines);
    TrimLeftJoin(lines);
    TrimRightJoin(DropBlanks(lines));
  }

  // ------------------------------------------------------ splitting a text again

  /** The lines of a text, taken apart where split finds a blank line. */
  function Group(lines: seq<string>): (groups: seq<seq<string>>)
    requires lines != []
    ensures groups != [] && forall i :: 0 <= i < |groups| ==> groups[i] != []
  {
    if |lines| <= 2 then [lines]
    else if lines[1] == "" then [[lines[0]]] + Group(lines[2..])
    else
      var rest := Group(lines[1..]);
      [[lines[0]] + rest[0]] + rest[1..]
  }

  /** The first group is the front of the lines, up to a blank line or the end. */
  lemma {:induction false} FirstGroup(lines: seq<string>)
    requires lines != []
    ensures Group(lines)[0] <= lines
    ensures forall k :: 0 < k < |Group(lines)[0]| && lines[k] == "" ==> k == |lines| - 1
  {
    if |lines| > 2 && lines[1] != "" {
      FirstGroup(lines[1..]);
    }
  }

  lemma {:induction false} GroupsAreClean(lines: seq<string>, i: nat)
    requires lines != [] && i < |Group(lines)| && forall k :: 0 <= k < |lines| ==> Clean(lines[k])
    ensures forall k :: 0 <= k < |Group(lines)[i]| ==> Clean(Group(lines)[i][k])
  {
    hide Clean;
    if |lines| > 2 {
      if lines[1] != "" {
        GroupsAreClean(lines[1..], i);
      } else if i > 0 {
        GroupsAreClean(lines[2..], i - 1);
      }
    }
  }

  lemma {:induction false} SectionsOfLine(line: string, text: string)
    requires Breakless(line)
    ensures var s := Sections(text);
            Sections(line + text) == [line + s[0]] + s[1..]
  {
    hide Sections;
    var s := Sections(text);
    if line == "" {
      assert line + text == text && line + s[0] == s[0];
    } else {
      var rest := line[1..];
      SectionsOfLine(rest, text);
      SectionsPush(line[0], rest + text);
      assert line + text == [line[0]] + (rest + text);
      assert [line[0]] + (rest + s[0]) == line + s[0];
    }
  }

  lemma SectionsOfBreakless(line: string)
    requires Breakless(line)
    ensures Sections(line) == [line]
  {
    SectionsOfLine(line, "");
    assert line + "" == line;
  }

  lemma SectionsOfBreak(rest: string)
    ensures rest != "" && rest[0] == '\n' ==> Sections("\n" + rest) == [""] + Sections(rest[1..])
    ensures rest == "" || rest[0] != '\n' ==>
              var s := Sections(rest);
              Sections("\n" + rest) == ["\n" + s[0]] + s[1..]
  {
    var t := "\n" + rest;
    assert t[1..] == rest;
    if rest != "" && rest[0] == '\n' {
      assert t[2..] == rest[1..];
    }
  }

  /** A line in front of a text, which may turn out to be a section of its own. */
  lemma SectionsOfLineAndText(line: string, rest: string)
    requires Breakless(line)
    ensures rest != "" && rest[0] == '\n' ==> Sections(line + "\n" + rest) == [line] + Sections(rest[1..])
    ensures rest == "" || rest[0] != '\n' ==>
              var s := Sections(rest);
              Sections(line + "\n" + rest) == [line + "\n" + s[0]] + s[1..]
  {
    hide Sections;
    SectionsOfLine(line, "\n" + rest);
    SectionsOfBreak(rest);
    assert line + "\n" + rest == line + ("\n" + rest);
    assert line + "" == line;
    assert line + ("\n" + Sections(rest)[0]) == line + "\n" + Sections(rest)[0];
  }

  lemma TextsPush(list: seq<string>, lists: seq<seq<string>>)
    ensures Texts([list] + lists) == [Join("\n", list)] + Texts(lists)
  {}

  lemma {:induction false} SectionsOfJoin(lines: seq<string>)
    requires lines != [] && forall i :: 0 <= i < |lines| ==> Breakless(lines[i])
    ensures Sections(Join("\n", lines)) == Texts(Group(lines))
  {
    hide Sections;
    hide Texts;
    var first := lines[0];
    if |lines| == 1 {
      SectionsOfBreakless(first);
      TextsPush(lines, []);
    } else {
      var rest := Join("\n", lines[1..]);
      SectionsOfLineAndText(first, rest);
      if |lines| == 2 {
        SectionsOfBreakless(rest);
        TextsPush(lines, []);
      } else if lines[1] == "" {
        SectionsOfJoin(lines[2..]);
        TextsPush([first], Group(lines[2..]));
        assert lines[1..][1..] == lines[2..];
        assert rest[1..] == Join("\n", lines[2..]);
      } else {
        SectionsOfJoin(lines[1..]);
        var groups := Group(lines[1..]);
        TextsPush(groups[0], groups[1..]);
        TextsPush([first] + groups[0], groups[1..]);
        assert ([first] + groups[0])[1..] == groups[0];
      }
    }
  }

  /** The sections of a text of clean lines that ends in one line break. */
  lemma SectionsAgain(lines: seq<string>)
    requires lines != [] && forall l :: l in lines ==> Clean(l)
    ensures var groups := Group(lines + [""]);
            && Sections(Join("\n", lines) + "\n") == Texts(groups)
            && forall i :: 0 <= i < |groups| ==> SectionList(Texts(groups)[i]) == Chop(groups[i])
  {
    hide Join;
    hide Group;
    hide SectionList;
    hide Chop;
    var all := lines + [""];
    JoinAppend("\n", lines, [""]);
    JoinOne("");
    assert Join("\n", all) == Join("\n", lines) + "\n";
    assert forall k :: 0 <= k < |lines| ==> lines[k] in lines;
    SectionsOfJoin(all);
    var groups := Group(all);
    forall i | 0 <= i < |groups|
      ensures SectionList(Texts(groups)[i]) == Chop(groups[i])
    {
      GroupsAreClean(all, i);
      SectionListOfJoin(groups[i]);
    }
  }

  function ChopAll(groups: seq<seq<string>>): (chopped: seq<seq<string>>)
    ensures |chopped| == |groups|
    ensures forall i :: 0 <= i < |groups| ==> chopped[i] == Chop(groups[i])
  {
    seq(|groups|, i requires 0 <= i < |groups| => Chop(groups[i]))
  }

  lemma PushText(list: seq<string>, lists: seq<seq<string>>)
    ensures Texts(ChopAll([list] + lists)) == [Join("\n", Chop(list))] + Texts(ChopAll(lists))
    ensures Texts(ChopAll([list])) == [Join("\n", Chop(list))]
  {}

  lemma JoinBlank(first: string, lines: seq<string>, groups: seq<seq<string>>)
    requires groups != [] && Chop(lines) != []
    requires Join("\n\n", Texts(ChopAll(groups))) == Join("\n", Chop(lines))
    ensures Join("\n\n", Texts(ChopAll([[first]] + groups))) == Join("\n", Chop([first] + ([""] + lines)))
  {
    hide Join;
    hide Texts;
    hide ChopAll;
    hide Chop;
    PushText([first], groups);
    JoinOne(first);
    JoinPush("\n\n", first, Texts(ChopAll(groups)));
    ChopNothing();
    ChopFront("", lines);
    ChopFront(first, [""] + lines);
    JoinPush("\n", "", Chop(lines));
    JoinPush("\n", first, [""] + Chop(lines));
    var rest := Join("\n", Chop(lines));
    assert first + "\n" + ("" + "\n" + rest) == first + "\n\n" + rest;
  }

  lemma JoinLine(first: string, lines: seq<string>, groups: seq<seq<string>>)
    requires groups != [] && Chop(groups[0]) != [] && Chop(lines) != []
    requires Join("\n\n", Texts(ChopAll(groups))) == Join("\n", Chop(lines))
    ensures Join("\n\n", Texts(ChopAll([[first] + groups[0]] + groups[1..]))) == Join("\n", Chop([first] + lines))
  {
    hide Join;
    hide Texts;
    hide ChopAll;
    hide Chop;
    PushText(groups[0], groups[1..]);
    assert groups == [groups[0]] + groups[1..];
    PushText([first] + groups[0], groups[1..]);
    ChopNothing();
    ChopFront(first, groups[0]);
    ChopFront(first, lines);
    JoinPush("\n", first, Chop(groups[0]));
    JoinPush("\n", first, Chop(lines));
    JoinFront("\n\n", first + "\n", Join("\n", Chop(groups[0])), Texts(ChopAll(groups[1..])));
  }

  /** Putting the groups below each other again gives the lines back, if they
      end in one blank line. */
  lemma {:induction false} GroupsJoin(lines: seq<string>)
    requires |lines| > 1 && lines[|lines| - 1] == "" && lines[|lines| - 2] != ""
    ensures Join("\n\n", Texts(ChopAll(Group(lines)))) == Join("\n", Chop(lines))
  {
    hide Texts;
    hide ChopAll;
    hide Join;
    if |lines| == 2 {
      PushText(lines, []);
      assert Chop(lines) == [lines[0]];
      JoinOne(lines[0]);
    } else if lines[1] == "" {
      GroupsJoin(lines[2..]);
      JoinBlank(lines[0], lines[2..], Group(lines[2..]));
      assert lines == [lines[0]] + ([""] + lines[2..]);
    } else {
      GroupsJoin(lines[1..]);
      FirstGroup(lines[1..]);
      JoinLine(lines[0], lines[1..], Group(lines[1..]));
      assert lines == [lines[0]] + lines[1..];
    }
  }
}
