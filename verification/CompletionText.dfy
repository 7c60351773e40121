/** completion.md: what CompleteTicket writes and what its two parsers read back. */
module CompletionText {
  import opened Text
  import opened Board

  const TESTING_HEADING := "## Testing evidence"
  const WORK_HEADING := "## Work summary"
  const LEARNINGS_HEADING := "## Learnings"

  // The section keys the loader looks under, in its order of preference.
  const TESTING_KEY := "testing evidence"
  const TESTING_ALIAS := "testing"
  const WORK_KEY := "work summary"
  const WORK_ALIAS := "summary"
  const WORK_ALIAS_2 := "work"
  const LEARNINGS_KEY := "learnings"
  const LEARNINGS_ALIAS := "learning"

  // ----- Lines -----

  /** strings.Split(s, "\n"). */
  function SplitLines(s: string): (lines: seq<string>)
    ensures |lines| > 0
  {
    if s == "" then [""]
    else
      var rest := SplitLines(s[1..]);
      if s[0] == '\n' then [""] + rest else [[s[0]] + rest[0]] + rest[1..]
  }

  /** strings.Join(lines, "\n"). */
  function JoinLines(lines: seq<string>): string {
    if lines == [] then ""
    else if |lines| == 1 then lines[0]
    else lines[0] + "\n" + JoinLines(lines[1..])
  }

  function TrimNewlinesLeft(s: string): string {
    if s != "" && s[0] == '\n' then TrimNewlinesLeft(s[1..]) else s
  }

  function TrimNewlinesRight(s: string): string {
    if s != "" && s[|s| - 1] == '\n' then TrimNewlinesRight(s[..|s| - 1]) else s
  }

  /** strings.Trim(s, "\n"). */
  function TrimNewlines(s: string): string {
    TrimNewlinesRight(TrimNewlinesLeft(s))
  }

  predicate IsHeading(line: string) {
    "## " <= line
  }

  /** A text none of whose lines starts a "## " heading. */
  predicate Plain(s: string) {
    forall line :: line in SplitLines(s) ==> !IsHeading(line)
  }

  lemma SplitCons(c: char, s: string)
    ensures SplitLines([c] + s) == if c == '\n' then [""] + SplitLines(s)
                                  else [[c] + SplitLines(s)[0]] + SplitLines(s)[1..]
  {
    assert ([c] + s)[1..] == s;
  }

  lemma {:induction false} SplitFirstLine(a: string, b: string)
    requires '\n' !in a
    ensures SplitLines(a + "\n" + b) == [a] + SplitLines(b)
  {
    if a == "" {
      SplitCons('\n', b);
      assert a + "\n" + b == ['\n'] + b;
    } else {
      var tail := a[1..] + "\n" + b;
      SplitFirstLine(a[1..], b);
      SplitCons(a[0], tail);
      assert a + "\n" + b == [a[0]] + tail;
      assert [a[0]] + a[1..] == a;
    }
  }

  lemma {:induction false} SplitOneLine(s: string)
    requires '\n' !in s
    ensures SplitLines(s) == [s]
  {
    if s != "" {
      SplitOneLine(s[1..]);
      SplitCons(s[0], s[1..]);
      assert [s[0]] + s[1..] == s;
    }
  }

  lemma {:induction false} LinesHaveNoNewline(s: string)
    ensures forall line :: line in SplitLines(s) ==> '\n' !in line
  {
    if s != "" {
      LinesHaveNoNewline(s[1..]);
    }
  }

  lemma {:induction false} JoinSplit(s: string)
    ensures JoinLines(SplitLines(s)) == s
  {
    if s != "" {
      JoinSplit(s[1..]);
      var rest := SplitLines(s[1..]);
      if s[0] == '\n' {
        assert ([""] + rest)[1..] == rest;
      } else {
        assert ([[s[0]] + rest[0]] + rest[1..])[1..] == rest[1..];
      }
    }
  }

  lemma {:induction false} SplitJoin(lines: seq<string>)
    requires lines != [] && forall line :: line in lines ==> '\n' !in line
    ensures SplitLines(JoinLines(lines)) == lines
  {
    assert lines[0] in lines;
    SplitOneLine(lines[0]);
    if |lines| > 1 {
      SplitJoin(lines[1..]);
      SplitFirstLine(lines[0], JoinLines(lines[1..]));
    }
  }

  // ----- Writing -----

  function Part(heading: string, text: string): string {
    if text == "" then "" else heading + "\n" + text + "\n\n"
  }

  function RenderWith(t: string, w: string, l: string, c: Sections): string {
    Part(t, c.testing) + (Part(w, c.work) + (l + "\n" + c.learnings + "\n"))
  }

  /** The completion.md bytes CompleteTicket stages: empty optional sections are left out. */
  function RenderCompletion(c: Sections): string {
    RenderWith(TESTING_HEADING, WORK_HEADING, LEARNINGS_HEADING, c)
  }

  // ----- splitCompletionSections -----

  datatype Current = NoSection | Section(name: string, buf: seq<string>)

  function ToLowerChar(c: char): char {
    if 'A' <= c <= 'Z' then c - 'A' + 'a' else c
  }

  function ToLower(s: string): string {
    seq(|s|, i requires 0 <= i < |s| => ToLowerChar(s[i]))
  }

  function HeadingName(line: string): string
    requires IsHeading(line)
  {
    TrimSpace(line[3..])
  }

  function Flush(cur: Current, sections: map<string, string>): map<string, string> {
    match cur
    case NoSection => sections
    case Section(name, buf) => sections[ToLower(name) := TrimNewlines(JoinLines(buf))]
  }

  /** The sections found when the remaining lines are read in state (cur, sections). */
  function Parse(lines: seq<string>, cur: Current, sections: map<string, string>): map<string, string> {
    if lines == [] then Flush(cur, sections)
    else if IsHeading(lines[0]) then
      Parse(lines[1..], Section(HeadingName(lines[0]), []), Flush(cur, sections))
    else
      Parse(lines[1..], if cur.Section? then Section(cur.name, cur.buf + [lines[0]]) else cur, sections)
  }

  /** The closure pick: the first key present wins. */
  function Lookup(sections: map<string, string>, key: string, otherwise: string): string {
    if key in sections then sections[key] else otherwise
  }

  function PickSections(found: map<string, string>): Sections {
    Sections(Lookup(found, TESTING_KEY, Lookup(found, TESTING_ALIAS, "")),
             Lookup(found, WORK_KEY, Lookup(found, WORK_ALIAS, Lookup(found, WORK_ALIAS_2, ""))),
             Lookup(found, LEARNINGS_KEY, Lookup(found, LEARNINGS_ALIAS, "")))
  }

  function ReadSections(md: string): Sections {
    if md == "" then Sections("", "", "") else PickSections(Parse(SplitLines(md), NoSection, map[]))
  }

  /** The line loop itself. */
  method SplitCompletionSections(md: string) returns (r: Sections)
    ensures r == ReadSections(md)
  {
    if md == "" {
      return Sections("", "", "");
    }
    var lines := SplitLines(md);
    var cur := NoSection;
    var sections: map<string, string> := map[];
    for i := 0 to |lines|
      invariant Parse(lines, NoSection, map[]) == Parse(lines[i..], cur, sections)
    {
      assert lines[i..][0] == lines[i] && lines[i..][1..] == lines[i + 1..];
      if IsHeading(lines[i]) {
        sections := Flush(cur, sections);
        cur := Section(HeadingName(lines[i]), []);
      } else if cur.Section? {
        cur := Section(cur.name, cur.buf + [lines[i]]);
      }
    }
    r := PickSections(Flush(cur, sections));
  }

  // ----- extractLearningsSection -----

  predicate InCutset(c: char) {
    c == '\n' || c == ' ' || c == '\t'
  }

  function TrimCutsetLeft(s: string): string {
    if s != "" && InCutset(s[0]) then TrimCutsetLeft(s[1..]) else s
  }

  function TrimCutsetRight(s: string): string {
    if s != "" && InCutset(s[|s| - 1]) then TrimCutsetRight(s[..|s| - 1]) else s
  }

  predicate IsLearningsHeading(line: string) {
    IsHeading(line) && (ToLower(HeadingName(line)) == LEARNINGS_KEY || ToLower(HeadingName(line)) == LEARNINGS_ALIAS)
  }

  /** The lines collected from the remaining ones: a learnings heading opens, any other closes. */
  function Collect(lines: seq<string>, open: bool): seq<string> {
    if lines == [] then []
    else if IsLearningsHeading(lines[0]) then Collect(lines[1..], true)
    else if IsHeading(lines[0]) then if open then [] else Collect(lines[1..], false)
    else if open then [lines[0]] + Collect(lines[1..], true)
    else Collect(lines[1..], false)
  }

  function LearningsOf(md: string): string {
    if md == "" then "" else TrimCutsetRight(TrimCutsetLeft(JoinLines(Collect(SplitLines(md), false))))
  }

  method ExtractLearningsSection(md: string) returns (r: string)
    ensures r == LearningsOf(md)
  {
    if md == "" {
      return "";
    }
    var lines := SplitLines(md);
    var open, out := false, [];
    for i := 0 to |lines|
      invariant Collect(lines, false) == out + Collect(lines[i..], open)
    {
      assert lines[i..][0] == lines[i] && lines[i..][1..] == lines[i + 1..];
      if IsHeading(lines[i]) {
        if IsLearningsHeading(lines[i]) {
          open := true;
        } else if open {
          assert Collect(lines[i..], open) == [] && out + [] == out;
          return TrimCutsetRight(TrimCutsetLeft(JoinLines(out)));
        }
      } else if open {
        out := out + [lines[i]];
      }
    }
    assert Collect(lines, false) == out;
    r := TrimCutsetRight(TrimCutsetLeft(JoinLines(out)));
  }

  // ----- What is written is read back -----

  /** One section as it appears in the file: heading, text, and the blank line after it. */
  function Block(heading: string, text: string): seq<string> {
    [heading] + SplitLines(text) + [""]
  }

  function BlockIfAny(heading: string, text: string): seq<string> {
    if text == "" then [] else Block(heading, text)
  }

  function FileLines(t: string, w: string, l: string, c: Sections): seq<string> {
    BlockIfAny(t, c.testing) + (BlockIfAny(w, c.work) + Block(l, c.learnings))
  }

  lemma {:induction false} JoinAppend(a: seq<string>, b: seq<string>)
    requires a != [] && b != []
    ensures JoinLines(a + b) == JoinLines(a) + "\n" + JoinLines(b)
  {
    assert (a + b)[0] == a[0] && (a + b)[1..] == a[1..] + b;
    if |a| == 1 {
      assert a[1..] + b == b;
    } else {
      JoinAppend(a[1..], b);
      assert a[0] + "\n" + (JoinLines(a[1..]) + "\n" + JoinLines(b))
          == a[0] + "\n" + JoinLines(a[1..]) + "\n" + JoinLines(b);
    }
  }

  lemma JoinBlock(heading: string, text: string)
    ensures JoinLines(Block(heading, text)) == heading + "\n" + text + "\n"
  {
    var lines := SplitLines(text);
    JoinAppend([heading] + lines, [""]);
    JoinAppend([heading], lines);
    JoinSplit(text);
    assert heading + "\n" + text + "\n" + "" == heading + "\n" + text + "\n";
  }

  lemma JoinBlockIfAny(heading: string, text: string, rest: seq<string>)
    requires rest != []
    ensures JoinLines(BlockIfAny(heading, text) + rest) == Part(heading, text) + JoinLines(rest)
  {
    if text == "" {
      assert BlockIfAny(heading, text) + rest == rest;
    } else {
      JoinBlock(heading, text);
      JoinAppend(Block(heading, text), rest);
      assert heading + "\n" + text + "\n" + "\n" == heading + "\n" + text + "\n\n";
    }
  }

  lemma BlockIfAnyLines(heading: string, text: string)
    requires '\n' !in heading
    ensures forall line :: line in Block(heading, text) ==> '\n' !in line
  {
    LinesHaveNoNewline(text);
  }

  /** The written file split into lines again is the blocks in order. */
  lemma RenderedLines(t: string, w: string, l: string, c: Sections)
    requires '\n' !in t && '\n' !in w && '\n' !in l
    ensures SplitLines(RenderWith(t, w, l, c)) == FileLines(t, w, l, c)
  {
    var last := Block(l, c.learnings);
    JoinBlock(l, c.learnings);
    JoinBlockIfAny(w, c.work, last);
    JoinBlockIfAny(t, c.testing, BlockIfAny(w, c.work) + last);
    BlockIfAnyLines(t, c.testing);
    BlockIfAnyLines(w, c.work);
    BlockIfAnyLines(l, c.learnings);
    SplitJoin(FileLines(t, w, l, c));
  }

  lemma {:induction false} ParsePlainLines(body: seq<string>, rest: seq<string>, name: string, buf: seq<string>,
                                          sections: map<string, string>)
    requires forall line :: line in body ==> !IsHeading(line)
    ensures Parse(body + rest, Section(name, buf), sections) == Parse(rest, Section(name, buf + body), sections)
  {
    if body == [] {
      assert body + rest == rest && buf + body == buf;
    } else {
      assert (body + rest)[1..] == body[1..] + rest;
      ParsePlainLines(body[1..], rest, name, buf + [body[0]], sections);
      assert buf + [body[0]] + body[1..] == buf + body;
    }
  }

  lemma NewlineTrimmed(t: string)
    requires t != "" && !IsSpace(t[0]) && !IsSpace(t[|t| - 1])
    ensures TrimNewlinesLeft(t + "\n") == t + "\n" && TrimNewlinesRight(t + "\n") == t
    ensures TrimCutsetLeft(t + "\n") == t + "\n" && TrimCutsetRight(t + "\n") == t
  {
    var s, n := t + "\n", |t|;
    assert |s| == n + 1 && s[0] == t[0] && s[n] == '\n' && s[..n] == t;
    assert TrimNewlinesRight(t) == t && TrimCutsetRight(t) == t;
    assert TrimNewlinesRight(s) == TrimNewlinesRight(s[..n]);
    assert TrimCutsetRight(s) == TrimCutsetRight(s[..n]);
  }

  lemma NewlineVanishes()
    ensures TrimNewlinesLeft("\n") == "" && TrimCutsetLeft("\n") == ""
  {
    var s := "\n";
    assert s[0] == '\n' && s[1..] == "";
    assert TrimNewlinesLeft(s) == TrimNewlinesLeft(s[1..]);
    assert TrimCutsetLeft(s) == TrimCutsetLeft(s[1..]);
  }

  lemma TrimmedKeeps(t: string)
    requires Trimmed(t)
    ensures TrimNewlines(t + "\n") == t && TrimCutsetRight(TrimCutsetLeft(t + "\n")) == t
  {
    if t == "" {
      NewlineVanishes();
      assert t + "\n" == "\n";
    } else {
      NewlineTrimmed(t);
    }
  }

  lemma {:induction false} JoinWithBlank(lines: seq<string>)
    requires lines != []
    ensures JoinLines(lines + [""]) == JoinLines(lines) + "\n"
  {
    if |lines| > 1 {
      JoinWithBlank(lines[1..]);
      assert (lines + [""])[1..] == lines[1..] + [""];
    } else {
      assert lines + [""] == [lines[0], ""];
    }
  }

  /** Reading one plain block files its text under the heading's lower-cased name. */
  lemma ParseBlock(heading: string, text: string, rest: seq<string>, cur: Current, sections: map<string, string>)
    requires IsHeading(heading) && Plain(text) && Trimmed(text)
    ensures var cur' := Section(HeadingName(heading), SplitLines(text) + [""]);
            && Parse(Block(heading, text) + rest, cur, sections) == Parse(rest, cur', Flush(cur, sections))
            && Flush(cur', Flush(cur, sections)) == Flush(cur, sections)[ToLower(HeadingName(heading)) := text]
  {
    hide HeadingName, ToLower, Flush, Parse;
    ParseBlockLines(heading, text, rest, cur, sections);
    FlushBlock(HeadingName(heading), text, Flush(cur, sections));
  }

  lemma ParseBlockLines(heading: string, text: string, rest: seq<string>, cur: Current, sections: map<string, string>)
    requires IsHeading(heading) && Plain(text)
    ensures Parse(Block(heading, text) + rest, cur, sections) ==
            Parse(rest, Section(HeadingName(heading), SplitLines(text) + [""]), Flush(cur, sections))
  {
    hide HeadingName, Flush, SplitLines;
    var body := SplitLines(text) + [""];
    assert (Block(heading, text) + rest)[1..] == body + rest && (Block(heading, text) + rest)[0] == heading;
    ParsePlainLines(body, rest, HeadingName(heading), [], Flush(cur, sections));
    assert [] + body == body;
  }

  lemma FlushBlock(name: string, text: string, sections: map<string, string>)
    requires Trimmed(text)
    ensures Flush(Section(name, SplitLines(text) + [""]), sections) == sections[ToLower(name) := text]
  {
    hide ToLower, SplitLines, JoinLines, Trimmed, TrimNewlines;
    JoinWithBlank(SplitLines(text));
    JoinSplit(text);
    TrimmedKeeps(text);
  }

  lemma TrimmedUnchanged(s: string)
    requires Trimmed(s)
    ensures TrimSpace(s) == s
  {
  }

  /** heading is a "## " line whose lower-cased name is key. */
  ghost predicate Names(heading: string, key: string) {
    IsHeading(heading) && '\n' !in heading && ToLower(HeadingName(heading)) == key
  }

  lemma TestingHeadingNames()
    ensures Names(TESTING_HEADING, TESTING_KEY)
  {
    TrimmedUnchanged(TESTING_HEADING[3..]);
  }

  lemma WorkHeadingNames()
    ensures Names(WORK_HEADING, WORK_KEY)
  {
    TrimmedUnchanged(WORK_HEADING[3..]);
  }

  lemma LearningsHeadingNames()
    ensures Names(LEARNINGS_HEADING, LEARNINGS_KEY)
  {
    TrimmedUnchanged(LEARNINGS_HEADING[3..]);
  }

  ghost predicate PlainSections(c: Sections) {
    Plain(c.testing) && Plain(c.work) && Plain(c.learnings)
  }

  ghost function Filed(sections: map<string, string>, key: string, text: string): map<string, string> {
    if text == "" then sections else sections[key := text]
  }

  lemma ParseBlockIfAny(heading: string, key: string, text: string, rest: seq<string>, cur: Current,
                        sections: map<string, string>) returns (cur': Current, sections': map<string, string>)
    requires Names(heading, key) && Plain(text) && Trimmed(text)
    ensures Parse(BlockIfAny(heading, text) + rest, cur, sections) == Parse(rest, cur', sections')
    ensures Flush(cur', sections') == Filed(Flush(cur, sections), key, text)
  {
    if text == "" {
      assert BlockIfAny(heading, text) + rest == rest;
      return cur, sections;
    }
    ParseBlock(heading, text, rest, cur, sections);
    return Section(HeadingName(heading), SplitLines(text) + [""]), Flush(cur, sections);
  }

  /** Every non-empty section of a file of plain sections is filed under its key. */
  lemma ParseRendered(t: string, w: string, l: string, kt: string, kw: string, kl: string, c: Sections)
    requires Names(t, kt) && Names(w, kw) && Names(l, kl)
    requires TrimmedSections(c) && PlainSections(c)
    ensures Parse(SplitLines(RenderWith(t, w, l, c)), NoSection, map[])
            == Filed(Filed(map[], kt, c.testing), kw, c.work)[kl := c.learnings]
  {
    RenderedLines(t, w, l, c);
    var last := Block(l, c.learnings);
    var cur1, found1 := ParseBlockIfAny(t, kt, c.testing, BlockIfAny(w, c.work) + last, NoSection, map[]);
    var cur2, found2 := ParseBlockIfAny(w, kw, c.work, last, cur1, found1);
    ParseBlock(l, c.learnings, [], cur2, found2);
    assert last + [] == last;
  }

  lemma KeysDiffer()
    ensures TESTING_KEY != WORK_KEY && TESTING_KEY != LEARNINGS_KEY && WORK_KEY != LEARNINGS_KEY
    ensures TESTING_ALIAS !in {WORK_KEY, LEARNINGS_KEY}
    ensures WORK_ALIAS !in {TESTING_KEY, LEARNINGS_KEY} && WORK_ALIAS_2 !in {TESTING_KEY, LEARNINGS_KEY}
  {
    assert |TESTING_KEY| == 16 && |WORK_KEY| == 12 && |LEARNINGS_KEY| == 9;
    assert |TESTING_ALIAS| == 7 && |WORK_ALIAS| == 7 && |WORK_ALIAS_2| == 4;
  }

  lemma PickFiled(c: Sections)
    ensures
      PickSections(Filed(Filed(map[], TESTING_KEY, c.testing), WORK_KEY, c.work)[LEARNINGS_KEY := c.learnings]) == c
  {
    KeysDiffer();
  }

  lemma PlainSectionsReadBack(c: Sections)
    requires TrimmedSections(c) && PlainSections(c)
    ensures ReadSections(RenderCompletion(c)) == c
  {
    TestingHeadingNames();
    WorkHeadingNames();
    LearningsHeadingNames();
    ParseRendered(TESTING_HEADING, WORK_HEADING, LEARNINGS_HEADING, TESTING_KEY, WORK_KEY, LEARNINGS_KEY, c);
    PickFiled(c);
  }

  // ----- Text with a heading line of its own is never read back -----

  lemma {:induction false} TrimLeftLines(s: string)
    ensures forall line :: line in SplitLines(TrimNewlinesLeft(s)) ==> line in SplitLines(s)
  {
    if s != "" && s[0] == '\n' {
      TrimLeftLines(s[1..]);
    }
  }

  lemma SplitWithNewline(s: string)
    ensures SplitLines(s + "\n") == SplitLines(s) + [""]
  {
    LinesHaveNoNewline(s);
    JoinWithBlank(SplitLines(s));
    JoinSplit(s);
    SplitJoin(SplitLines(s) + [""]);
  }

  lemma {:induction false} TrimRightLines(s: string)
    ensures forall line :: line in SplitLines(TrimNewlinesRight(s)) ==> line in SplitLines(s)
  {
    if s != "" && s[|s| - 1] == '\n' {
      TrimRightLines(s[..|s| - 1]);
      SplitWithNewline(s[..|s| - 1]);
      assert s == s[..|s| - 1] + "\n";
    }
  }

  ghost predicate PlainBuffer(cur: Current) {
    cur.Section? ==> forall line :: line in cur.buf ==> !IsHeading(line) && '\n' !in line
  }

  lemma FlushIsPlain(cur: Current, sections: map<string, string>)
    requires PlainBuffer(cur) && forall k :: k in sections ==> Plain(sections[k])
    ensures forall k :: k in Flush(cur, sections) ==> Plain(Flush(cur, sections)[k])
  {
    if cur.Section? {
      var text := JoinLines(cur.buf);
      if cur.buf != [] {
        SplitJoin(cur.buf);
      }
      TrimLeftLines(text);
      TrimRightLines(TrimNewlinesLeft(text));
      assert Plain(TrimNewlines(text));
    }
  }

  lemma {:induction false} ParseIsPlain(lines: seq<string>, cur: Current, sections: map<string, string>)
    requires PlainBuffer(cur) && forall k :: k in sections ==> Plain(sections[k])
    requires forall line :: line in lines ==> '\n' !in line
    ensures forall k :: k in Parse(lines, cur, sections) ==> Plain(Parse(lines, cur, sections)[k])
  {
    FlushIsPlain(cur, sections);
    if lines != [] {
      assert lines[0] in lines && forall line :: line in lines[1..] ==> line in lines;
      if IsHeading(lines[0]) {
        ParseIsPlain(lines[1..], Section(HeadingName(lines[0]), []), Flush(cur, sections));
      } else {
        ParseIsPlain(lines[1..], if cur.Section? then Section(cur.name, cur.buf + [lines[0]]) else cur, sections);
      }
    }
  }

  lemma PickIsPlain(found: map<string, string>)
    requires forall k :: k in found ==> Plain(found[k])
    ensures PlainSections(PickSections(found))
  {
    assert Plain("") by {
      assert SplitLines("") == [""];
    }
  }

  lemma ReadIsPlain(md: string)
    ensures PlainSections(ReadSections(md))
  {
    if md == "" {
      assert SplitLines("") == [""];
    } else {
      LinesHaveNoNewline(md);
      ParseIsPlain(SplitLines(md), NoSection, map[]);
      PickIsPlain(Parse(SplitLines(md), NoSection, map[]));
    }
  }

  /** The completion file is read back exactly when no section has a line of its own starting "## ". */
  lemma CompletionRoundTripIff(c: Sections)
    requires TrimmedSections(c)
    ensures ReadSections(RenderCompletion(c)) == c <==> PlainSections(c)
  {
    if PlainSections(c) {
      PlainSectionsReadBack(c);
    } else {
      ReadIsPlain(RenderCompletion(c));
    }
  }

  /** Texts that CompleteTicket accepts and the next load does not return: a work summary that is one
      heading line, and learnings of the least length. */
  const LOST_SECTIONS := Sections("", "## x", "yyyyyyyyyy")

  lemma HeadingInsideIsLost()
    ensures TrimmedSections(LOST_SECTIONS) && Utf8Len(TrimSpace(LOST_SECTIONS.learnings)) >= LEARNINGS_MIN
    ensures !PlainSections(LOST_SECTIONS) && ReadSections(RenderCompletion(LOST_SECTIONS)) != LOST_SECTIONS
  {
    hide Utf8Len, TrimSpace, RenderCompletion, ReadSections;
    var c := LOST_SECTIONS;
    TrimmedStays(c.learnings);
    Utf8AtLeast(c.learnings);
    SplitOneLine(c.work);
    assert c.work in SplitLines(c.work);
    CompletionRoundTripIff(c);
  }

  // ----- The two parsers agree on learnings -----

  lemma {:induction false} CollectSkips(body: seq<string>, rest: seq<string>)
    requires forall line :: line in body ==> !IsLearningsHeading(line)
    ensures Collect(body + rest, false) == Collect(rest, false)
  {
    if body == [] {
      assert body + rest == rest;
    } else {
      assert (body + rest)[1..] == body[1..] + rest;
      CollectSkips(body[1..], rest);
    }
  }

  lemma {:induction false} CollectAll(body: seq<string>)
    requires forall line :: line in body ==> !IsHeading(line)
    ensures Collect(body, true) == body
  {
    if body != [] {
      CollectAll(body[1..]);
    }
  }

  lemma BlockHasNoLearnings(heading: string, key: string, text: string)
    requires Names(heading, key) && key != LEARNINGS_KEY && key != LEARNINGS_ALIAS && Plain(text)
    ensures forall line :: line in BlockIfAny(heading, text) ==> !IsLearningsHeading(line)
  {
  }

  lemma LearningsOfBlocks(before: seq<string>, heading: string, text: string)
    requires forall line :: line in before ==> !IsLearningsHeading(line)
    requires Names(heading, LEARNINGS_KEY) && Plain(text) && Trimmed(text)
    ensures TrimCutsetRight(TrimCutsetLeft(JoinLines(Collect(before + Block(heading, text), false)))) == text
  {
    var body := SplitLines(text) + [""];
    assert Block(heading, text) == [heading] + body;
    CollectSkips(before, [heading] + body);
    assert ([heading] + body)[1..] == body;
    CollectAll(body);
    JoinWithBlank(SplitLines(text));
    JoinSplit(text);
    TrimmedKeeps(text);
  }

  lemma BlockIsLong(heading: string, text: string)
    ensures |Block(heading, text)| > 1 && SplitLines("") == [""]
  {
  }

  lemma LearningsOfRendered(t: string, w: string, l: string, kt: string, kw: string, c: Sections)
    requires Names(t, kt) && Names(w, kw) && Names(l, LEARNINGS_KEY)
    requires kt != LEARNINGS_KEY && kt != LEARNINGS_ALIAS && kw != LEARNINGS_KEY && kw != LEARNINGS_ALIAS
    requires TrimmedSections(c) && PlainSections(c)
    ensures LearningsOf(RenderWith(t, w, l, c)) == c.learnings
  {
    hide IsHeading, HeadingName, ToLower, Plain, Trimmed, Collect, SplitLines, JoinLines, Block, BlockIfAny,
      TrimCutsetLeft, TrimCutsetRight, RenderWith;
    RenderedLines(t, w, l, c);
    BlockIsLong(l, c.learnings);
    BlockHasNoLearnings(t, kt, c.testing);
    BlockHasNoLearnings(w, kw, c.work);
    var before := BlockIfAny(t, c.testing) + BlockIfAny(w, c.work);
    assert FileLines(t, w, l, c) == before + Block(l, c.learnings);
    LearningsOfBlocks(before, l, c.learnings);
  }

  /** On every file CompleteTicket writes from plain trimmed sections both parsers find the learnings. */
  lemma ParsersAgreeOnLearnings(c: Sections)
    requires TrimmedSections(c) && PlainSections(c)
    ensures LearningsOf(RenderCompletion(c)) == c.learnings == ReadSections(RenderCompletion(c)).learnings
  {
    hide Names, Plain, Trimmed, LearningsOf, ReadSections, RenderWith;
    TestingHeadingNames();
    WorkHeadingNames();
    LearningsHeadingNames();
    KeysDiffer();
    assert |LEARNINGS_ALIAS| == 8;
    LearningsOfRendered(TESTING_HEADING, WORK_HEADING, LEARNINGS_HEADING, TESTING_KEY, WORK_KEY, c);
    PlainSectionsReadBack(c);
  }

  // ----- The headings -----

  /** completion.md in its own words: up to three headed texts, a blank line after each optional one. */
  lemma RenderMeans(c: Sections)
    ensures RenderCompletion(c) ==
      (if c.testing == "" then "" else "## Testing evidence" + "\n" + c.testing + "\n\n")
      + ((if c.work == "" then "" else "## Work summary" + "\n" + c.work + "\n\n")
         + ("## Learnings" + "\n" + c.learnings + "\n"))
  {
  }

  /** Each text is looked up under its full heading first and under its short ones after. */
  lemma PickMeans(found: map<string, string>)
    ensures "testing evidence" in found ==> PickSections(found).testing == found["testing evidence"]
    ensures "testing evidence" !in found && "testing" in found ==> PickSections(found).testing == found["testing"]
    ensures "work summary" in found ==> PickSections(found).work == found["work summary"]
    ensures "work summary" !in found && "summary" in found ==> PickSections(found).work == found["summary"]
    ensures "work summary" !in found && "summary" !in found && "work" in found ==>
      PickSections(found).work == found["work"]
    ensures "learnings" in found ==> PickSections(found).learnings == found["learnings"]
    ensures "learnings" !in found && "learning" in found ==> PickSections(found).learnings == found["learning"]
  {
  }
}
