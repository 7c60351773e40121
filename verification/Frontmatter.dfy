/** Markdown files with a yaml frontmatter block: the writer and the splitter. Strings stand for bytes. */
module Frontmatter {
  import opened Common

  const FENCE := "---"
  const BOM: string := ['\U{EF}', '\U{BB}', '\U{BF}']

  function Ensured(body: string): string {
    if body != [] && body[|body| - 1] == '\n' then body else body + "\n"
  }

  function Encode(yaml: string, body: string): string {
    FENCE + "\n" + yaml + FENCE + "\n" + Ensured(body)
  }

  method EncodeMarkdown(yaml: string, body: string) returns (buf: string)
    ensures buf == Encode(yaml, body)
  {
    buf := FENCE;
    buf := buf + "\n";
    buf := buf + yaml;
    buf := buf + FENCE;
    buf := buf + "\n";
    buf := buf + body;
    if !(body != [] && body[|body| - 1] == '\n') {
      buf := buf + "\n";
    }
  }

  predicate OccursAt(s: string, pat: string, i: nat) {
    i + |pat| <= |s| && s[i..i + |pat|] == pat
  }

  ghost predicate Occurs(s: string, pat: string) {
    exists i: nat :: OccursAt(s, pat, i)
  }

  /** bytes.Index: the first occurrence at or after from. */
  function IndexFrom(s: string, pat: string, from: nat): (r: Option<nat>)
    ensures r.Some? ==> from <= r.value && OccursAt(s, pat, r.value)
    ensures r.Some? ==> forall i: nat :: from <= i < r.value ==> !OccursAt(s, pat, i)
    ensures r.None? ==> forall i: nat :: from <= i ==> !OccursAt(s, pat, i)
    decreases |s| - from
  {
    if OccursAt(s, pat, from) then Some(from)
    else if from >= |s| then None
    else IndexFrom(s, pat, from + 1)
  }

  function DropChar(s: string, c: char): string {
    if s != [] && s[0] == c then s[1..] else s
  }

  /** The yaml part and the body; a file without an opening fence is all body. */
  function SplitFrontmatter(file: string): Result<(string, string)> {
    var data := if BOM <= file then file[|BOM|..] else file;
    if !(FENCE <= data) then Ok(("", data))
    else
      var behind := data[|FENCE|..];
      if behind == [] then Err(InvalidArgument)
      else
        var line := DropChar(behind, '\r');
        if line == [] || line[0] != '\n' then Ok(("", data))
        else
          var rest := line[1..];
          match IndexFrom(rest, "\n" + FENCE, 0)
          case None => Err(InvalidArgument)
          case Some(i) => Ok((rest[..i], DropChar(DropChar(rest[i + 1 + |FENCE|..], '\r'), '\n')))
  }

  predicate EndsLine(yaml: string) {
    yaml != [] && yaml[|yaml| - 1] == '\n'
  }

  /** What the splitter scans behind the opening fence. */
  function Scanned(yaml: string, body: string): string {
    yaml + FENCE + "\n" + Ensured(body)
  }

  lemma SplitScans(yaml: string, body: string)
    ensures SplitFrontmatter(Encode(yaml, body)) ==
      match IndexFrom(Scanned(yaml, body), "\n" + FENCE, 0)
      case None => Err(InvalidArgument)
      case Some(i) =>
        Ok((Scanned(yaml, body)[..i], DropChar(DropChar(Scanned(yaml, body)[i + 1 + |FENCE|..], '\r'), '\n')))
  {
    var file := Encode(yaml, body);
    assert file[0] == '-' && file[3] == '\n';
    assert !(BOM <= file);
    assert FENCE <= file;
    assert file[|FENCE|..][0] == '\n';
    assert file[|FENCE|..][1..] == Scanned(yaml, body);
  }

  /** The closing fence is an occurrence of "\n---" in what is scanned. */
  lemma FenceCloses(yaml: string, body: string)
    requires EndsLine(yaml)
    ensures OccursAt(Scanned(yaml, body), "\n" + FENCE, |yaml| - 1)
    ensures Scanned(yaml, body)[|yaml| + |FENCE|..] == "\n" + Ensured(body)
    ensures Scanned(yaml, body)[..|yaml| - 1] == yaml[..|yaml| - 1]
  {
    var s := Scanned(yaml, body);
    assert s[|yaml| - 1..|yaml| + 3] == [yaml[|yaml| - 1]] + FENCE;
  }

  /** An earlier occurrence lies wholly inside the yaml text, since that ends a line. */
  lemma EarlierIsInside(yaml: string, body: string, i: nat)
    requires EndsLine(yaml) && i < |yaml| - 1
    ensures OccursAt(Scanned(yaml, body), "\n" + FENCE, i) <==> OccursAt(yaml, "\n" + FENCE, i)
  {
    var s, pat := Scanned(yaml, body), "\n" + FENCE;
    if i + |pat| <= |yaml| {
      assert s[i..i + |pat|] == yaml[i..i + |pat|];
    } else {
      var k := |yaml| - 1 - i;
      assert i + |pat| <= |s| ==> s[i..i + |pat|][k] == yaml[|yaml| - 1] && pat[k] == '-';
    }
  }

  lemma LastIsNotInside(yaml: string, i: nat)
    requires OccursAt(yaml, "\n" + FENCE, i)
    ensures i < |yaml| - 1
  {
  }

  /** A fence line inside the yaml text is found first. */
  lemma FoundInside(yaml: string, body: string)
    requires EndsLine(yaml) && Occurs(yaml, "\n" + FENCE)
    ensures var found := IndexFrom(Scanned(yaml, body), "\n" + FENCE, 0); found.Some? && found.value < |yaml| - 1
  {
    hide Scanned, OccursAt, EndsLine;
    var i: nat :| OccursAt(yaml, "\n" + FENCE, i);
    LastIsNotInside(yaml, i);
    EarlierIsInside(yaml, body, i);
  }

  /** Otherwise the closing fence is. */
  lemma FoundAtEnd(yaml: string, body: string)
    requires EndsLine(yaml) && !Occurs(yaml, "\n" + FENCE)
    ensures IndexFrom(Scanned(yaml, body), "\n" + FENCE, 0) == Some(|yaml| - 1)
  {
    FenceCloses(yaml, body);
    hide Scanned, OccursAt;
    forall i: nat | i < |yaml| - 1 ensures !OccursAt(Scanned(yaml, body), "\n" + FENCE, i) {
      EarlierIsInside(yaml, body, i);
    }
  }

  lemma BodyDrops(body: string)
    ensures DropChar(DropChar("\n" + Ensured(body), '\r'), '\n') == Ensured(body)
  {
    assert ("\n" + Ensured(body))[1..] == Ensured(body);
  }

  /** The round trip returns the yaml text less its final newline, and the body, exactly when no
      line of the yaml text after the first starts with three dashes. The body is free. */
  lemma FrontmatterRoundTripIff(yaml: string, body: string)
    requires EndsLine(yaml)
    ensures SplitFrontmatter(Encode(yaml, body)) == Ok((yaml[..|yaml| - 1], Ensured(body)))
            <==> !Occurs(yaml, "\n" + FENCE)
  {
    SplitScans(yaml, body);
    FenceCloses(yaml, body);
    hide SplitFrontmatter, Encode, Scanned, Occurs, DropChar, Ensured;
    if Occurs(yaml, "\n" + FENCE) {
      FoundInside(yaml, body);
      var i := IndexFrom(Scanned(yaml, body), "\n" + FENCE, 0).value;
      assert |Scanned(yaml, body)[..i]| == i;
    } else {
      FoundAtEnd(yaml, body);
      BodyDrops(body);
    }
  }

  /** The body ends in a newline: its own, or one that is added. */
  lemma EnsuredMeans(body: string)
    ensures Ensured(body) == body || Ensured(body) == body + "\n"
    ensures Ensured(body) != "" && Ensured(body)[|Ensured(body)| - 1] == '\n'
    ensures body != "" && body[|body| - 1] == '\n' ==> Ensured(body) == body
  {
  }

  /** A file is a fence line, the yaml text, a fence line and the body. */
  lemma EncodeMeans(yaml: string, body: string)
    ensures Encode(yaml, body) == "---" + "\n" + yaml + "---" + "\n" + Ensured(body)
  {
  }

  /** A text without an opening fence is its own body, and a leading byte order mark is skipped. */
  lemma SplitMeans(text: string)
    ensures !(BOM <= text) && !("---" <= text) ==> SplitFrontmatter(text) == Ok(("", text))
    ensures !(BOM <= text) ==> SplitFrontmatter(BOM + text) == SplitFrontmatter(text)
  {
    assert (BOM + text)[|BOM|..] == text && BOM <= BOM + text;
    hide IndexFrom, DropChar;
  }
}
