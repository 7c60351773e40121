/** What the text functions compute, stated without them: trimming, byte lengths, padded numbers and slugs. */
module TextMeaning {
  import opened Text

  // ----- Trimming -----

  /** Among the ASCII characters only the space, the tab and the four line and page breaks count. */
  lemma SpaceMeans(c: char)
    requires c < '\U{80}'
    ensures IsSpace(c) <==> c == ' ' || c as int in {9, 10, 11, 12, 13}
  {
  }

  ghost predicate AllSpace(s: string) {
    forall i :: 0 <= i < |s| ==> IsSpace(s[i])
  }

  lemma {:induction false} TrimLeftCuts(s: string) returns (n: nat)
    ensures n <= |s| && TrimLeft(s) == s[n..] && AllSpace(s[..n])
  {
    if s != "" && IsSpace(s[0]) {
      var m := TrimLeftCuts(s[1..]);
      n := m + 1;
      assert s[..n] == [s[0]] + s[1..][..m] && s[1..][m..] == s[n..];
    } else {
      n := 0;
    }
  }

  lemma {:induction false} TrimRightCuts(s: string) returns (n: nat)
    ensures n <= |s| && TrimRight(s) == s[..n] && AllSpace(s[n..])
  {
    if s != "" && IsSpace(s[|s| - 1]) {
      var m := |s| - 1;
      n := TrimRightCuts(s[..m]);
      assert s[n..] == s[..m][n..] + [s[m]] && s[..m][..n] == s[..n];
    } else {
      n := |s|;
    }
  }

  /** Trimming takes white space off the two ends, all of it, and nothing else. */
  lemma TrimSpaceMeans(s: string) returns (left: nat, right: nat)
    ensures left <= right <= |s| && TrimSpace(s) == s[left..right] && AllSpace(s[..left]) && AllSpace(s[right..])
    ensures TrimSpace(s) == "" || (!IsSpace(TrimSpace(s)[0]) && !IsSpace(TrimSpace(s)[|TrimSpace(s)| - 1]))
  {
    left := TrimLeftCuts(s);
    var n := TrimRightCuts(s[left..]);
    right := left + n;
    assert s[left..][..n] == s[left..right] && s[left..][n..] == s[right..];
    TrimSpaceTrims(s);
  }

  /** Blank is nothing but white space. */
  lemma BlankMeans(s: string)
    ensures Blank(s) <==> AllSpace(s)
  {
    var left, right := TrimSpaceMeans(s);
    if Blank(s) {
      assert left == right && s == s[..left] + s[right..];
    } else {
      assert TrimSpace(s)[0] == s[left];
    }
  }

  // ----- Lengths and numbers -----

  lemma Utf8CharMeans(c: char)
    ensures Utf8Len([c]) ==
      if c as int < 0x80 then 1 else if c as int < 0x800 then 2 else if c as int < 0x1_0000 then 3 else 4
  {
  }

  /** One byte an ASCII character, two to four for the others, added up. */
  lemma {:induction false} Utf8LenMeans(s: string, t: string)
    ensures Utf8Len(s + t) == Utf8Len(s) + Utf8Len(t)
    ensures (forall i :: 0 <= i < |s| ==> s[i] < '\U{80}') ==> Utf8Len(s) == |s|
    ensures |s| <= Utf8Len(s) <= 4 * |s|
  {
    if s == "" {
      assert s + t == t;
    } else {
      Utf8LenMeans(s[1..], t);
      assert (s + t)[1..] == s[1..] + t;
    }
  }

  lemma {:induction false} DigitsSize(n: nat)
    ensures |Digits(n)| == 1 <==> n < 10
    ensures |Digits(n)| <= 2 <==> n < 100
    ensures n > 0 ==> Digits(n)[0] != '0'
  {
    if n >= 10 {
      DigitsSize(n / 10);
    }
  }

  /** %03d: decimal, padded with zeros to three digits and no further. */
  lemma Pad3Means(n: nat, slug: string)
    ensures |Pad3(n)| >= 3 && Value(Pad3(n)) == n
    ensures |Pad3(n)| > 3 ==> Pad3(n)[0] != '0'
    ensures NumberedName(n, slug) == Pad3(n) + "-" + slug
  {
    Pad3Value(n);
    DigitsSize(n);
  }

  // ----- Slugs -----

  predicate IsWordChar(c: char) {
    'a' <= c <= 'z' || 'A' <= c <= 'Z' || '0' <= c <= '9'
  }

  function LowerChar(c: char): char {
    if 'A' <= c <= 'Z' then c - 'A' + 'a' else c
  }

  function Lower(s: string): string {
    seq(|s|, i requires 0 <= i < |s| => LowerChar(s[i]))
  }

  /** The maximal runs of letters and digits, lower-cased, in order. */
  function Words(s: string): seq<string> {
    if s == "" then []
    else
      var rest := Words(s[..|s| - 1]);
      var c := s[|s| - 1];
      if !IsWordChar(c) then rest
      else if |s| > 1 && IsWordChar(s[|s| - 2]) && rest != [] then
        rest[..|rest| - 1] + [rest[|rest| - 1] + [LowerChar(c)]]
      else rest + [[LowerChar(c)]]
  }

  function Dashed(words: seq<string>): string {
    if words == [] then ""
    else if |words| == 1 then words[0]
    else Dashed(words[..|words| - 1]) + "-" + words[|words| - 1]
  }

  predicate InWord(s: string) {
    s != "" && IsWordChar(s[|s| - 1])
  }

  lemma {:induction false} WordsEnd(s: string)
    ensures InWord(s) ==> Words(s) != []
    ensures forall i :: 0 <= i < |Words(s)| ==> Words(s)[i] != ""
  {
    if s != "" {
      WordsEnd(s[..|s| - 1]);
    }
  }

  /** What the builder holds after reading s. */
  ghost predicate Built(s: string, out: string, prevDash: bool) {
    && (prevDash <==> !InWord(s))
    && out == Dashed(Words(s)) + if Words(s) != [] && !InWord(s) then "-" else ""
  }

  lemma DashedGrowsWord(words: seq<string>, c: char)
    requires words != []
    ensures Dashed(words[..|words| - 1] + [words[|words| - 1] + [c]]) == Dashed(words) + [c]
  {
    var n := |words| - 1;
    var grown := words[..n] + [words[n] + [c]];
    assert grown[..n] == words[..n];
    if n > 0 {
      assert Dashed(words[..n]) + "-" + (words[n] + [c]) == (Dashed(words[..n]) + "-" + words[n]) + [c];
    }
  }

  lemma DashedNewWord(words: seq<string>, word: string)
    ensures Dashed(words + [word]) == if words == [] then word else Dashed(words) + "-" + word
  {
    assert (words + [word])[..|words|] == words;
  }

  lemma BuiltStep(s: string, c: char, out: string, prevDash: bool)
    requires Built(s, out, prevDash)
    ensures IsWordChar(c) ==> Built(s + [c], out + [LowerChar(c)], false)
    ensures !IsWordChar(c) ==> Built(s + [c], if prevDash then out else out + "-", true)
  {
    var s', words := s + [c], Words(s);
    assert s'[..|s'| - 1] == s;
    WordsEnd(s);
    if IsWordChar(c) {
      if InWord(s) {
        DashedGrowsWord(words, LowerChar(c));
        assert Dashed(words) + "" == Dashed(words);
      } else {
        DashedNewWord(words, [LowerChar(c)]);
      }
    }
  }

  lemma FoldStep(s: string, out: string, prevDash: bool)
    ensures FoldSlug("", out, prevDash) == out
    ensures s != "" && IsWordChar(s[0]) ==>
      FoldSlug(s, out, prevDash) == FoldSlug(s[1..], out + [LowerChar(s[0])], false)
    ensures s != "" && !IsWordChar(s[0]) ==>
      FoldSlug(s, out, prevDash) == FoldSlug(s[1..], if prevDash then out else out + "-", true)
  {
  }

  lemma BuiltDash(s: string, out: string, prevDash: bool)
    requires Built(s, out, prevDash)
    ensures prevDash == !InWord(s)
  {
  }

  lemma {:induction false} FoldBuilds(done: string, s: string, out: string, prevDash: bool)
    requires Built(done, out, prevDash)
    ensures Built(done + s, FoldSlug(s, out, prevDash), !InWord(done + s))
    decreases |s|
  {
    hide Built, FoldSlug, IsWordChar, LowerChar;
    FoldStep(s, out, prevDash);
    if s == "" {
      assert done + s == done;
      BuiltDash(done, out, prevDash);
    } else {
      BuiltStep(done, s[0], out, prevDash);
      assert (done + [s[0]]) + s[1..] == done + s;
      if IsWordChar(s[0]) {
        FoldBuilds(done + [s[0]], s[1..], out + [LowerChar(s[0])], false);
      } else {
        FoldBuilds(done + [s[0]], s[1..], if prevDash then out else out + "-", true);
      }
    }
  }

  lemma {:induction false} WordChars(s: string)
    ensures forall i, j :: 0 <= i < |Words(s)| && 0 <= j < |Words(s)[i]| ==> Words(s)[i][j] != '-'
  {
    if s != "" {
      WordChars(s[..|s| - 1]);
    }
  }

  lemma {:induction false} DashedEnds(words: seq<string>)
    requires words != [] && forall i :: 0 <= i < |words| ==> words[i] != ""
    requires forall i, j :: 0 <= i < |words| && 0 <= j < |words[i]| ==> words[i][j] != '-'
    ensures Dashed(words) != "" && Dashed(words)[|Dashed(words)| - 1] != '-'
  {
    var last := words[|words| - 1];
    assert last[|last| - 1] != '-';
  }

  lemma DropDash(s: string)
    requires s == "" || s[|s| - 1] != '-'
    ensures TrimDashesRight(s) == s && TrimDashesRight(s + "-") == s
  {
    assert (s + "-")[..|s|] == s;
  }

  /** A slug is the title's words, lower-cased and joined by single dashes; longer than 48 characters it
      is cut there and loses a dash at the cut; without a word it is untitled. */
  lemma MakeSlugMeans(s: string)
    ensures Words(s) == [] ==> MakeSlug(s) == "untitled"
    ensures Words(s) != [] && |Dashed(Words(s))| <= 48 ==> MakeSlug(s) == Dashed(Words(s))
    ensures Words(s) != [] && |Dashed(Words(s))| > 48 ==>
      var cut := Dashed(Words(s))[..48];
      MakeSlug(s) == if cut[47] == '-' then cut[..47] else cut
  {
    var words := Words(s);
    assert Built("", "", true);
    FoldBuilds("", s, "", true);
    assert "" + s == s;
    WordsEnd(s);
    WordChars(s);
    var whole := Dashed(words);
    if words == [] {
      DropDash("");
      assert FoldSlug(s, "", true) == "";
    } else {
      DashedEnds(words);
      DropDash(whole);
      assert whole + "" == whole;
      assert TrimDashesRight(FoldSlug(s, "", true)) == whole;
      if |whole| > 48 {
        CutSlug(s, whole);
      }
    }
  }

  lemma CutSlug(s: string, whole: string)
    requires TrimDashesRight(FoldSlug(s, "", true)) == whole && |whole| > 48
    ensures
      var cut := whole[..48];
      MakeSlug(s) == if cut[47] == '-' then cut[..47] else cut
  {
    var cut := whole[..48];
    FoldSlugShape(s, "", true);
    TrimDashesShape(FoldSlug(s, "", true));
    assert SingleDashes(whole) && IsSlugChar(whole[0]);
    assert cut[46] == whole[46] && cut[47] == whole[47];
    if cut[47] == '-' {
      assert cut == cut[..47] + "-" && cut[..47][46] != '-';
      DropDash(cut[..47]);
    } else {
      DropDash(cut);
    }
  }
}
