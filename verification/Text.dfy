/** Trimming, byte lengths, numbers and slugs, as the service computes them. */
module Text {
  /** unicode.IsSpace. */
  predicate IsSpace(c: char) {
    || '\t' <= c <= '\r' || c == ' ' || c == '\U{85}' || c == '\U{a0}' || c == '\U{1680}'
    || '\U{2000}' <= c <= '\U{200a}' || c == '\U{2028}' || c == '\U{2029}'
    || c == '\U{202f}' || c == '\U{205f}' || c == '\U{3000}'
  }

  function TrimLeft(s: string): string {
    if s != "" && IsSpace(s[0]) then TrimLeft(s[1..]) else s
  }

  function TrimRight(s: string): string {
    if s != "" && IsSpace(s[|s| - 1]) then TrimRight(s[..|s| - 1]) else s
  }

  /** strings.TrimSpace. */
  function TrimSpace(s: string): string {
    TrimRight(TrimLeft(s))
  }

  predicate Blank(s: string) {
    TrimSpace(s) == ""
  }

  /** What TrimSpace leaves: no space at either end. */
  predicate Trimmed(s: string) {
    s == "" || (!IsSpace(s[0]) && !IsSpace(s[|s| - 1]))
  }

  lemma {:induction false} TrimRightKeepsHead(s: string)
    ensures TrimRight(s) == "" || (s != "" && TrimRight(s)[0] == s[0])
  {
    if s != "" && IsSpace(s[|s| - 1]) {
      TrimRightKeepsHead(s[..|s| - 1]);
    }
  }

  lemma {:induction false} TrimRightEnds(s: string)
    ensures TrimRight(s) == "" || !IsSpace(TrimRight(s)[|TrimRight(s)| - 1])
  {
    if s != "" && IsSpace(s[|s| - 1]) {
      TrimRightEnds(s[..|s| - 1]);
    }
  }

  lemma {:induction false} TrimLeftStarts(s: string)
    ensures TrimLeft(s) == "" || !IsSpace(TrimLeft(s)[0])
  {
    if s != "" && IsSpace(s[0]) {
      TrimLeftStarts(s[1..]);
    }
  }

  lemma TrimSpaceTrims(s: string)
    ensures Trimmed(TrimSpace(s))
  {
    TrimLeftStarts(s);
    TrimRightKeepsHead(TrimLeft(s));
    TrimRightEnds(TrimLeft(s));
  }

  /** len(s) in Go: the number of UTF-8 bytes. */
  function Utf8Len(s: string): nat {
    if s == "" then 0
    else
      var c := s[0];
      (if c < '\U{80}' then 1 else if c < '\U{800}' then 2 else if c < '\U{10000}' then 3 else 4)
      + Utf8Len(s[1..])
  }

  lemma {:induction false} Utf8AtLeast(s: string)
    ensures Utf8Len(s) >= |s|
  {
    if s != "" {
      Utf8AtLeast(s[1..]);
    }
  }

  lemma TrimmedStays(s: string)
    requires Trimmed(s)
    ensures TrimSpace(s) == s
  {
  }

  // ----- Numbered directory names -----

  predicate IsDigit(c: char) {
    '0' <= c <= '9'
  }

  function Digits(n: nat): (r: string)
    ensures r != "" && forall i :: 0 <= i < |r| ==> IsDigit(r[i])
  {
    var last := ['0' + (n % 10) as char];
    if n < 10 then last else Digits(n / 10) + last
  }

  /** The %03d verb. */
  function Pad3(n: nat): (r: string)
    ensures r != "" && forall i :: 0 <= i < |r| ==> IsDigit(r[i])
  {
    var d := Digits(n);
    if |d| == 1 then "00" + d else if |d| == 2 then "0" + d else d
  }

  /** The NNN-slug directory name of a phase, and the base name of a ticket directory. */
  function NumberedName(n: nat, slug: string): string {
    Pad3(n) + "-" + slug
  }

  /** name starts with the number n and its dash. */
  predicate HasNumber(name: string, n: nat) {
    Pad3(n) + "-" <= name
  }

  /** The first dash of such a name ends the number, so a name has one number. */
  lemma OneNumber(name: string, n: nat, m: nat)
    requires HasNumber(name, n) && HasNumber(name, m)
    ensures n == m
  {
    var i, j := |Pad3(n)|, |Pad3(m)|;
    assert name[i] == (Pad3(n) + "-")[i] && name[j] == (Pad3(m) + "-")[j];
    assert forall k :: 0 <= k < i ==> name[k] == (Pad3(n) + "-")[k];
    assert forall k :: 0 <= k < j ==> name[k] == (Pad3(m) + "-")[k];
    assert i == j;
    assert Pad3(n) == name[..i] == Pad3(m);
    Pad3Value(n);
    Pad3Value(m);
  }

  /** Equal names have equal numbers and equal slugs. */
  lemma NumberedNameDecodes(n: nat, s: string, m: nat, t: string)
    requires NumberedName(n, s) == NumberedName(m, t)
    ensures n == m && s == t
  {
    var a, b := NumberedName(n, s), NumberedName(m, t);
    OneNumber(a, n, m);
    assert a[|Pad3(n)| + 1..] == s && b[|Pad3(n)| + 1..] == t;
  }

  /** The number a digit string denotes. */
  ghost function Value(s: string): int {
    if s == "" then 0 else Value(s[..|s| - 1]) * 10 + (s[|s| - 1] as int - '0' as int)
  }

  lemma {:induction false} DigitsValue(n: nat)
    ensures Value(Digits(n)) == n
  {
    var d := Digits(n);
    assert d[|d| - 1] as int - '0' as int == n % 10;
    if n < 10 {
      assert d[..|d| - 1] == "";
    } else {
      DigitsValue(n / 10);
      assert d[..|d| - 1] == Digits(n / 10);
    }
  }

  lemma {:induction false} LeadingZero(s: string)
    ensures Value("0" + s) == Value(s)
  {
    var z := "0" + s;
    if s == "" {
      assert z[..0] == "" && z[0] == '0';
    } else {
      assert z[..|z| - 1] == "0" + s[..|s| - 1];
      LeadingZero(s[..|s| - 1]);
    }
  }

  lemma Pad3Value(n: nat)
    ensures Value(Pad3(n)) == n
  {
    var d := Digits(n);
    DigitsValue(n);
    LeadingZero(d);
    LeadingZero("0" + d);
    assert "0" + ("0" + d) == "00" + d;
  }

  // ----- Slugs -----

  const SLUG_MAX_LEN := 48

  predicate IsSlugChar(c: char) {
    'a' <= c <= 'z' || IsDigit(c)
  }

  /** Letters, digits and dashes, no two dashes side by side. */
  predicate SingleDashes(s: string) {
    && (forall i :: 0 <= i < |s| ==> IsSlugChar(s[i]) || s[i] == '-')
    && (forall i :: 0 < i < |s| ==> !(s[i - 1] == '-' && s[i] == '-'))
  }

  /** A path segment of runs of letters and digits, joined by single dashes. */
  predicate IsSlug(s: string) {
    s != "" && IsSlugChar(s[0]) && IsSlugChar(s[|s| - 1]) && SingleDashes(s)
  }

  /** The builder loop of MakeSlug: fold to lower-case ASCII, one dash per run of anything else. */
  function FoldSlug(s: string, out: string, prevDash: bool): string
    decreases |s|
  {
    if s == "" then out
    else if 'A' <= s[0] <= 'Z' then FoldSlug(s[1..], out + [s[0] - 'A' + 'a'], false)
    else if IsSlugChar(s[0]) then FoldSlug(s[1..], out + [s[0]], false)
    else if !prevDash then FoldSlug(s[1..], out + ['-'], true)
    else FoldSlug(s[1..], out, prevDash)
  }

  function TrimDashesRight(s: string): string {
    if s != "" && s[|s| - 1] == '-' then TrimDashesRight(s[..|s| - 1]) else s
  }

  /** MakeSlug. The left half of its Trim never finds a dash: the fold starts with prevDash set. */
  function MakeSlug(s: string): string {
    var out := TrimDashesRight(FoldSlug(s, "", true));
    if out == "" then "untitled"
    else if |out| > SLUG_MAX_LEN then
      var cut := TrimDashesRight(out[..SLUG_MAX_LEN]);
      if cut == "" then "untitled" else cut
    else out
  }

  predicate SlugPrefix(s: string) {
    (s == "" || IsSlugChar(s[0])) && SingleDashes(s)
  }

  /** prevDash is set whenever a dash may not follow. */
  lemma {:induction false} FoldSlugShape(s: string, out: string, prevDash: bool)
    requires SlugPrefix(out) && (out == "" || out[|out| - 1] == '-' ==> prevDash)
    ensures SlugPrefix(FoldSlug(s, out, prevDash))
    decreases |s|
  {
    if s != "" {
      if 'A' <= s[0] <= 'Z' {
        FoldSlugShape(s[1..], out + [s[0] - 'A' + 'a'], false);
      } else if IsSlugChar(s[0]) {
        FoldSlugShape(s[1..], out + [s[0]], false);
      } else if !prevDash {
        FoldSlugShape(s[1..], out + ['-'], true);
      } else {
        FoldSlugShape(s[1..], out, prevDash);
      }
    }
  }

  lemma {:induction false} TrimDashesShape(s: string)
    requires SlugPrefix(s)
    ensures SlugPrefix(TrimDashesRight(s)) && TrimDashesRight(s) <= s
    ensures TrimDashesRight(s) == "" || IsSlug(TrimDashesRight(s))
  {
    if s != "" && s[|s| - 1] == '-' {
      TrimDashesShape(s[..|s| - 1]);
    }
  }

  /** Whatever the title, the slug is a non-empty safe path segment of at most 48 characters. */
  lemma MakeSlugIsSlug(s: string)
    ensures IsSlug(MakeSlug(s)) && |MakeSlug(s)| <= SLUG_MAX_LEN
  {
    FoldSlugShape(s, "", true);
    TrimDashesShape(FoldSlug(s, "", true));
    var out := TrimDashesRight(FoldSlug(s, "", true));
    if |out| > SLUG_MAX_LEN {
      TrimDashesShape(out[..SLUG_MAX_LEN]);
    }
  }

  /** The letters and digits of a title in order, lower-cased. */
  function Folded(s: string): string {
    if s == "" then "" else FoldedChar(s[0]) + Folded(s[1..])
  }

  function FoldedChar(c: char): string {
    if 'A' <= c <= 'Z' then [c - 'A' + 'a'] else if IsSlugChar(c) then [c] else ""
  }

  lemma ConcatAssociates(a: string, b: string, c: string)
    ensures a + b + c == a + (b + c)
  {
  }

  lemma {:induction false} FoldedJoins(s: string, t: string)
    ensures Folded(s + t) == Folded(s) + Folded(t)
  {
    if s == "" {
      assert s + t == t;
    } else {
      hide FoldedChar;
      FoldedJoins(s[1..], t);
      assert (s + t)[1..] == s[1..] + t;
      ConcatAssociates(FoldedChar(s[0]), Folded(s[1..]), Folded(t));
    }
  }

  lemma {:induction false} FoldSlugKeeps(s: string, out: string, prevDash: bool)
    ensures Folded(FoldSlug(s, out, prevDash)) == Folded(out) + Folded(s)
    decreases |s|
  {
    if s != "" {
      if 'A' <= s[0] <= 'Z' {
        var c := s[0] - 'A' + 'a';
        FoldSlugKeeps(s[1..], out + [c], false);
        FoldedJoins(out, [c]);
      } else if IsSlugChar(s[0]) {
        FoldSlugKeeps(s[1..], out + [s[0]], false);
        FoldedJoins(out, [s[0]]);
      } else if !prevDash {
        FoldSlugKeeps(s[1..], out + ['-'], true);
        FoldedJoins(out, ['-']);
      } else {
        FoldSlugKeeps(s[1..], out, prevDash);
      }
    }
  }

  lemma {:induction false} TrimDashesKeeps(s: string)
    ensures Folded(TrimDashesRight(s)) == Folded(s) && TrimDashesRight(s) <= s
  {
    if s != "" && s[|s| - 1] == '-' {
      var n := |s| - 1;
      TrimDashesKeeps(s[..n]);
      FoldedJoins(s[..n], [s[n]]);
      assert s == s[..n] + [s[n]];
    }
  }

  /** The slug spells the title's letters and digits in order, cut at 48 characters; a title without
      any is untitled. */
  lemma MakeSlugSpells(s: string)
    ensures Folded(s) == "" ==> MakeSlug(s) == "untitled"
    ensures Folded(s) != "" ==> Folded(MakeSlug(s)) <= Folded(s)
    ensures Folded(s) != "" && |TrimDashesRight(FoldSlug(s, "", true))| <= SLUG_MAX_LEN ==>
              Folded(MakeSlug(s)) == Folded(s)
  {
    var fold := FoldSlug(s, "", true);
    var out := TrimDashesRight(fold);
    FoldSlugKeeps(s, "", true);
    TrimDashesKeeps(fold);
    FoldSlugShape(s, "", true);
    TrimDashesShape(fold);
    if |out| > SLUG_MAX_LEN {
      var head, tail := out[..SLUG_MAX_LEN], out[SLUG_MAX_LEN..];
      assert out == head + tail;
      FoldedJoins(head, tail);
      TrimDashesKeeps(head);
      TrimDashesShape(head);
      assert head[0] == out[0];
      FirstKept(head);
      var cut := TrimDashesRight(head);
      assert cut != "" && MakeSlug(s) == cut;
      assert Folded(cut) == Folded(head) <= Folded(head) + Folded(tail);
    } else if out != "" {
      FirstKept(out);
    }
  }

  lemma FirstKept(s: string)
    requires s != "" && IsSlugChar(s[0])
    ensures Folded(s) != ""
  {
  }
}
