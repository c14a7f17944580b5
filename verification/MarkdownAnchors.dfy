/**
 The anchors of a Markdown file and the verdict of the link checker. Characters beyond ASCII are
 treated as neither letters nor spaces.
 */
module MarkdownAnchors {
  import opened Basics
  import opened Decimal

  // ---------------------------------------------------------------------------------------------
  // Slugs
  // ---------------------------------------------------------------------------------------------

  predicate IsSpace(c: char) {
    c == ' ' || '\t' <= c <= '\r' || 28 as char <= c <= 31 as char
  }

  predicate IsLetterOrDigit(c: char) {
    'a' <= c <= 'z' || 'A' <= c <= 'Z' || '0' <= c <= '9'
  }

  function Lower(c: char): char {
    if 'A' <= c <= 'Z' then (c as int + 32) as char else c
  }

  /** The distance to the first closing bracket, or the length of the text when there is none. */
  function ToBracket(text: string): (n: nat)
    ensures n <= |text| && (n < |text| ==> text[n] == '>') && '>' !in text[..n]
  {
    if text == "" || text[0] == '>' then 0 else 1 + ToBracket(text[1..])
  }

  /** Drops every bracketed part with at least one character inside. */
  function WithoutTags(text: string): string
    decreases |text|
  {
    if text == "" then ""
    else
      var n := ToBracket(text[1..]);
      if text[0] == '<' && 0 < n < |text| - 1 then WithoutTags(text[n + 2..]) else [text[0]] + WithoutTags(text[1..])
  }

  predicate IsMark(c: char) {
    c == '`' || c == '*' || c == '_' || c == '~'
  }

  function WithoutMarks(text: string): string {
    if text == "" then "" else (if IsMark(text[0]) then "" else [text[0]]) + WithoutMarks(text[1..])
  }

  predicate IsKept(c: char) {
    IsLetterOrDigit(c) || c == '_' || c == '-' || c == ' '
  }

  function LowerKept(text: string): string {
    if text == "" then ""
    else (if IsKept(Lower(text[0])) then [Lower(text[0])] else "") + LowerKept(text[1..])
  }

  function StripLeft(text: string): (r: string)
    ensures |r| <= |text| && (r == "" || !IsSpace(r[0]))
    ensures forall c | c in r :: c in text
  {
    if text != "" && IsSpace(text[0]) then StripLeft(text[1..]) else text
  }

  function Strip(text: string): (r: string)
    ensures forall c | c in r :: c in text
    decreases |text|
  {
    var t := StripLeft(text);
    if t != "" && IsSpace(t[|t| - 1]) then Strip(t[..|t| - 1]) else t
  }

  /** Each run of spaces becomes one hyphen. */
  function Hyphenate(text: string): string
    decreases |text|
  {
    if text == "" then ""
    else if IsSpace(text[0]) then "-" + Hyphenate(StripLeft(text[1..]))
    else [text[0]] + Hyphenate(text[1..])
  }

  function GithubSlug(text: string): string {
    Hyphenate(Strip(LowerKept(WithoutMarks(WithoutTags(text)))))
  }

  const UPPER := "ABCDEFGHIJKLMNOPQRSTUVWXYZ"
  const LOWER := "abcdefghijklmnopqrstuvwxyz"

  lemma CapitalsAre()
    ensures |UPPER| == 26 && forall i | 0 <= i < 26 :: UPPER[i] as int == 65 + i
    ensures forall c: char :: c in UPPER <==> 'A' <= c <= 'Z'
  {
    forall c: char | 'A' <= c <= 'Z' ensures c in UPPER {
      assert UPPER[c as int - 65] == c;
    }
  }

  lemma SmallLettersAre()
    ensures |LOWER| == 26 && forall i | 0 <= i < 26 :: LOWER[i] as int == 97 + i
    ensures forall c: char :: c in LOWER <==> 'a' <= c <= 'z'
  {
    forall c: char | 'a' <= c <= 'z' ensures c in LOWER {
      assert LOWER[c as int - 97] == c;
    }
  }

  /** Which characters are kept, which are marks, and how the letters are lowered. */
  lemma CharactersExactly(c: char, i: nat)
    ensures IsKept(c) <==> c in UPPER || c in LOWER || c in "0123456789" || c in "_- "
    ensures IsMark(c) <==> c in "`*_~"
    ensures i < 26 ==> Lower(UPPER[i]) == LOWER[i]
    ensures c !in UPPER ==> Lower(c) == c
  {
    CapitalsAre();
    SmallLettersAre();
    if '0' <= c <= '9' {
      assert "0123456789"[c as int - 48] == c;
    }
    assert c == '_' || c == '-' || c == ' ' ==> c == "_- "[if c == '_' then 0 else if c == '-' then 1 else 2];
    assert IsMark(c) ==> c == "`*_~"[if c == '`' then 0 else if c == '*' then 1 else if c == '_' then 2 else 3];
  }

  predicate IsSlugCharacter(c: char) {
    'a' <= c <= 'z' || '0' <= c <= '9' || c == '-'
  }

  predicate IsSlug(text: string) {
    forall c | c in text :: IsSlugCharacter(c)
  }

  lemma {:induction false} MarksAreGone(text: string)
    ensures '_' !in WithoutMarks(text)
  {
    if text != "" {
      MarksAreGone(text[1..]);
    }
  }

  lemma {:induction false} LowerKeptIsPlain(text: string)
    requires '_' !in text
    ensures forall c | c in LowerKept(text) :: IsSlugCharacter(c) || c == ' '
  {
    if text != "" {
      assert text[0] in text;
      LowerKeptIsPlain(text[1..]);
    }
  }

  lemma {:induction false} HyphenateIsSlug(text: string)
    requires forall c | c in text :: IsSlugCharacter(c) || c == ' '
    ensures IsSlug(Hyphenate(text))
    decreases |text|
  {
    if text != "" {
      assert text[0] in text;
      if IsSpace(text[0]) {
        HyphenateIsSlug(StripLeft(text[1..]));
      } else {
        HyphenateIsSlug(text[1..]);
      }
    }
  }

  lemma {:induction false} SlugStaysTagless(text: string)
    requires IsSlug(text)
    ensures WithoutTags(text) == text && WithoutMarks(text) == text && LowerKept(text) == text && Hyphenate(text) == text
  {
    if text != "" {
      assert IsSlugCharacter(text[0]) && text == [text[0]] + text[1..];
      SlugStaysTagless(text[1..]);
    }
  }

  lemma SlugStaysStripped(text: string)
    requires IsSlug(text)
    ensures Strip(text) == text
  {
    if text != "" {
      assert IsSlugCharacter(text[0]) && IsSlugCharacter(text[|text| - 1]);
    }
  }

  /**
   A slug has only lower-case letters, digits and hyphens, and the texts made of these are exactly the
   ones that stay as they are.
   */
  lemma SlugsAreTheFixedPoints(text: string)
    ensures IsSlug(GithubSlug(text))
    ensures GithubSlug(text) == text <==> IsSlug(text)
  {
    var unmarked := WithoutMarks(WithoutTags(text));
    MarksAreGone(WithoutTags(text));
    LowerKeptIsPlain(unmarked);
    HyphenateIsSlug(Strip(LowerKept(unmarked)));
    if IsSlug(text) {
      SlugStaysTagless(text);
      SlugStaysStripped(text);
    }
  }

  lemma SlugIsIdempotent(text: string)
    ensures GithubSlug(GithubSlug(text)) == GithubSlug(text)
  {
    SlugsAreTheFixedPoints(text);
    SlugsAreTheFixedPoints(GithubSlug(text));
  }

  // What a slug is, step by step: TagIsDropped, PunctuationIsDropped, CaseIsDropped and the
  // two lemmas about blanks reduce every text without stray brackets to words of slug characters.

  lemma {:induction false} TaglessFront(a: string, b: string)
    requires '<' !in a
    ensures WithoutTags(a + b) == a + WithoutTags(b)
  {
    if a == "" {
      assert a + b == b;
    } else {
      assert a[0] in a && (a + b)[1..] == a[1..] + b;
      TaglessFront(a[1..], b);
    }
  }

  lemma Tagless(text: string)
    requires '<' !in text
    ensures WithoutTags(text) == text
  {
    TaglessFront(text, "");
    assert text + "" == text;
  }

  function Kept(text: string): string {
    LowerKept(WithoutMarks(text))
  }

  function KeptOne(c: char): string {
    if IsMark(c) || !IsKept(Lower(c)) then "" else [Lower(c)]
  }

  lemma {:induction false} MarksSplit(a: string, b: string)
    ensures WithoutMarks(a + b) == WithoutMarks(a) + WithoutMarks(b)
  {
    if a == "" {
      assert a + b == b;
    } else {
      assert (a + b)[1..] == a[1..] + b;
      MarksSplit(a[1..], b);
    }
  }

  lemma LowerKeptStep(c: char, rest: string)
    ensures LowerKept([c] + rest) == LowerKept([c]) + LowerKept(rest)
  {
    assert ([c] + rest)[1..] == rest && [c][1..] == "";
  }

  lemma Associates(a: string, b: string, c: string)
    ensures a + (b + c) == (a + b) + c
  {
  }

  lemma {:induction false} LowerKeptSplits(a: string, b: string)
    ensures LowerKept(a + b) == LowerKept(a) + LowerKept(b)
  {
    if a == "" {
      assert a + b == b;
    } else {
      var head, rest := [a[0]], a[1..];
      LowerKeptSplits(rest, b);
      assert a == head + rest && a + b == head + (rest + b);
      LowerKeptStep(a[0], rest);
      LowerKeptStep(a[0], rest + b);
      Associates(LowerKept(head), LowerKept(rest), LowerKept(b));
    }
  }

  lemma KeptSplits(a: string, b: string)
    ensures Kept(a + b) == Kept(a) + Kept(b)
  {
    MarksSplit(a, b);
    LowerKeptSplits(WithoutMarks(a), WithoutMarks(b));
  }

  lemma KeptStep(text: string)
    requires text != ""
    ensures Kept(text) == KeptOne(text[0]) + Kept(text[1..])
  {
    var rest := WithoutMarks(text[1..]);
    assert ([text[0]] + rest)[1..] == rest && "" + rest == rest;
    assert "" + LowerKept(rest) == LowerKept(rest);
  }

  lemma {:induction false} BracketAt(tag: string, rest: string)
    requires '>' !in tag
    ensures ToBracket(tag + (">" + rest)) == |tag|
  {
    if tag == "" {
      assert tag + (">" + rest) == ">" + rest;
    } else {
      assert tag[0] in tag && (tag + (">" + rest))[1..] == tag[1..] + (">" + rest);
      BracketAt(tag[1..], rest);
    }
  }

  /** The first bracketed part does not matter, as long as something is inside. */
  lemma TagIsDropped(a: string, tag: string, b: string)
    requires '<' !in a && '>' !in tag && tag != ""
    ensures GithubSlug(a + ("<" + (tag + (">" + b)))) == GithubSlug(a + b)
  {
    var bracketed := "<" + (tag + (">" + b));
    TaglessFront(a, bracketed);
    TaglessFront(a, b);
    assert bracketed[1..] == tag + (">" + b);
    BracketAt(tag, b);
    assert bracketed[|tag| + 2..] == b;
  }

  /** In a text without brackets, a character that is a mark, or neither kept nor a space, does not matter. */
  lemma PunctuationIsDropped(a: string, c: char, b: string)
    requires '<' !in a && '<' !in b && c != '<' && (IsMark(c) || !IsKept(Lower(c)))
    ensures GithubSlug(a + ([c] + b)) == GithubSlug(a + b)
  {
    Tagless(a + ([c] + b));
    Tagless(a + b);
    KeptSplits(a, [c] + b);
    KeptSplits(a, b);
    KeptStep([c] + b);
    assert ([c] + b)[1..] == b && "" + Kept(b) == Kept(b);
    assert Kept(a + ([c] + b)) == Kept(a + b);
  }

  function Lowered(text: string): string {
    if text == "" then "" else [Lower(text[0])] + Lowered(text[1..])
  }

  lemma {:induction false} LoweringKeepsKept(text: string)
    ensures Kept(Lowered(text)) == Kept(text) && ('<' !in text ==> '<' !in Lowered(text))
  {
    if text != "" {
      var c, rest := text[0], text[1..];
      LoweringKeepsKept(rest);
      assert text == [c] + rest;
      KeptStep(text);
      KeptStep(Lowered(text));
      assert Lowered(text)[1..] == Lowered(rest) && Lower(Lower(c)) == Lower(c) && IsMark(Lower(c)) == IsMark(c);
    }
  }

  /** In a text without brackets, upper and lower case do not matter. */
  lemma CaseIsDropped(text: string)
    requires '<' !in text
    ensures GithubSlug(Lowered(text)) == GithubSlug(text)
  {
    LoweringKeepsKept(text);
    Tagless(text);
    Tagless(Lowered(text));
  }

  lemma {:induction false} LoweredAt(text: string)
    ensures |Lowered(text)| == |text| && forall k | 0 <= k < |text| :: Lowered(text)[k] == Lower(text[k])
  {
    if text != "" {
      LoweredAt(text[1..]);
    }
  }

  lemma DigitsAndHyphen(c: char)
    ensures c in "0123456789-" ==> '0' <= c <= '9' || c == '-'
  {
  }

  /** A word of letters, digits and hyphens is its own slug, but for the capitals, which become small letters. */
  lemma WordIsItsSlug(text: string)
    requires forall c | c in text :: c in UPPER || c in LOWER || c in "0123456789-"
    ensures |GithubSlug(text)| == |text|
    ensures forall k, i | 0 <= k < |text| && 0 <= i < 26 && text[k] == UPPER[i] :: GithubSlug(text)[k] == LOWER[i]
    ensures forall k | 0 <= k < |text| && text[k] !in UPPER :: GithubSlug(text)[k] == text[k]
  {
    CapitalsAre();
    SmallLettersAre();
    LoweredAt(text);
    forall c | c in Lowered(text) ensures IsSlugCharacter(c) {
      var k :| 0 <= k < |text| && Lowered(text)[k] == c;
      assert text[k] in text;
      DigitsAndHyphen(text[k]);
    }
    SlugsAreTheFixedPoints(Lowered(text));
    CaseIsDropped(text);
  }

  /** Slug characters and blanks. */
  predicate IsPlain(text: string) {
    forall c | c in text :: IsSlugCharacter(c) || c == ' '
  }

  predicate IsBlank(text: string) {
    forall i | 0 <= i < |text| :: text[i] == ' '
  }

  predicate StartsAndEnds(text: string) {
    text != "" && !IsSpace(text[0]) && !IsSpace(text[|text| - 1])
  }

  lemma {:induction false} PlainStays(text: string)
    requires IsPlain(text)
    ensures WithoutTags(text) == text && WithoutMarks(text) == text && LowerKept(text) == text
  {
    if text != "" {
      assert text[0] in text && text == [text[0]] + text[1..];
      PlainStays(text[1..]);
    }
  }

  lemma {:induction false} BlanksAreStripped(blank: string, text: string)
    requires IsBlank(blank)
    ensures StripLeft(blank + text) == StripLeft(text)
  {
    if blank == "" {
      assert blank + text == text;
    } else {
      assert (blank + text)[1..] == blank[1..] + text;
      BlanksAreStripped(blank[1..], text);
    }
  }

  lemma {:induction false} EndBlanksAreStripped(text: string, blank: string)
    requires StartsAndEnds(text) && IsBlank(blank)
    ensures Strip(text + blank) == text
    decreases |blank|
  {
    var all := text + blank;
    assert all[0] == text[0] && StripLeft(all) == all;
    if blank == "" {
      assert all == text;
    } else {
      assert all[|all| - 1] == blank[|blank| - 1];
      assert all[..|all| - 1] == text + blank[..|blank| - 1];
      EndBlanksAreStripped(text, blank[..|blank| - 1]);
    }
  }

  /** Blanks around the text do not matter. */
  lemma BlanksAroundAreDropped(before: string, text: string, after: string)
    requires IsBlank(before) && IsBlank(after) && IsPlain(text) && StartsAndEnds(text)
    ensures GithubSlug(before + (text + after)) == GithubSlug(text)
  {
    PlainStays(before + (text + after));
    PlainStays(text);
    BlanksAreStripped(before, text + after);
    EndBlanksAreStripped(text, after);
    EndBlanksAreStripped(text, "");
    assert text + "" == text;
    assert StripLeft(text + after) == text + after;
    StripIgnoresLeft(before + (text + after), text + after);
  }

  lemma StripIgnoresLeft(a: string, b: string)
    requires StripLeft(a) == b == StripLeft(b)
    ensures Strip(a) == Strip(b)
  {
  }

  lemma {:induction false} StripLeftThenMore(a: string, b: string)
    requires a != "" && !IsSpace(a[|a| - 1])
    ensures StripLeft(a + b) == StripLeft(a) + b && StripLeft(a) != "" && StripLeft(a)[|StripLeft(a)| - 1] == a[|a| - 1]
  {
    if IsSpace(a[0]) {
      assert (a + b)[1..] == a[1..] + b;
      StripLeftThenMore(a[1..], b);
    }
  }

  lemma HyphenateBlanks(blank: string, b: string)
    requires IsBlank(blank) && blank != "" && b != "" && !IsSpace(b[0])
    ensures Hyphenate(blank + b) == "-" + Hyphenate(b)
  {
    assert (blank + b)[1..] == blank[1..] + b;
    BlanksAreStripped(blank[1..], b);
  }

  lemma {:induction false} HyphenateSplits(a: string, more: string)
    requires a != "" && !IsSpace(a[|a| - 1])
    ensures Hyphenate(a + more) == Hyphenate(a) + Hyphenate(more)
    decreases |a|
  {
    assert (a + more)[0] == a[0] && (a + more)[1..] == a[1..] + more;
    if IsSpace(a[0]) {
      StripLeftThenMore(a[1..], more);
      HyphenateSplits(StripLeft(a[1..]), more);
    } else if |a| == 1 {
      assert a[1..] + more == more;
    } else {
      HyphenateSplits(a[1..], more);
    }
  }

  /** Blanks between two texts become one hyphen between their slugs. */
  lemma BlanksBetweenBecomeAHyphen(a: string, blank: string, b: string)
    requires IsPlain(a) && IsPlain(b) && StartsAndEnds(a) && StartsAndEnds(b) && IsBlank(blank) && blank != ""
    ensures GithubSlug(a + (blank + b)) == GithubSlug(a) + ("-" + GithubSlug(b))
  {
    var all := a + (blank + b);
    PlainStays(a);
    PlainStays(b);
    PlainStays(all);
    assert all[0] == a[0] && all[|all| - 1] == b[|b| - 1];
    EndBlanksAreStripped(a, "");
    EndBlanksAreStripped(b, "");
    EndBlanksAreStripped(all, "");
    assert a + "" == a && b + "" == b && all + "" == all;
    HyphenateSplits(a, blank + b);
    HyphenateBlanks(blank, b);
  }

  // ---------------------------------------------------------------------------------------------
  // Lines
  // ---------------------------------------------------------------------------------------------

  predicate IsFence(line: string) {
    var t := StripLeft(line);
    "```" <= t || "~~~" <= t
  }

  /** A space, a tab, one of the four line and page breaks of ASCII, or one of its four separators. */
  ghost predicate IsWhite(c: char) {
    || c == ' ' || c == '\t' || c == '\n' || c == 11 as char || c == 12 as char || c == '\r'
    || c == 28 as char || c == 29 as char || c == 30 as char || c == 31 as char
  }

  ghost predicate AllWhite(text: string) {
    forall c | c in text :: IsWhite(c)
  }

  lemma SpacesAreWhite(text: string)
    ensures AllSpace(text) <==> AllWhite(text)
  {
  }

  lemma {:induction false} StripLeftStops(text: string) returns (k: nat)
    ensures k <= |text| && AllSpace(text[..k]) && StripLeft(text) == text[k..]
  {
    k := 0;
    if text != "" && IsSpace(text[0]) {
      k := StripLeftStops(text[1..]);
      assert text[..k + 1] == [text[0]] + text[1..][..k];
      k := k + 1;
    }
  }

  lemma {:induction false} StripLeftAt(text: string, k: nat)
    requires k < |text| && AllSpace(text[..k]) && !IsSpace(text[k])
    ensures StripLeft(text) == text[k..]
  {
    if k > 0 {
      assert text[0] in text[..k];
      assert forall c | c in text[1..][..k - 1] :: c in text[..k];
      StripLeftAt(text[1..], k - 1);
    }
  }

  /** Blanks, and then three backticks or three tildes at place k. */
  ghost predicate IsFenceAt(line: string, k: nat) {
    k + 3 <= |line| && AllWhite(line[..k]) && (line[k..k + 3] == "```" || line[k..k + 3] == "~~~")
  }

  lemma FenceStandsAt(line: string) returns (k: nat)
    requires IsFence(line)
    ensures IsFenceAt(line, k)
  {
    k := StripLeftStops(line);
    SpacesAreWhite(line[..k]);
    assert line[k..][..3] == line[k..k + 3];
  }

  lemma StandsAtIsFence(line: string, k: nat)
    requires IsFenceAt(line, k)
    ensures IsFence(line)
  {
    SpacesAreWhite(line[..k]);
    assert line[k] == line[k..k + 3][0];
    StripLeftAt(line, k);
    assert line[k..][..3] == line[k..k + 3];
  }

  /** A fence line has blanks, and then three backticks or three tildes; what follows them does not matter. */
  lemma FenceExactly(line: string)
    ensures IsFence(line) <==> exists k: nat :: IsFenceAt(line, k)
  {
    if IsFence(line) {
      var k := FenceStandsAt(line);
    }
    if k: nat :| IsFenceAt(line, k) {
      StandsAtIsFence(line, k);
    }
  }

  function Run(text: string, c: char): (n: nat)
    ensures n <= |text|
  {
    if text != "" && text[0] == c then 1 + Run(text[1..], c) else 0
  }

  function SpaceRun(text: string): (n: nat)
    ensures n <= |text|
  {
    if text != "" && IsSpace(text[0]) then 1 + SpaceRun(text[1..]) else 0
  }

  /** Whether the text is what may follow a heading: spaces, number signs, spaces. */
  predicate IsClosing(text: string) {
    var t := text[SpaceRun(text)..];
    var u := t[Run(t, '#')..];
    SpaceRun(u) == |u|
  }

  /** The shortest text in front, of at least n characters, that leaves a closing. */
  function ShortestText(text: string, n: nat): string
    requires n <= |text|
    decreases |text| - n
  {
    if n == |text| || IsClosing(text[n..]) then text[..n] else ShortestText(text, n + 1)
  }

  /** What is left of the text behind so many spaces; one of them is given back when nothing else is left. */
  function TextBehind(after: string, spaces: nat): Option<string>
    requires spaces <= |after|
  {
    if spaces == 0 then None
    else if spaces < |after| then Some(ShortestText(after[spaces..], 1))
    else if spaces >= 2 then Some(after[spaces - 1..])
    else None
  }

  /** The text of a heading. The spaces after the number signs are taken greedily. */
  function HeadingText(line: string): Option<string> {
    var level := Run(line, '#');
    if 1 <= level <= 6 then TextBehind(line[level..], SpaceRun(line[level..])) else None
  }

  predicate AllSpace(text: string) {
    forall c | c in text :: IsSpace(c)
  }

  lemma {:induction false} SpaceRunIsSpace(text: string)
    ensures AllSpace(text[..SpaceRun(text)])
  {
    if text != "" && IsSpace(text[0]) {
      SpaceRunIsSpace(text[1..]);
      assert text[..SpaceRun(text)] == [text[0]] + text[1..][..SpaceRun(text[1..])];
    }
  }

  lemma {:induction false} RunIsSigns(text: string)
    ensures forall c | c in text[..Run(text, '#')] :: c == '#'
  {
    if text != "" && text[0] == '#' {
      RunIsSigns(text[1..]);
      assert text[..Run(text, '#')] == [text[0]] + text[1..][..Run(text[1..], '#')];
    }
  }

  lemma ClosingHasNoText(text: string, c: char)
    requires IsClosing(text) && c in text
    ensures IsSpace(c) || c == '#'
  {
    var t := text[SpaceRun(text)..];
    var u := t[Run(t, '#')..];
    SpaceRunIsSpace(text);
    RunIsSigns(t);
    SpaceRunIsSpace(u);
    assert text == text[..SpaceRun(text)] + (t[..Run(t, '#')] + u) && u == u[..SpaceRun(u)];
  }

  lemma {:induction false} RunOfSigns(level: nat, rest: string)
    requires rest != "" && rest[0] != '#'
    ensures Run(seq(level, i => '#') + rest, '#') == level
  {
    var signs := seq(level, i => '#');
    if level == 0 {
      assert signs + rest == rest;
    } else {
      assert (signs + rest)[1..] == seq(level - 1, i => '#') + rest;
      RunOfSigns(level - 1, rest);
    }
  }

  lemma {:induction false} SpaceRunOfGap(gap: string, rest: string)
    requires AllSpace(gap) && rest != "" && !IsSpace(rest[0])
    ensures SpaceRun(gap + rest) == |gap|
  {
    if gap == "" {
      assert gap + rest == rest;
    } else {
      assert gap[0] in gap && (gap + rest)[1..] == gap[1..] + rest;
      SpaceRunOfGap(gap[1..], rest);
    }
  }

  lemma {:induction false} ShortestIs(all: string, m: nat, n: nat)
    requires n <= m <= |all| && IsClosing(all[m..])
    requires forall k | n <= k < m :: !IsClosing(all[k..])
    ensures ShortestText(all, n) == all[..m]
    decreases m - n
  {
    if n < m {
      assert !IsClosing(all[n..]);
      ShortestIs(all, m, n + 1);
    }
  }

  lemma TextIsShortest(text: string, closing: string)
    requires text != "" && !IsSpace(text[|text| - 1]) && text[|text| - 1] != '#' && IsClosing(closing)
    ensures ShortestText(text + closing, 1) == text
  {
    var all := text + closing;
    forall k | 1 <= k < |text| ensures !IsClosing(all[k..]) {
      assert all[k..][|text| - 1 - k] == text[|text| - 1];
      if IsClosing(all[k..]) {
        ClosingHasNoText(all[k..], text[|text| - 1]);
      }
    }
    assert all[|text|..] == closing && all[..|text|] == text;
    ShortestIs(all, |text|, 1);
  }

  lemma {:induction false} AllSpaceRun(text: string)
    requires AllSpace(text)
    ensures SpaceRun(text) == |text|
  {
    if text != "" {
      assert text[0] in text && forall c | c in text[1..] :: c in text;
      AllSpaceRun(text[1..]);
    }
  }

  lemma ClosingIs(before: string, signs: nat, behind: string)
    requires AllSpace(before) && AllSpace(behind)
    ensures IsClosing(before + (seq(signs, i => '#') + behind))
  {
    var rest := seq(signs, i => '#') + behind;
    if signs == 0 {
      assert rest == behind && AllSpace(before + rest);
      AllSpaceRun(before + rest);
    } else {
      SpaceRunOfGap(before, rest);
      assert (before + rest)[|before|..] == rest;
      if behind == "" {
        assert rest == seq(signs, i => '#');
        OnlySigns(signs);
      } else {
        assert behind[0] in behind;
        RunOfSigns(signs, behind);
      }
      assert rest[signs..] == behind;
      AllSpaceRun(behind);
    }
  }

  lemma {:induction false} OnlySigns(n: nat)
    ensures Run(seq(n, i => '#'), '#') == n
  {
    if n > 0 {
      assert seq(n, i => '#')[1..] == seq(n - 1, i => '#');
      OnlySigns(n - 1);
    }
  }

  /**
   The text of a heading is read back from a line made of one to six signs, a gap, the text and a closing:
   blanks, any number of signs, and blanks.
   */
  lemma HeadingReadsBack(level: nat, gap: string, text: string, before: string, signs: nat, behind: string)
    requires 1 <= level <= 6 && gap != "" && AllWhite(gap) && AllWhite(before) && AllWhite(behind)
    requires text != "" && !IsWhite(text[0]) && !IsWhite(text[|text| - 1]) && text[|text| - 1] != '#'
    ensures HeadingText(seq(level, i => '#') + (gap + (text + (before + (seq(signs, i => '#') + behind))))) == Some(text)
  {
    var closing := before + (seq(signs, i => '#') + behind);
    SpacesAreWhite(gap);
    SpacesAreWhite(before);
    SpacesAreWhite(behind);
    ClosingIs(before, signs, behind);
    HeadingIsRead(level, gap, text, closing);
  }

  lemma HeadingIsRead(level: nat, gap: string, text: string, closing: string)
    requires 1 <= level <= 6 && gap != "" && AllSpace(gap) && IsClosing(closing)
    requires text != "" && !IsSpace(text[0]) && !IsSpace(text[|text| - 1]) && text[|text| - 1] != '#'
    ensures HeadingText(seq(level, i => '#') + (gap + (text + closing))) == Some(text)
  {
    var line, after := seq(level, i => '#') + (gap + (text + closing)), gap + (text + closing);
    assert gap[0] in gap && after[0] == gap[0];
    RunOfSigns(level, after);
    assert line[level..] == after;
    SpaceRunOfGap(gap, text + closing);
    assert after[|gap|..] == text + closing;
    TextIsShortest(text, closing);
  }

  /** From this place on the line holds blanks and signs only. */
  ghost predicate EndsEmpty(line: string, from: nat) {
    forall k | from <= k < |line| :: IsWhite(line[k]) || line[k] == '#'
  }

  /** So many signs, then so many blanks. */
  ghost predicate StartsHeading(line: string, level: nat, gap: nat) {
    && level + gap <= |line| && (forall k | 0 <= k < level :: line[k] == '#')
    && forall k | level <= k < level + gap :: IsWhite(line[k])
  }

  lemma {:induction false} SignsAreRun(text: string)
    ensures forall k | 0 <= k < Run(text, '#') :: text[k] == '#'
  {
    if text != "" && text[0] == '#' {
      SignsAreRun(text[1..]);
      assert forall k | 1 <= k < |text| :: text[k] == text[1..][k - 1];
    }
  }

  lemma {:induction false} SpacesAreRun(text: string)
    ensures forall k | 0 <= k < SpaceRun(text) :: IsWhite(text[k])
  {
    if text != "" && IsSpace(text[0]) {
      SpacesAreRun(text[1..]);
      assert forall k | 1 <= k < |text| :: text[k] == text[1..][k - 1];
    }
  }

  lemma ClosingEndsEmpty(text: string, from: nat)
    requires from <= |text| && IsClosing(text[from..])
    ensures EndsEmpty(text, from)
  {
    forall k | from <= k < |text| ensures IsWhite(text[k]) || text[k] == '#' {
      assert text[from..][k - from] == text[k];
      ClosingHasNoText(text[from..], text[k]);
    }
  }

  lemma {:induction false} ShortestEndsEmpty(text: string, n: nat) returns (m: nat)
    requires n <= |text|
    ensures n <= m <= |text| && ShortestText(text, n) == text[..m] && EndsEmpty(text, m)
    decreases |text| - n
  {
    m := n;
    if n < |text| {
      if IsClosing(text[n..]) {
        ClosingEndsEmpty(text, n);
      } else {
        m := ShortestEndsEmpty(text, n + 1);
      }
    }
  }

  lemma RestEndsEmpty(line: string, from: nat, m: nat)
    requires from <= |line| && EndsEmpty(line[from..], m)
    ensures EndsEmpty(line, from + m)
  {
    forall k | from + m <= k < |line| ensures IsWhite(line[k]) || line[k] == '#' {
      assert line[from..][k - from] == line[k];
    }
  }

  lemma SignsThenSpaces(line: string, level: nat, gap: nat)
    requires level == Run(line, '#') && gap <= SpaceRun(line[level..])
    ensures StartsHeading(line, level, gap)
  {
    SignsAreRun(line);
    SpacesAreRun(line[level..]);
    forall k | level <= k < level + gap ensures IsWhite(line[k]) {
      assert line[level..][k - level] == line[k];
    }
  }

  /** The text stands behind all blanks, or is the last of them, and nothing but blanks and signs is behind it. */
  lemma TextIsBehind(after: string, spaces: nat) returns (gap: nat, end: nat)
    requires spaces <= |after| && TextBehind(after, spaces).Some?
    ensures 1 <= gap < end <= |after| && gap <= spaces && EndsEmpty(after, end)
    ensures TextBehind(after, spaces) == Some(after[gap..end])
  {
    if spaces < |after| {
      var m := ShortestEndsEmpty(after[spaces..], 1);
      gap, end := spaces, spaces + m;
      assert after[spaces..][..m] == after[gap..end];
      RestEndsEmpty(after, spaces, m);
    } else {
      gap, end := spaces - 1, |after|;
      assert after[gap..] == after[gap..end];
    }
  }

  lemma SliceOfSlice(line: string, level: nat, gap: nat, end: nat)
    requires gap <= end && level + end <= |line|
    ensures line[level..][gap..end] == line[level + gap..level + end]
  {
  }

  lemma TextInLine(line: string, gap: nat, end: nat)
    requires var after := line[Run(line, '#')..];
             && 1 <= Run(line, '#') <= 6 && gap <= end <= |after|
             && TextBehind(after, SpaceRun(after)) == Some(after[gap..end])
    ensures HeadingText(line) == Some(line[Run(line, '#')..][gap..end])
  {
  }

  /**
   Conversely, a line that is read as a heading starts with one to six signs and a blank, and behind its
   text it holds nothing but blanks and signs.
   */
  lemma HeadingIsALine(line: string) returns (level: nat, gap: nat, end: nat)
    requires HeadingText(line).Some?
    ensures 1 <= level <= 6 && gap >= 1 && StartsHeading(line, level, gap)
    ensures level + gap < end <= |line| && EndsEmpty(line, end)
    ensures HeadingText(line) == Some(line[level + gap..end])
  {
    level := Run(line, '#');
    var spaces := SpaceRun(line[level..]);
    gap, end := TextIsBehind(line[level..], spaces);
    RestEndsEmpty(line, level, end);
    SignsThenSpaces(line, level, gap);
    TextInLine(line, gap, end);
    SliceOfSlice(line, level, gap, end);
    end := level + end;
  }

  lemma {:induction false} SignsThenOther(line: string, level: nat)
    requires level < |line| && (forall k | 0 <= k < level :: line[k] == '#') && line[level] != '#'
    ensures Run(line, '#') == level
  {
    if level > 0 {
      SignsThenOther(line[1..], level - 1);
    }
  }

  /** A line is a heading exactly if it has one to six signs, a blank, and anything behind them. */
  lemma HeadingExactly(line: string)
    ensures HeadingText(line).Some? <==>
            exists level: nat | 1 <= level <= 6 && level + 2 <= |line| :: StartsHeading(line, level, 1)
  {
    if HeadingText(line).Some? {
      var level, gap, end := HeadingIsALine(line);
      assert StartsHeading(line, level, 1);
    }
    if level: nat :| 1 <= level <= 6 && level + 2 <= |line| && StartsHeading(line, level, 1) {
      SignsThenOther(line, level);
      assert IsSpace(line[level..][0]);
    }
  }

  /** A line of signs and blanks is a heading with a blank for its text, if it has more than one. */
  lemma BlankHeadingReadsBack(level: nat, gap: string)
    requires 1 <= level <= 6 && gap != "" && AllWhite(gap)
    ensures HeadingText(seq(level, i => '#') + gap) == if |gap| == 1 then None else Some([gap[|gap| - 1]])
  {
    SpacesAreWhite(gap);
    assert gap[0] in gap;
    RunOfSigns(level, gap);
    assert (seq(level, i => '#') + gap)[level..] == gap;
    AllSpaceRun(gap);
    assert gap[|gap| - 1..] == [gap[|gap| - 1]];
  }

  function Fences(lines: seq<string>, n: nat): nat
    requires n <= |lines|
  {
    if n == 0 then 0 else Fences(lines, n - 1) + (if IsFence(lines[n - 1]) then 1 else 0)
  }

  /** An odd number of fence lines comes before line i. */
  predicate InFence(lines: seq<string>, i: nat)
    requires i <= |lines|
  {
    Fences(lines, i) % 2 == 1
  }

  lemma FenceFlips(lines: seq<string>, i: nat)
    requires i < |lines|
    ensures InFence(lines, i + 1) == (InFence(lines, i) != IsFence(lines[i]))
  {
  }

  /** A line outside of fenced blocks that is not a fence line itself. */
  predicate IsVisible(lines: seq<string>, i: nat)
    requires i < |lines|
  {
    !IsFence(lines[i]) && !InFence(lines, i)
  }

  /** The slug of a line that is a heading and is not in a block. */
  function SlugOf(line: string, fenced: bool): Option<string> {
    if fenced || IsFence(line) || HeadingText(line).None? then None else Some(GithubSlug(HeadingText(line).value))
  }

  /** The slug of line i, if it is a visible heading. */
  function SlugAt(lines: seq<string>, i: nat): Option<string>
    requires i < |lines|
  {
    SlugOf(lines[i], InFence(lines, i))
  }

  type Slugs = seq<Option<string>>

  function SlugsOf(lines: seq<string>): (slugs: Slugs)
    ensures |slugs| == |lines| && forall i | 0 <= i < |lines| :: slugs[i] == SlugAt(lines, i)
  {
    seq(|lines|, i requires 0 <= i < |lines| => SlugAt(lines, i))
  }

  // ---------------------------------------------------------------------------------------------
  // Anchors
  // ---------------------------------------------------------------------------------------------

  /** How many visible headings before line i have this slug. */
  function Earlier(slugs: Slugs, i: nat, slug: string): nat
    requires i <= |slugs|
  {
    if i == 0 then 0 else Earlier(slugs, i - 1, slug) + (if slugs[i - 1] == Some(slug) then 1 else 0)
  }

  function Suffixed(slug: string, n: nat): string {
    if n == 0 then slug else slug + ("-" + Digits(n))
  }

  predicate IsHeading(slugs: Slugs, i: nat) {
    i < |slugs| && slugs[i].Some?
  }

  function AnchorAt(slugs: Slugs, i: nat): string
    requires IsHeading(slugs, i)
  {
    Suffixed(slugs[i].value, Earlier(slugs, i, slugs[i].value))
  }

  /** The anchors of the visible headings before line n. */
  function Anchors(slugs: Slugs, n: nat): set<string> {
    set i | 0 <= i < n && IsHeading(slugs, i) :: AnchorAt(slugs, i)
  }

  function AnchorsOf(lines: seq<string>): set<string> {
    Anchors(SlugsOf(lines), |lines|)
  }

  lemma AnchorsNext(slugs: Slugs, n: nat)
    requires n < |slugs|
    ensures Anchors(slugs, n + 1) == Anchors(slugs, n) + (if IsHeading(slugs, n) then {AnchorAt(slugs, n)} else {})
  {
    var all := Anchors(slugs, n + 1);
    forall a | a in all ensures a in Anchors(slugs, n) + (if IsHeading(slugs, n) then {AnchorAt(slugs, n)} else {}) {
      var i :| 0 <= i < n + 1 && IsHeading(slugs, i) && AnchorAt(slugs, i) == a;
    }
  }

  function CountOf(counts: map<string, nat>, slug: string): nat {
    if slug in counts then counts[slug] else 0
  }

  /** Walks through the lines with the fence flag and a count for every slug. */
  method AnchorsFor(lines: seq<string>) returns (anchors: set<string>)
    ensures anchors == AnchorsOf(lines)
  {
    anchors := {};
    var counts: map<string, nat> := map[];
    var inFence := false;
    ghost var slugs := SlugsOf(lines);
    for i := 0 to |lines|
      invariant inFence == InFence(lines, i)
      invariant forall slug :: CountOf(counts, slug) == Earlier(slugs, i, slug)
      invariant anchors == Anchors(slugs, i)
    {
      var line := lines[i];
      assert slugs[i] == SlugAt(lines, i);
      FenceFlips(lines, i);
      AnchorsNext(slugs, i);
      if IsFence(line) {
        inFence := !inFence;
        continue;
      }
      if inFence {
        continue;
      }
      var text := HeadingText(line);
      if text.None? {
        continue;
      }
      var base := GithubSlug(text.value);
      assert slugs[i] == Some(base);
      var count := CountOf(counts, base);
      counts := counts[base := count + 1];
      anchors := anchors + {if count == 0 then base else base + ("-" + Digits(count))};
    }
  }

  lemma {:induction false} EarlierGrows(slugs: Slugs, i: nat, j: nat, slug: string)
    requires i <= j <= |slugs|
    ensures Earlier(slugs, i, slug) <= Earlier(slugs, j, slug)
    ensures i < j && slugs[i] == Some(slug) ==> Earlier(slugs, i, slug) < Earlier(slugs, j, slug)
  {
    if i < j {
      EarlierGrows(slugs, i, j - 1, slug);
    }
  }

  lemma HyphenAt(a: string, d: string)
    requires '-' !in d
    ensures var text := a + ("-" + d);
            && text[|a|] == '-' && text[..|a|] == a && text[|a| + 1..] == d
            && forall i | |a| < i < |text| :: text[i] != '-'
  {
    var text := a + ("-" + d);
    forall i | |a| < i < |text| ensures text[i] != '-' {
      assert text[i] == d[i - |a| - 1];
    }
  }

  lemma LastHyphen(a: string, b: string, d: string, e: string)
    requires '-' !in d && '-' !in e && a + ("-" + d) == b + ("-" + e)
    ensures a == b && d == e
  {
    HyphenAt(a, d);
    HyphenAt(b, e);
    assert |a| == |b|;
  }

  /** The last hyphen separates a number from the slug it was put behind. */
  lemma SuffixesAreReadable(a: string, b: string, n: nat, k: nat)
    requires n > 0 && k > 0 && Suffixed(a, n) == Suffixed(b, k)
    ensures a == b && n == k
  {
    LastHyphen(a, b, Digits(n), Digits(k));
    DigitsReadBack(n);
    DigitsReadBack(k);
  }

  /**
   Two visible headings get the same anchor exactly when the slug of one, which is the first of its
   kind, is spelled like the other's slug with its number. In particular headings with equal slugs
   never share an anchor.
   */
  lemma AnchorsCollideExactly(slugs: Slugs, i: nat, j: nat)
    requires i < j && IsHeading(slugs, i) && IsHeading(slugs, j)
    ensures var a, b := slugs[i].value, slugs[j].value;
            var n, k := Earlier(slugs, i, a), Earlier(slugs, j, b);
            && (AnchorAt(slugs, i) == AnchorAt(slugs, j) <==>
                  (n == 0 && k > 0 && a == Suffixed(b, k)) || (k == 0 && n > 0 && b == Suffixed(a, n)))
            && (a == b ==> AnchorAt(slugs, i) != AnchorAt(slugs, j))
  {
    var a, b := slugs[i].value, slugs[j].value;
    var n, k := Earlier(slugs, i, a), Earlier(slugs, j, b);
    EarlierGrows(slugs, i, j, a);
    if n > 0 && k > 0 && AnchorAt(slugs, i) == AnchorAt(slugs, j) {
      SuffixesAreReadable(a, b, n, k);
    }
    if a == b && k > 0 {
      assert |Suffixed(b, k)| > |a|;
    }
  }

  // ---------------------------------------------------------------------------------------------
  // Fenced blocks
  // ---------------------------------------------------------------------------------------------

  function NoSlugs(n: nat): (slugs: Slugs)
    ensures |slugs| == n && forall i | 0 <= i < n :: slugs[i].None?
  {
    seq(n, i => None)
  }

  /** Whether the line behind these lines is in a block, if the first one is or is not. */
  function FencedBehind(lines: seq<string>, fenced: bool): bool {
    if lines == [] then fenced else FencedBehind(lines[1..], fenced != IsFence(lines[0]))
  }

  /** The slugs of the lines, if the first one is or is not in a block. */
  function SlugsFrom(lines: seq<string>, fenced: bool): (slugs: Slugs)
    ensures |slugs| == |lines|
  {
    if lines == [] then [] else [SlugOf(lines[0], fenced)] + SlugsFrom(lines[1..], fenced != IsFence(lines[0]))
  }

  lemma SlugsFromNext(lines: seq<string>, i: nat)
    requires i < |lines|
    ensures SlugsFrom(lines[i..], InFence(lines, i)) == [SlugAt(lines, i)] + SlugsFrom(lines[i + 1..], InFence(lines, i + 1))
    ensures FencedBehind(lines[i..], InFence(lines, i)) == FencedBehind(lines[i + 1..], InFence(lines, i + 1))
  {
    FenceFlips(lines, i);
    assert lines[i..][0] == lines[i] && lines[i..][1..] == lines[i + 1..];
  }

  lemma {:induction false} SlugsFromLine(lines: seq<string>, i: nat)
    requires i <= |lines|
    ensures SlugsOf(lines)[i..] == SlugsFrom(lines[i..], InFence(lines, i))
    ensures FencedBehind(lines[i..], InFence(lines, i)) == InFence(lines, |lines|)
    decreases |lines| - i
  {
    if i < |lines| {
      SlugsFromLine(lines, i + 1);
      SlugsFromNext(lines, i);
      assert SlugsOf(lines)[i..] == [SlugAt(lines, i)] + SlugsOf(lines)[i + 1..];
    }
  }

  lemma SlugsFromStart(lines: seq<string>)
    ensures SlugsOf(lines) == SlugsFrom(lines, false) && FencedBehind(lines, false) == InFence(lines, |lines|)
  {
    var slugs := SlugsOf(lines);
    assert Fences(lines, 0) == 0;
    SlugsFromLine(lines, 0);
    assert lines[0..] == lines && slugs[0..] == slugs;
  }

  lemma {:induction false} SlugsFromConcat(a: seq<string>, b: seq<string>, fenced: bool)
    ensures SlugsFrom(a + b, fenced) == SlugsFrom(a, fenced) + SlugsFrom(b, FencedBehind(a, fenced))
  {
    if a == [] {
      assert a + b == b;
    } else {
      assert (a + b)[1..] == a[1..] + b;
      SlugsFromConcat(a[1..], b, fenced != IsFence(a[0]));
    }
  }

  /** Behind the opening fence line: lines that are none, and the closing one. */
  predicate Closes(lines: seq<string>) {
    lines != [] && if |lines| == 1 then IsFence(lines[0]) else !IsFence(lines[0]) && Closes(lines[1..])
  }

  lemma {:induction false} ClosesBehind(lines: seq<string>)
    requires Closes(lines)
    ensures SlugsFrom(lines, true) == NoSlugs(|lines|) && !FencedBehind(lines, true)
  {
    if |lines| > 1 {
      ClosesBehind(lines[1..]);
    } else {
      assert lines[1..] == [];
    }
  }

  /** A fence line, lines that are none, and a fence line. */
  predicate IsBlock(lines: seq<string>) {
    lines != [] && IsFence(lines[0]) && Closes(lines[1..])
  }

  lemma SlugsOfBlock(block: seq<string>)
    requires IsBlock(block)
    ensures SlugsFrom(block, false) == NoSlugs(|block|) && !FencedBehind(block, false)
  {
    ClosesBehind(block[1..]);
  }

  /** A block outside of any other block widens the slugs by a gap. */
  lemma BlockWidensSlugs(a: seq<string>, block: seq<string>, c: seq<string>)
    requires IsBlock(block) && !InFence(a, |a|)
    ensures SlugsOf(a + c) == SlugsFrom(a, false) + SlugsFrom(c, false)
    ensures SlugsOf(a + (block + c)) == SlugsFrom(a, false) + (NoSlugs(|block|) + SlugsFrom(c, false))
  {
    SlugsFromStart(a);
    SlugsFromStart(a + c);
    SlugsFromStart(a + (block + c));
    SlugsFromConcat(a, c, false);
    SlugsFromConcat(a, block + c, false);
    SlugsFromConcat(block, c, false);
    SlugsOfBlock(block);
  }

  lemma {:induction false} EarlierInFront(x: Slugs, y: Slugs, n: nat, slug: string)
    requires n <= |x|
    ensures Earlier(x + y, n, slug) == Earlier(x, n, slug)
  {
    if n > 0 {
      EarlierInFront(x, y, n - 1, slug);
    }
  }

  lemma {:induction false} EarlierBehindNone(x: Slugs, m: nat, y: Slugs, n: nat, slug: string)
    requires n <= m + |y|
    ensures Earlier(x + (NoSlugs(m) + y), |x| + n, slug) == Earlier(x + y, |x| + (if n < m then 0 else n - m), slug)
  {
    var all := x + (NoSlugs(m) + y);
    if n == 0 {
      EarlierInFront(x, NoSlugs(m) + y, |x|, slug);
      EarlierInFront(x, y, |x|, slug);
    } else {
      EarlierBehindNone(x, m, y, n - 1, slug);
      assert all[|x| + n - 1] == if n <= m then None else y[n - 1 - m];
      assert n > m ==> (x + y)[|x| + n - 1 - m] == y[n - 1 - m];
    }
  }

  /** Where line i of the text without the block stands in the text with it. */
  function Moved(x: Slugs, m: nat, i: nat): nat {
    if i < |x| then i else i + m
  }

  lemma AnchorMoves(x: Slugs, m: nat, y: Slugs, i: nat)
    requires IsHeading(x + y, i)
    ensures var all := x + (NoSlugs(m) + y);
            IsHeading(all, Moved(x, m, i)) && AnchorAt(all, Moved(x, m, i)) == AnchorAt(x + y, i)
  {
    var slug := (x + y)[i].value;
    if i < |x| {
      EarlierInFront(x, y, i, slug);
      EarlierInFront(x, NoSlugs(m) + y, i, slug);
    } else {
      EarlierBehindNone(x, m, y, i - |x| + m, slug);
    }
  }

  lemma AnchorsSkipNone(x: Slugs, m: nat, y: Slugs)
    ensures var all := x + (NoSlugs(m) + y); Anchors(all, |all|) == Anchors(x + y, |x + y|)
  {
    var all, less := x + (NoSlugs(m) + y), x + y;
    forall a | a in Anchors(all, |all|) ensures a in Anchors(less, |less|) {
      var k :| 0 <= k < |all| && IsHeading(all, k) && AnchorAt(all, k) == a;
      var i := if k < |x| then k else k - m;
      assert !(|x| <= k < |x| + m);
      assert IsHeading(less, i) && Moved(x, m, i) == k;
      AnchorMoves(x, m, y, i);
    }
    forall a | a in Anchors(less, |less|) ensures a in Anchors(all, |all|) {
      var i :| 0 <= i < |less| && IsHeading(less, i) && AnchorAt(less, i) == a;
      AnchorMoves(x, m, y, i);
    }
  }

  /** A fenced block gives no anchor, and changes none around it: it can be put anywhere outside of a block. */
  lemma BlockHasNoAnchors(a: seq<string>, block: seq<string>, c: seq<string>)
    requires IsBlock(block) && !InFence(a, |a|)
    ensures AnchorsOf(a + (block + c)) == AnchorsOf(a + c)
  {
    BlockWidensSlugs(a, block, c);
    AnchorsSkipNone(SlugsFrom(a, false), |block|, SlugsFrom(c, false));
  }

  // ---------------------------------------------------------------------------------------------
  // The verdict
  // ---------------------------------------------------------------------------------------------

  /** Where a link leads; the fragment is unquoted and in lower case, and empty when there is none. */
  datatype Link = External | Escapes | Missing | Found(file: string, fragment: string, markdown: bool)

  datatype Line = Line(text: string, links: seq<Link>)

  function Texts(file: seq<Line>): (texts: seq<string>)
    ensures |texts| == |file| && forall i | 0 <= i < |file| :: texts[i] == file[i].text
  {
    seq(|file|, i requires 0 <= i < |file| => file[i].text)
  }

  /** Whether the link is in order, in a tree with these Markdown files. */
  predicate IsGood(link: Link, tree: map<string, seq<string>>) {
    match link
    case External => true
    case Escapes => false
    case Missing => false
    case Found(file, fragment, markdown) =>
      fragment != "" && markdown ==> file in tree && fragment in AnchorsOf(tree[file])
  }

  /** Every link on a visible line among the first n is in order. */
  predicate AllGood(file: seq<Line>, n: nat, tree: map<string, seq<string>>)
    requires n <= |file|
  {
    forall i | 0 <= i < n :: LineGood(file, i, tree)
  }

  predicate LineGood(file: seq<Line>, i: nat, tree: map<string, seq<string>>)
    requires i < |file|
  {
    IsVisible(Texts(file), i) ==> LinksGood(file[i].links, tree)
  }

  predicate FilesGood(files: seq<seq<Line>>, tree: map<string, seq<string>>) {
    forall file | file in files :: AllGood(file, |file|, tree)
  }

  predicate LinksGood(links: seq<Link>, tree: map<string, seq<string>>) {
    forall link | link in links :: IsGood(link, tree)
  }

  predicate CacheSound(cache: map<string, set<string>>, tree: map<string, seq<string>>) {
    forall f | f in cache :: f in tree && cache[f] == AnchorsOf(tree[f])
  }

  /** Every Markdown file that a link leads to can be read. */
  predicate Readable(links: seq<Link>, tree: map<string, seq<string>>) {
    forall link | link in links && link.Found? && link.markdown :: link.file in tree
  }

  lemma OneMoreLink(links: seq<Link>, link: Link, tree: map<string, seq<string>>)
    ensures LinksGood(links + [link], tree) <==> LinksGood(links, tree) && IsGood(link, tree)
  {
    assert forall l :: l in links + [link] <==> l in links || l == link;
  }

  lemma OneMoreLine(file: seq<Line>, i: nat, tree: map<string, seq<string>>)
    requires i < |file|
    ensures AllGood(file, i + 1, tree) <==>
            AllGood(file, i, tree) && LineGood(file, i, tree)
  {
  }

  lemma OneMoreFile(files: seq<seq<Line>>, file: seq<Line>, tree: map<string, seq<string>>)
    ensures FilesGood(files + [file], tree) <==> FilesGood(files, tree) && AllGood(file, |file|, tree)
  {
    assert forall f :: f in files + [file] <==> f in files || f == file;
  }

  predicate AllReadable(file: seq<Line>, tree: map<string, seq<string>>) {
    forall line | line in file :: Readable(line.links, tree)
  }

  method CheckLinks(links: seq<Link>, tree: map<string, seq<string>>, cache: map<string, set<string>>)
    returns (errors: nat, local: nat, next: map<string, set<string>>)
    requires Readable(links, tree) && CacheSound(cache, tree)
    ensures CacheSound(next, tree)
    ensures errors == 0 <==> LinksGood(links, tree)
    ensures errors <= local <= |links|
  {
    errors, local, next := 0, 0, cache;
    for i := 0 to |links|
      invariant CacheSound(next, tree)
      invariant errors == 0 <==> LinksGood(links[..i], tree)
      invariant errors <= local <= i
    {
      assert links[..i + 1] == links[..i] + [links[i]] && links[i] in links;
      OneMoreLink(links[..i], links[i], tree);
      match links[i] {
        case External =>
        case Escapes => errors, local := errors + 1, local + 1;
        case Missing => errors, local := errors + 1, local + 1;
        case Found(file, fragment, markdown) =>
          local := local + 1;
          if fragment != "" && markdown {
            var anchors := AnchorsFor(tree[file]);
            if file !in next {
              next := next[file := anchors];
            }
            if fragment !in next[file] {
              errors := errors + 1;
            }
          }
      }
    }
    assert links[..|links|] == links;
  }

  method CheckFile(file: seq<Line>, tree: map<string, seq<string>>, cache: map<string, set<string>>)
    returns (errors: nat, next: map<string, set<string>>)
    requires CacheSound(cache, tree) && AllReadable(file, tree)
    ensures CacheSound(next, tree)
    ensures errors == 0 <==> AllGood(file, |file|, tree)
  {
    errors, next := 0, cache;
    var inFence := false;
    ghost var texts := Texts(file);
    for i := 0 to |file|
      invariant inFence == InFence(texts, i)
      invariant CacheSound(next, tree)
      invariant errors == 0 <==> AllGood(file, i, tree)
    {
      assert texts[i] == file[i].text && file[i] in file;
      FenceFlips(texts, i);
      OneMoreLine(file, i, tree);
      if IsFence(file[i].text) {
        inFence := !inFence;
        continue;
      }
      if inFence {
        continue;
      }
      assert IsVisible(texts, i);
      var found, _, after := CheckLinks(file[i].links, tree, next);
      errors, next := errors + found, after;
    }
  }

  /** The exit code is 0 exactly when every link on a visible line of every file is in order, else 1. */
  method CheckAll(files: seq<seq<Line>>, tree: map<string, seq<string>>) returns (code: int)
    requires forall file | file in files :: AllReadable(file, tree)
    ensures code == if FilesGood(files, tree) then 0 else 1
  {
    var errors := 0;
    var cache: map<string, set<string>> := map[];
    for k := 0 to |files|
      invariant errors >= 0 && CacheSound(cache, tree)
      invariant errors == 0 <==> FilesGood(files[..k], tree)
    {
      assert files[..k + 1] == files[..k] + [files[k]] && files[k] in files;
      OneMoreFile(files[..k], files[k], tree);
      var found, next := CheckFile(files[k], tree, cache);
      errors, cache := errors + found, next;
    }
    assert files[..|files|] == files;
    code := if errors > 0 then 1 else 0;
  }
}
