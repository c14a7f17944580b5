/**
 The progress scan of the controller: only the last 8192 bytes of the log are decoded and searched.
 It is compared with a scan of the whole log.
 */
module LogTail {
  import opened Basics

  // ---------------------------------------------------------------------------------------------
  // Decoding UTF-8 with replacement of what is malformed
  // ---------------------------------------------------------------------------------------------

  type Byte = b: int | 0 <= b < 256

  /** A text is a sequence of code points. */
  type Text = seq<nat>

  const REPLACEMENT: nat := 0xFFFD

  predicate Between(bytes: seq<Byte>, i: nat, low: int, high: int) {
    i < |bytes| && low <= bytes[i] <= high
  }

  predicate Continues(bytes: seq<Byte>, i: nat) {
    Between(bytes, i, 0x80, 0xBF)
  }

  datatype Decoded = Decoded(point: nat, used: nat)

  /** One code point; a malformed start is replaced together with the continuations it accepted. */
  function DecodeOne(bytes: seq<Byte>): (d: Decoded)
    requires bytes != []
    ensures 0 < d.used <= |bytes|
  {
    var b := bytes[0];
    if b < 0x80 then Decoded(b, 1)
    else if 0xC2 <= b <= 0xDF then
      if Continues(bytes, 1) then Decoded((b as int - 0xC0) * 64 + (bytes[1] as int - 0x80), 2) else Decoded(REPLACEMENT, 1)
    else if 0xE0 <= b <= 0xEF then
      if !Between(bytes, 1, if b == 0xE0 then 0xA0 else 0x80, if b == 0xED then 0x9F else 0xBF) then Decoded(REPLACEMENT, 1)
      else if !Continues(bytes, 2) then Decoded(REPLACEMENT, 2)
      else Decoded((b as int - 0xE0) * 4096 + (bytes[1] as int - 0x80) * 64 + (bytes[2] as int - 0x80), 3)
    else if 0xF0 <= b <= 0xF4 then
      if !Between(bytes, 1, if b == 0xF0 then 0x90 else 0x80, if b == 0xF4 then 0x8F else 0xBF) then Decoded(REPLACEMENT, 1)
      else if !Continues(bytes, 2) then Decoded(REPLACEMENT, 2)
      else if !Continues(bytes, 3) then Decoded(REPLACEMENT, 3)
      else
        Decoded(
          (b as int - 0xF0) * 262144 + (bytes[1] as int - 0x80) * 4096 + (bytes[2] as int - 0x80) * 64
          + (bytes[3] as int - 0x80),
          4)
    else Decoded(REPLACEMENT, 1)
  }

  function Decode(bytes: seq<Byte>): Text
    decreases |bytes|
  {
    if bytes == [] then []
    else var d := DecodeOne(bytes); [d.point] + Decode(bytes[d.used..])
  }

  /** An ASCII byte ends whatever came before it, so it does not matter what follows. */
  lemma AsciiEndsASequence(a: seq<Byte>, c: seq<Byte>)
    requires a != [] && c != [] && c[0] < 0x80
    ensures DecodeOne(a + c) == DecodeOne(a)
  {
    forall i: nat, low, high | low >= 0x80 ensures Between(a + c, i, low, high) == Between(a, i, low, high) || i > |a| {
      if i < |a| {
        assert (a + c)[i] == a[i];
      }
    }
  }

  /** Decoding can be cut in front of any ASCII byte. */
  lemma {:induction false} DecodeCutsAtAscii(a: seq<Byte>, c: seq<Byte>)
    requires c != [] && c[0] < 0x80
    ensures Decode(a + c) == Decode(a) + Decode(c)
    decreases |a|
  {
    if a == [] {
      assert a + c == c;
    } else {
      AsciiEndsASequence(a, c);
      var d := DecodeOne(a);
      assert (a + c)[d.used..] == a[d.used..] + c;
      DecodeCutsAtAscii(a[d.used..], c);
    }
  }

  lemma {:induction false} AsciiComesFromAscii(bytes: seq<Byte>, point: Byte)
    requires point < 0x80 && point in Decode(bytes)
    ensures point in bytes
    decreases |bytes|
  {
    var d := DecodeOne(bytes);
    if d.point == point {
      assert bytes[0] == point;
    } else {
      AsciiComesFromAscii(bytes[d.used..], point);
    }
  }

  /** The encoding of one code point that UTF-8 can write. */
  function EncodeOne(p: nat): seq<Byte>
    requires IsScalar(p)
  {
    if p < 0x80 then [p]
    else if p < 0x800 then [0xC0 + p / 64, 0x80 + p % 64]
    else if p < 0x10000 then [0xE0 + p / 4096, 0x80 + p / 64 % 64, 0x80 + p % 64]
    else [0xF0 + p / 262144, 0x80 + p / 4096 % 64, 0x80 + p / 64 % 64, 0x80 + p % 64]
  }

  predicate IsScalar(p: nat) {
    p < 0xD800 || 0xE000 <= p < 0x110000
  }

  function Encode(t: Text): seq<Byte>
    requires forall p | p in t :: IsScalar(p)
  {
    if t == [] then [] else EncodeOne(t[0]) + Encode(t[1..])
  }

  lemma QuotientsOf(p: nat)
    ensures p / 4096 == p / 64 / 64 && p / 262144 == p / 64 / 64 / 64
  {
  }

  lemma DecodeOneInverts(p: nat, rest: seq<Byte>)
    requires IsScalar(p)
    ensures DecodeOne(EncodeOne(p) + rest) == Decoded(p, |EncodeOne(p)|)
  {
    var bytes := EncodeOne(p) + rest;
    QuotientsOf(p);
    var b1 := p / 64;
    var b2 := b1 / 64;
    assert p == b1 * 64 + p % 64 && b1 == b2 * 64 + b1 % 64 && b2 == b2 / 64 * 64 + b2 % 64;
  }

  /** The bytes begin with the encoding of this code point. */
  ghost predicate Starts(bytes: seq<Byte>, p: nat) {
    IsScalar(p) && EncodeOne(p) <= bytes
  }

  lemma TwoBytes(b: Byte, c: Byte)
    requires 0xC2 <= b <= 0xDF && 0x80 <= c <= 0xBF
    ensures EncodeOne((b as int - 0xC0) * 64 + (c as int - 0x80)) == [b, c]
  {
  }

  lemma ThreeBytes(b: Byte, c: Byte, d: Byte)
    requires 0xE0 <= b <= 0xEF && 0x80 <= c <= 0xBF && 0x80 <= d <= 0xBF
    requires (b == 0xE0 ==> c >= 0xA0) && (b == 0xED ==> c <= 0x9F)
    ensures var p := (b as int - 0xE0) * 4096 + (c as int - 0x80) * 64 + (d as int - 0x80);
            IsScalar(p) && EncodeOne(p) == [b, c, d]
  {
    Quotient((b as int - 0xE0) * 64 + (c as int - 0x80), d as int - 0x80);
    Quotient(b as int - 0xE0, c as int - 0x80);
  }

  lemma Quotient(q: nat, r: nat)
    requires r < 64
    ensures (q * 64 + r) / 64 == q && (q * 64 + r) % 64 == r && (q * 64 + r) / 4096 == q / 64
    ensures (q * 64 + r) / 262144 == q / 4096
  {
  }

  lemma FourBytes(b: Byte, c: Byte, d: Byte, e: Byte)
    requires 0xF0 <= b <= 0xF4 && 0x80 <= c <= 0xBF && 0x80 <= d <= 0xBF && 0x80 <= e <= 0xBF
    requires (b == 0xF0 ==> c >= 0x90) && (b == 0xF4 ==> c <= 0x8F)
    ensures var p := (b as int - 0xF0) * 262144 + (c as int - 0x80) * 4096 + (d as int - 0x80) * 64 + (e as int - 0x80);
            IsScalar(p) && EncodeOne(p) == [b, c, d, e]
  {
    var s := (b as int - 0xF0) * 64 + (c as int - 0x80);
    Quotient(s * 64 + (d as int - 0x80), e as int - 0x80);
    Quotient(s, d as int - 0x80);
    Quotient(b as int - 0xF0, c as int - 0x80);
  }

  lemma ReadIsEncoded(bytes: seq<Byte>)
    requires bytes != []
    ensures Starts(bytes, DecodeOne(bytes).point) || DecodeOne(bytes).point == 0xFFFD
  {
    var d := DecodeOne(bytes);
    if d.point != REPLACEMENT {
      if d.used == 1 {
        assert EncodeOne(d.point) == [bytes[0]] == bytes[..1];
      } else if d.used == 2 {
        TwoBytes(bytes[0], bytes[1]);
        assert bytes[..2] == [bytes[0], bytes[1]];
      } else if d.used == 3 {
        ThreeBytes(bytes[0], bytes[1], bytes[2]);
        assert bytes[..3] == [bytes[0], bytes[1], bytes[2]];
      } else {
        FourBytes(bytes[0], bytes[1], bytes[2], bytes[3]);
        assert bytes[..4] == [bytes[0], bytes[1], bytes[2], bytes[3]];
      }
    }
  }

  /**
   A code point is read exactly when the bytes begin with its encoding: no other way to write it is
   accepted, no half of a surrogate pair and nothing beyond the last code point. Else one is replaced.
   */
  lemma DecodeOneExactly(bytes: seq<Byte>)
    requires bytes != []
    ensures forall p | Starts(bytes, p) :: DecodeOne(bytes) == Decoded(p, |EncodeOne(p)|)
    ensures Starts(bytes, DecodeOne(bytes).point) || DecodeOne(bytes).point == 0xFFFD
  {
    forall p | Starts(bytes, p) ensures DecodeOne(bytes) == Decoded(p, |EncodeOne(p)|) {
      DecodeOneInverts(p, bytes[|EncodeOne(p)|..]);
      assert bytes == EncodeOne(p) + bytes[|EncodeOne(p)|..];
    }
    ReadIsEncoded(bytes);
  }

  /** Every well-formed text is read back as it was written. */
  lemma {:induction false} DecodeInvertsEncode(t: Text)
    requires forall p | p in t :: IsScalar(p)
    ensures Decode(Encode(t)) == t
  {
    if t != [] {
      var rest := Encode(t[1..]);
      DecodeOneInverts(t[0], rest);
      assert (EncodeOne(t[0]) + rest)[|EncodeOne(t[0])|..] == rest;
      DecodeInvertsEncode(t[1..]);
      assert t == [t[0]] + t[1..];
    }
  }

  // ---------------------------------------------------------------------------------------------
  // The progress pattern
  // ---------------------------------------------------------------------------------------------

  function Points(s: string): Text {
    seq(|s|, i requires 0 <= i < |s| => s[i] as int)
  }

  const CAPITAL_S: nat := 0x53
  const SLASH: nat := 0x2F
  const SPACE: nat := 0x20

  /** What the pattern leaves open: the decimal digits of Unicode beyond ASCII, and the collections. */
  datatype Pattern = Pattern(digits: set<nat>, names: seq<string>)

  const COLLECTIONS := ["antennastructure", "ulslicense", "ulslocation", "ulsfrequency", "ulsemission"]

  /** No collection name contains a space or a capital S. */
  predicate PlainNames(names: seq<string>) {
    forall name | name in names :: ' ' !in name && 'S' !in name
  }

  predicate IsDigit(c: nat, pattern: Pattern) {
    0x30 <= c <= 0x39 || (c >= 0x80 && c in pattern.digits)
  }

  function DigitRun(t: Text, pattern: Pattern): (n: nat)
    ensures n <= |t|
  {
    if t != [] && IsDigit(t[0], pattern) then 1 + DigitRun(t[1..], pattern) else 0
  }

  datatype Progress = Progress(done: Text, total: Text, collection: string)

  datatype Match = Match(length: nat, progress: Progress)

  function CollectionHere(t: Text, names: seq<string>): Option<string> {
    if names == [] then None
    else if Points(names[0]) + Points(" records") <= t then Some(names[0])
    else CollectionHere(t, names[1..])
  }

  /** A number and the separator after it: the digits, and the text after the separator. */
  function NumberThen(t: Text, separator: nat, pattern: Pattern): (r: Option<(Text, Text)>)
    ensures r.Some? ==> |t| == |r.value.0| + 1 + |r.value.1|
  {
    var n := DigitRun(t, pattern);
    if 0 < n < |t| && t[n] == separator then Some((t[..n], t[n + 1..])) else None
  }

  /** The part of the pattern after the word "Staged". */
  function CountsHere(t: Text, pattern: Pattern): (m: Option<Match>)
    ensures m.Some? ==> m.value.length <= |t|
  {
    var done := NumberThen(t, SLASH, pattern);
    if done.None? then None
    else
      var total := NumberThen(done.value.1, SPACE, pattern);
      if total.None? then None
      else
        var name := CollectionHere(total.value.1, pattern.names);
        if name.None? then None
        else
          CollectionFits(total.value.1, pattern.names);
          var length := |done.value.0| + 1 + |total.value.0| + 1 + |name.value| + 8;
          Some(Match(length, Progress(done.value.0, total.value.0, name.value)))
  }

  lemma {:induction false} CollectionFits(t: Text, names: seq<string>)
    ensures CollectionHere(t, names).Some? ==>
              CollectionHere(t, names).value in names && |CollectionHere(t, names).value| + 8 <= |t|
  {
    if names != [] {
      CollectionFits(t, names[1..]);
    }
  }

  /**
   The match that starts at the front of the text. Each run of digits is followed by a character that
   is not a digit and no name starts with another one, so there is nothing to backtrack over.
   */
  function MatchHere(t: Text, pattern: Pattern): (m: Option<Match>)
    ensures m.Some? ==> 0 < m.value.length <= |t|
  {
    if !(Points("Staged ") <= t) then None
    else
      var rest := CountsHere(t[7..], pattern);
      if rest.None? then None else Some(rest.value.(length := 7 + rest.value.length))
  }

  type Matcher = Text -> Option<Match>

  function Staged(pattern: Pattern): Matcher {
    t => MatchHere(t, pattern)
  }

  predicate Usable(m: Option<Match>, t: Text) {
    m.Some? && 0 < m.value.length <= |t|
  }

  /** All matches from left to right, without overlaps. */
  function FindAll(t: Text, matcher: Matcher): seq<Progress>
    decreases |t|
  {
    if t == [] then []
    else
      var m := matcher(t);
      if Usable(m, t) then [m.value.progress] + FindAll(t[m.value.length..], matcher) else FindAll(t[1..], matcher)
  }

  function Last(found: seq<Progress>): Option<Progress> {
    if found == [] then None else Some(found[|found| - 1])
  }

  /** The progress reported for a log that is read from byte `from` on. */
  function ProgressFrom(log: seq<Byte>, from: nat, pattern: Pattern): Option<Progress>
    requires from <= |log|
  {
    Last(FindAll(Decode(log[from..]), Staged(pattern)))
  }

  /** The controller's scan; the log may have grown since its size was taken. */
  function LastProgress(log: seq<Byte>, size: nat, pattern: Pattern): Option<Progress>
    requires size <= |log|
  {
    ProgressFrom(log, Max(0, size - 8192), pattern)
  }

  // ---------------------------------------------------------------------------------------------
  // A progress line is read back as it was written
  // ---------------------------------------------------------------------------------------------

  predicate IsNumber(t: Text, pattern: Pattern) {
    t != [] && forall c | c in t :: IsDigit(c, pattern)
  }

  /** A progress line, and what follows it in the log. */
  function ProgressLine(p: Progress, rest: Text): Text {
    Points("Staged ") + Counts(p, rest)
  }

  function Counts(p: Progress, rest: Text): Text {
    p.done + ([SLASH] + (p.total + ([SPACE] + (Points(p.collection) + Points(" records") + rest))))
  }

  lemma {:induction false} DigitRunReadsNumber(number: Text, rest: Text, pattern: Pattern)
    requires forall c | c in number :: IsDigit(c, pattern)
    requires rest != [] && !IsDigit(rest[0], pattern)
    ensures DigitRun(number + rest, pattern) == |number|
  {
    if number == [] {
      assert number + rest == rest;
    } else {
      assert (number + rest)[1..] == number[1..] + rest;
      DigitRunReadsNumber(number[1..], rest, pattern);
    }
  }

  lemma NumberThenReadsBack(number: Text, separator: nat, rest: Text, pattern: Pattern)
    requires IsNumber(number, pattern) && !IsDigit(separator, pattern)
    ensures NumberThen(number + ([separator] + rest), separator, pattern) == Some((number, rest))
  {
    var t := number + ([separator] + rest);
    DigitRunReadsNumber(number, [separator] + rest, pattern);
    assert t[..|number|] == number && t[|number| + 1..] == rest;
  }

  lemma {:induction false} CollectionReadsBack(names: seq<string>, name: string, rest: Text)
    requires name in names && PlainNames(names)
    ensures CollectionHere(Points(name) + Points(" records") + rest, names) == Some(name)
  {
    var t := Points(name) + Points(" records") + rest;
    var literal := Points(names[0]) + Points(" records");
    if names[0] == name {
      assert t[..|literal|] == literal;
    } else {
      if literal <= t {
        DifferentNamesDisagree(names[0], name, rest);
      }
      CollectionReadsBack(names[1..], name, rest);
    }
  }

  /** Names end at the first space, so different names cannot start the same text. */
  lemma DifferentNamesDisagree(a: string, b: string, rest: Text)
    requires ' ' !in a && ' ' !in b
    requires Points(a) + Points(" records") <= Points(b) + Points(" records") + rest
    ensures a == b
  {
    var left, right := Points(a) + Points(" records"), Points(b) + Points(" records") + rest;
    assert left[|a|] == SPACE && right[|b|] == SPACE;
    assert forall i | 0 <= i < |a| :: left[i] == a[i] as int && a[i] in a;
    assert forall i | 0 <= i < |b| :: right[i] == b[i] as int && b[i] in b;
    assert |a| == |b|;
    assert forall i | 0 <= i < |a| :: left[i] == right[i];
  }

  lemma CountsReadBack(p: Progress, rest: Text, pattern: Pattern)
    requires IsNumber(p.done, pattern) && IsNumber(p.total, pattern) && p.collection in pattern.names
             && PlainNames(pattern.names)
    ensures CountsHere(Counts(p, rest), pattern) == Some(Match(|Counts(p, rest)| - |rest|, p))
  {
    var last := Points(p.collection) + Points(" records") + rest;
    NumberThenReadsBack(p.done, SLASH, p.total + ([SPACE] + last), pattern);
    NumberThenReadsBack(p.total, SPACE, last, pattern);
    CollectionReadsBack(pattern.names, p.collection, rest);
  }

  /** The match at a progress line is exactly that line, whatever follows it. */
  lemma ProgressLineReadsBack(p: Progress, rest: Text, pattern: Pattern)
    requires IsNumber(p.done, pattern) && IsNumber(p.total, pattern) && p.collection in pattern.names
             && PlainNames(pattern.names)
    ensures MatchHere(ProgressLine(p, rest), pattern) == Some(Match(|ProgressLine(p, rest)| - |rest|, p))
  {
    CountsReadBack(p, rest, pattern);
    assert ProgressLine(p, rest)[7..] == Counts(p, rest);
  }

  /** Decimal digits only: those of ASCII, and the others of Unicode. */
  ghost predicate IsDecimal(t: Text, digits: set<nat>) {
    t != [] && forall c | c in t :: '0' as int <= c <= '9' as int || (c > 127 && c in digits)
  }

  lemma {:induction false} DigitRunIsDecimal(t: Text, pattern: Pattern)
    ensures DigitRun(t, pattern) > 0 ==> IsDecimal(t[..DigitRun(t, pattern)], pattern.digits)
  {
    if DigitRun(t, pattern) > 1 {
      DigitRunIsDecimal(t[1..], pattern);
      assert t[..DigitRun(t, pattern)] == [t[0]] + t[1..][..DigitRun(t, pattern) - 1];
    }
  }

  lemma {:induction false} CollectionIsNamed(t: Text, names: seq<string>)
    ensures CollectionHere(t, names).Some? ==>
              var name := CollectionHere(t, names).value;
              name in names && Points(name) + Points(" records") <= t
  {
    if names != [] {
      CollectionIsNamed(t, names[1..]);
    }
  }

  lemma NumberThenIsDecimal(t: Text, separator: nat, pattern: Pattern)
    requires NumberThen(t, separator, pattern).Some?
    ensures var r := NumberThen(t, separator, pattern).value;
            t == r.0 + ([separator] + r.1) && IsDecimal(r.0, pattern.digits)
  {
    DigitRunIsDecimal(t, pattern);
  }

  lemma NameIsInFront(t: Text, names: seq<string>)
    requires CollectionHere(t, names).Some?
    ensures var name := CollectionHere(t, names).value;
            && name in names && |name| + 8 <= |t|
            && t == Points(name) + Points(" records") + t[|name| + 8..]
  {
    CollectionIsNamed(t, names);
    var literal := Points(CollectionHere(t, names).value) + Points(" records");
    assert t == literal + t[|literal|..];
  }

  /** A progress with its numbers in decimal digits, and a collection of the pattern. */
  ghost predicate IsInPattern(p: Progress, pattern: Pattern) {
    IsDecimal(p.done, pattern.digits) && IsDecimal(p.total, pattern.digits) && p.collection in pattern.names
  }

  lemma CountsAreALine(t: Text, pattern: Pattern)
    requires CountsHere(t, pattern).Some?
    ensures var m := CountsHere(t, pattern).value;
            m.length <= |t| && t == Counts(m.progress, t[m.length..]) && IsInPattern(m.progress, pattern)
  {
    var m := CountsHere(t, pattern).value;
    var done := NumberThen(t, SLASH, pattern).value;
    var total := NumberThen(done.1, SPACE, pattern).value;
    NumberThenIsDecimal(t, SLASH, pattern);
    NumberThenIsDecimal(done.1, SPACE, pattern);
    NameIsInFront(total.1, pattern.names);
    assert total.1[|m.progress.collection| + 8..] == t[m.length..];
  }

  /** Conversely, whatever the pattern matches is a progress line: the word, two numbers, and a collection. */
  lemma MatchIsAProgressLine(t: Text, pattern: Pattern)
    requires MatchHere(t, pattern).Some?
    ensures var m := MatchHere(t, pattern).value;
            t == ProgressLine(m.progress, t[m.length..]) && IsInPattern(m.progress, pattern)
  {
    var m := MatchHere(t, pattern).value;
    CountsAreALine(t[7..], pattern);
    assert t[7..][m.length - 7..] == t[m.length..];
    assert t == Points("Staged ") + t[7..];
  }

  // ---------------------------------------------------------------------------------------------
  // A capital S can only start a match
  // ---------------------------------------------------------------------------------------------

  lemma LiteralStopsAtS(literal: Text, u: Text, v: Text)
    requires v != [] && v[0] == CAPITAL_S && CAPITAL_S !in literal
    ensures literal <= u + v <==> literal <= u
  {
    if |u| < |literal| <= |u + v| {
      assert (u + v)[|u|] == CAPITAL_S && literal[|u|] in literal;
    } else if |literal| <= |u| {
      assert (u + v)[..|literal|] == u[..|literal|];
    }
  }

  lemma {:induction false} DigitsStopAtS(u: Text, v: Text, pattern: Pattern)
    requires v != [] && v[0] == CAPITAL_S
    ensures DigitRun(u + v, pattern) == DigitRun(u, pattern)
  {
    if u == [] {
      assert u + v == v;
    } else {
      assert (u + v)[1..] == u[1..] + v;
      DigitsStopAtS(u[1..], v, pattern);
    }
  }

  lemma {:induction false} CollectionStopsAtS(u: Text, v: Text, names: seq<string>)
    requires v != [] && v[0] == CAPITAL_S
    requires PlainNames(names)
    ensures CollectionHere(u + v, names) == CollectionHere(u, names)
  {
    if names != [] {
      var literal := Points(names[0]) + Points(" records");
      forall i | 0 <= i < |literal| ensures literal[i] != CAPITAL_S {
        if i < |names[0]| {
          assert names[0] in names && names[0][i] != 'S';
        } else {
          assert literal[i] == " records"[i - |names[0]|] as int;
        }
      }
      LiteralStopsAtS(literal, u, v);
      CollectionStopsAtS(u, v, names[1..]);
    }
  }

  lemma NumberStopsAtS(u: Text, v: Text, separator: nat, pattern: Pattern)
    requires v != [] && v[0] == CAPITAL_S && separator != CAPITAL_S
    ensures var r := NumberThen(u, separator, pattern);
            NumberThen(u + v, separator, pattern) == if r.None? then None else Some((r.value.0, r.value.1 + v))
  {
    DigitsStopAtS(u, v, pattern);
    var n := DigitRun(u, pattern);
    if n < |u| {
      assert (u + v)[n] == u[n] && (u + v)[..n] == u[..n] && (u + v)[n + 1..] == u[n + 1..] + v;
    } else {
      assert (u + v)[n] == v[0];
    }
  }

  /** Two texts have the same counts in front if their parts agree. */
  lemma CountsAgree(t: Text, u: Text, pattern: Pattern)
    requires var a, b := NumberThen(t, SLASH, pattern), NumberThen(u, SLASH, pattern);
             && (a.None? <==> b.None?)
             && (a.Some? && b.Some? ==>
                   && a.value.0 == b.value.0
                   && var c, d := NumberThen(a.value.1, SPACE, pattern), NumberThen(b.value.1, SPACE, pattern);
                      && (c.None? <==> d.None?)
                      && (c.Some? && d.Some? ==>
                            && c.value.0 == d.value.0
                            && CollectionHere(c.value.1, pattern.names) == CollectionHere(d.value.1, pattern.names)))
    ensures CountsHere(t, pattern) == CountsHere(u, pattern)
  {
  }

  lemma CountsStopAtS(u: Text, v: Text, pattern: Pattern)
    requires PlainNames(pattern.names) && v != [] && v[0] == CAPITAL_S
    ensures CountsHere(u + v, pattern) == CountsHere(u, pattern)
  {
    NumberStopsAtS(u, v, SLASH, pattern);
    var done := NumberThen(u, SLASH, pattern);
    if done.Some? {
      NumberStopsAtS(done.value.1, v, SPACE, pattern);
      var total := NumberThen(done.value.1, SPACE, pattern);
      if total.Some? {
        CollectionStopsAtS(total.value.1, v, pattern.names);
      }
    }
    CountsAgree(u + v, u, pattern);
  }

  lemma RestOfBoth(u: Text, v: Text, n: nat)
    requires n <= |u|
    ensures (u + v)[n..] == u[n..] + v
  {
  }

  /** The word in front starts with the capital S and holds no other. */
  lemma WordStopsAtS(u: Text, v: Text)
    requires u != [] && v != [] && v[0] == CAPITAL_S
    ensures Points("Staged ") <= u + v <==> Points("Staged ") <= u
  {
    var word := Points("Staged ");
    LiteralStopsAtS(word[1..], u[1..], v);
    RestOfBoth(u, v, 1);
    assert word == [word[0]] + word[1..] && u == [u[0]] + u[1..] && u + v == [u[0]] + (u + v)[1..];
  }

  lemma MatchesAgree(t: Text, u: Text, pattern: Pattern)
    requires Points("Staged ") <= t <==> Points("Staged ") <= u
    requires Points("Staged ") <= t && Points("Staged ") <= u ==> CountsHere(t[7..], pattern) == CountsHere(u[7..], pattern)
    ensures MatchHere(t, pattern) == MatchHere(u, pattern)
  {
  }

  lemma MatchStopsAtS(u: Text, v: Text, pattern: Pattern)
    requires PlainNames(pattern.names) && u != [] && v != [] && v[0] == CAPITAL_S
    ensures MatchHere(u + v, pattern) == MatchHere(u, pattern)
  {
    WordStopsAtS(u, v);
    if Points("Staged ") <= u {
      RestOfBoth(u, v, 7);
      CountsStopAtS(u[7..], v, pattern);
    }
    MatchesAgree(u + v, u, pattern);
  }

  /** A matcher whose matches never reach over a capital S, and only start with one. */
  ghost predicate StartsAtS(matcher: Matcher) {
    && (forall t | matcher(t).Some? :: 0 < matcher(t).value.length <= |t|)
    && (forall u, v | u != [] && v != [] && v[0] == CAPITAL_S :: matcher(u + v) == matcher(u))
    && (forall t | t == [] || t[0] != CAPITAL_S :: matcher(t) == None)
  }

  lemma StagedStartsAtS(pattern: Pattern)
    requires PlainNames(pattern.names)
    ensures StartsAtS(Staged(pattern))
  {
    var matcher := Staged(pattern);
    forall u, v | u != [] && v != [] && v[0] == CAPITAL_S ensures matcher(u + v) == matcher(u) {
      MatchStopsAtS(u, v, pattern);
    }
    forall t | t == [] || t[0] != CAPITAL_S ensures matcher(t) == None {
      assert Points("Staged ")[0] == CAPITAL_S;
    }
  }

  /** The matches of a text are those before a capital S and those from it on. */
  lemma {:induction false} FindAllCutsAtS(u: Text, v: Text, matcher: Matcher)
    requires StartsAtS(matcher) && v != [] && v[0] == CAPITAL_S
    ensures FindAll(u + v, matcher) == FindAll(u, matcher) + FindAll(v, matcher)
    decreases |u|
  {
    if u == [] {
      assert u + v == v;
    } else {
      var m := matcher(u);
      assert matcher(u + v) == m;
      var used := if m.Some? then m.value.length else 1;
      assert (u + v)[used..] == u[used..] + v;
      FindAllCutsAtS(u[used..], v, matcher);
    }
  }

  lemma {:induction false} NoMatchWithoutS(t: Text, matcher: Matcher)
    requires StartsAtS(matcher) && CAPITAL_S !in t
    ensures FindAll(t, matcher) == []
    decreases |t|
  {
    if t != [] {
      NoMatchWithoutS(t[1..], matcher);
    }
  }

  // ---------------------------------------------------------------------------------------------
  // The tail against the whole log
  // ---------------------------------------------------------------------------------------------

  function FirstS(bytes: seq<Byte>): (i: nat)
    requires CAPITAL_S in bytes
    ensures i < |bytes| && bytes[i] == CAPITAL_S && CAPITAL_S !in bytes[..i]
  {
    if bytes[0] == CAPITAL_S then 0 else 1 + FirstS(bytes[1..])
  }

  lemma LogCutsAtS(a: seq<Byte>, v: seq<Byte>, matcher: Matcher)
    requires StartsAtS(matcher) && v != [] && v[0] == CAPITAL_S
    ensures FindAll(Decode(a + v), matcher) == FindAll(Decode(a), matcher) + FindAll(Decode(v), matcher)
  {
    DecodeCutsAtAscii(a, v);
    FindAllCutsAtS(Decode(a), Decode(v), matcher);
  }

  lemma NothingWithoutS(bytes: seq<Byte>, matcher: Matcher)
    requires StartsAtS(matcher) && CAPITAL_S !in bytes
    ensures FindAll(Decode(bytes), matcher) == []
  {
    if CAPITAL_S in Decode(bytes) {
      AsciiComesFromAscii(bytes, CAPITAL_S);
    }
    NoMatchWithoutS(Decode(bytes), matcher);
  }

  /**
   Wherever the log is cut, even inside a line or inside a character: the matches found in the tail
   are the last matches of the whole log.
   */
  lemma TailMatchesAreTheLastOnes(head: seq<Byte>, tail: seq<Byte>, matcher: Matcher) returns (earlier: seq<Progress>)
    requires StartsAtS(matcher)
    ensures FindAll(Decode(head + tail), matcher) == earlier + FindAll(Decode(tail), matcher)
  {
    if CAPITAL_S in tail {
      var i := FirstS(tail);
      var u, v := tail[..i], tail[i..];
      assert tail == u + v && head + tail == (head + u) + v;
      LogCutsAtS(u, v, matcher);
      LogCutsAtS(head + u, v, matcher);
      NothingWithoutS(u, matcher);
      earlier := FindAll(Decode(head + u), matcher);
    } else {
      NothingWithoutS(tail, matcher);
      earlier := FindAll(Decode(head + tail), matcher);
    }
  }

  lemma TailScanRefines(log: seq<Byte>, from: nat, matcher: Matcher)
    requires from <= |log| && StartsAtS(matcher)
    ensures var tail, whole := Last(FindAll(Decode(log[from..]), matcher)), Last(FindAll(Decode(log[0..]), matcher));
            tail == whole <==> tail.Some? || whole.None?
  {
    var earlier := TailMatchesAreTheLastOnes(log[..from], log[from..], matcher);
    assert log[0..] == log == log[..from] + log[from..];
  }

  lemma CollectionsArePlain()
    ensures PlainNames(COLLECTIONS)
  {
  }

  /**
   The tail scan reports what a scan of the whole log would report, exactly when the tail holds a
   match at all or the log holds none.
   */
  lemma TailScanRefinesFullScan(log: seq<Byte>, size: nat, pattern: Pattern)
    requires size <= |log| && pattern.names == COLLECTIONS
    ensures LastProgress(log, size, pattern) == ProgressFrom(log, 0, pattern)
            <==> LastProgress(log, size, pattern).Some? || ProgressFrom(log, 0, pattern).None?
  {
    CollectionsArePlain();
    ScanRefines(log, size, pattern);
  }

  lemma ScanRefines(log: seq<Byte>, size: nat, pattern: Pattern)
    requires size <= |log| && PlainNames(pattern.names)
    ensures LastProgress(log, size, pattern) == ProgressFrom(log, 0, pattern)
            <==> LastProgress(log, size, pattern).Some? || ProgressFrom(log, 0, pattern).None?
  {
    StagedStartsAtS(pattern);
    TailScanRefines(log, Max(0, size - 8192), Staged(pattern));
  }

  // ---------------------------------------------------------------------------------------------
  // A line in the tail is reported
  // ---------------------------------------------------------------------------------------------

  /** What was encoded is decoded again, whatever follows. */
  lemma {:induction false} DecodeReadsOn(t: Text, rest: seq<Byte>)
    requires forall p | p in t :: IsScalar(p)
    ensures Decode(Encode(t) + rest) == t + Decode(rest)
  {
    if t == [] {
      assert [] + rest == rest;
    } else {
      var more := Encode(t[1..]);
      assert Encode(t) == EncodeOne(t[0]) + more;
      Regrouped(EncodeOne(t[0]), more, rest);
      DecodeReadsOne(t[0], more + rest);
      DecodeReadsOn(t[1..], rest);
      Regrouped([t[0]], t[1..], Decode(rest));
      assert t == [t[0]] + t[1..];
    }
  }

  lemma DecodeReadsOne(p: nat, rest: seq<Byte>)
    requires IsScalar(p)
    ensures Decode(EncodeOne(p) + rest) == [p] + Decode(rest)
  {
    DecodeOneInverts(p, rest);
    assert (EncodeOne(p) + rest)[|EncodeOne(p)|..] == rest;
  }

  /** A progress of one of the five collections, in numbers that UTF-8 can write. */
  ghost predicate IsReported(p: Progress, digits: set<nat>) {
    && IsDecimal(p.done, digits) && IsDecimal(p.total, digits)
    && (|| p.collection == "antennastructure" || p.collection == "ulslicense" || p.collection == "ulslocation"
        || p.collection == "ulsfrequency" || p.collection == "ulsemission")
    && forall c | c in ProgressLine(p, []) :: IsScalar(c)
  }

  lemma ReportedIsInPattern(p: Progress, pattern: Pattern)
    requires IsReported(p, pattern.digits) && pattern.names == COLLECTIONS
    ensures IsNumber(p.done, pattern) && IsNumber(p.total, pattern)
    ensures p.collection in pattern.names
  {
    assert COLLECTIONS[0] in COLLECTIONS && COLLECTIONS[1] in COLLECTIONS && COLLECTIONS[2] in COLLECTIONS;
    assert COLLECTIONS[3] in COLLECTIONS && COLLECTIONS[4] in COLLECTIONS;
  }

  lemma FoundFirst(t: Text, m: Match, rest: Text, matcher: Matcher)
    requires matcher(t) == Some(m) && 0 < m.length <= |t| && t[m.length..] == rest
    ensures FindAll(t, matcher) == [m.progress] + FindAll(rest, matcher)
  {
  }

  lemma ReportedIsRead(p: Progress, rest: Text, pattern: Pattern)
    requires IsReported(p, pattern.digits) && pattern.names == COLLECTIONS
    ensures FindAll(ProgressLine(p, rest), Staged(pattern)) == [p] + FindAll(rest, Staged(pattern))
  {
    var t := ProgressLine(p, rest);
    CollectionsArePlain();
    ReportedIsInPattern(p, pattern);
    ProgressLineReadsBack(p, rest, pattern);
    RestOf(p, rest);
    FoundFirst(t, Match(|t| - |rest|, p), rest, Staged(pattern));
  }

  lemma RestOf(p: Progress, rest: Text)
    ensures |rest| < |ProgressLine(p, rest)|
    ensures ProgressLine(p, rest)[|ProgressLine(p, rest)| - |rest|..] == rest
  {
    LineSplits(p, rest);
  }

  lemma LineSplits(p: Progress, rest: Text)
    ensures ProgressLine(p, []) + rest == ProgressLine(p, rest)
  {
    var name := Points(p.collection) + Points(" records");
    assert name + [] == name;
    Regrouped(p.done, [SLASH] + (p.total + ([SPACE] + name)), rest);
    Regrouped([SLASH], p.total + ([SPACE] + name), rest);
    Regrouped(p.total, [SPACE] + name, rest);
    Regrouped([SPACE], name, rest);
    Regrouped(Points("Staged "), Counts(p, []), rest);
  }

  /** The line as it is written to the log. */
  ghost function Written(p: Progress): (line: seq<Byte>)
    requires forall c | c in ProgressLine(p, []) :: IsScalar(c)
    ensures line != [] && line[0] == 'S' as int
  {
    assert ProgressLine(p, [])[0] == 'S' as int;
    Encode(ProgressLine(p, []))
  }

  /** The line is found in front of the rest of a log. */
  lemma LineIsFound(p: Progress, rest: seq<Byte>, pattern: Pattern)
    requires IsReported(p, pattern.digits) && pattern.names == COLLECTIONS
    ensures FindAll(Decode(Written(p) + rest), Staged(pattern)) == [p] + FindAll(Decode(rest), Staged(pattern))
  {
    DecodeReadsOn(ProgressLine(p, []), rest);
    LineSplits(p, Decode(rest));
    ReportedIsRead(p, Decode(rest), pattern);
  }

  lemma LastOfTwo(earlier: seq<Progress>, p: Progress, later: seq<Progress>)
    ensures Last(earlier + ([p] + later)) == if later == [] then Some(p) else Last(later)
  {
  }

  lemma CutInHead(head: seq<Byte>, line: seq<Byte>, rest: seq<Byte>, from: nat)
    requires from <= |head|
    ensures (head + line + rest)[from..] == head[from..] + (line + rest)
  {
  }

  lemma TailFromHead(head: seq<Byte>, tail: seq<Byte>, p: Progress, later: seq<Progress>, matcher: Matcher)
    requires StartsAtS(matcher) && tail != [] && tail[0] == CAPITAL_S
    requires FindAll(Decode(tail), matcher) == [p] + later
    ensures Last(FindAll(Decode(head + tail), matcher)) == if later == [] then Some(p) else Last(later)
  {
    LogCutsAtS(head, tail, matcher);
    LastOfTwo(FindAll(Decode(head), matcher), p, later);
  }

  /**
   A progress line that lies whole within the last 8192 bytes is reported, if no match follows it:
   whatever stands before it, and wherever the 8192 bytes begin. The bytes that were written after the
   size was taken count too.
   */
  lemma LastLineIsReported(head: seq<Byte>, p: Progress, rest: seq<Byte>, size: nat, pattern: Pattern)
    requires IsReported(p, pattern.digits) && pattern.names == COLLECTIONS
    requires |head| + |Written(p)| <= size <= |head| + |Written(p)| + |rest| && |head| >= size - 8192
    ensures LastProgress(head + Written(p) + rest, size, pattern)
            == if FindAll(Decode(rest), Staged(pattern)) == [] then Some(p) else Last(FindAll(Decode(rest), Staged(pattern)))
  {
    var from := if size <= 8192 then 0 else size - 8192;
    LineIsFound(p, rest, pattern);
    CollectionsArePlain();
    StagedStartsAtS(pattern);
    CutInHead(head, Written(p), rest, from);
    TailFromHead(head[from..], Written(p) + rest, p, FindAll(Decode(rest), Staged(pattern)), Staged(pattern));
  }

  /** Nothing before those 8192 bytes matters. */
  lemma OnlyTheTailMatters(log: seq<Byte>, size: nat, pattern: Pattern)
    requires 8192 <= size <= |log|
    ensures LastProgress(log, size, pattern) == LastProgress(log[size - 8192..], 8192, pattern)
  {
    assert log[size - 8192..][0..] == log[size - 8192..];
  }
}
