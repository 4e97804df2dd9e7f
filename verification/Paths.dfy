/**
 hsp-path: percent-decoding, canonical segments and segment-wise prefixes.

 The source reads a path as bytes and pushes each decoded byte as a `char`, so
 a byte of 0x80 or more becomes a two-byte UTF-8 sequence in the output. The
 model keeps that.
 */
module Paths {
  import opened Basics

  datatype PathError = InvalidPercentEncoding | DoublePercentDecoding

  datatype PathResult<+T> = Good(value: T) | Bad(error: PathError)

  predicate IsHex(b: byte) {
    0x30 <= b <= 0x39 || 0x61 <= b <= 0x66 || 0x41 <= b <= 0x46
  }

  function HexValue(b: byte): (d: byte)
    requires IsHex(b)
    ensures d < 16
  {
    if b <= 0x39 then b - 0x30 else if b >= 0x61 then b - 0x61 + 10 else b - 0x41 + 10
  }

  /** The UTF-8 bytes of the character with code `b`. */
  function CharBytes(b: byte): Text {
    if b < 128 then [b] else [0xC0 + b / 64, 0x80 + b % 64]
  }

  function Prepend(out: Text, r: PathResult<Text>): PathResult<Text> {
    match r
    case Good(rest) => Good(out + rest)
    case Bad(e) => r
  }

  predicate EscapeAt(s: Text, i: int) {
    0 <= i && i + 2 < |s| && s[i] == PERCENT && IsHex(s[i + 1]) && IsHex(s[i + 2])
  }

  /** What one round of percent-decoding means. */
  function Decoded(s: Text): PathResult<Text> {
    if s == [] then Good([])
    else if s[0] != PERCENT then Prepend(CharBytes(s[0]), Decoded(s[1..]))
    else if !EscapeAt(s, 0) then Bad(InvalidPercentEncoding)
    else Prepend(CharBytes(16 * HexValue(s[1]) + HexValue(s[2])), Decoded(s[3..]))
  }

  lemma PrependLaws(a: Text, b: Text, r: PathResult<Text>)
    ensures Prepend([], r) == r
    ensures Prepend(a, Prepend(b, r)) == Prepend(a + b, r)
    ensures Prepend(a, Good([])) == Good(a)
  {
    if r.Good? {
      assert [] + r.value == r.value;
      assert a + (b + r.value) == (a + b) + r.value;
    }
    assert a + [] == a;
  }

  /** The decoding loop: one pass over the input, pushing onto the output. */
  method PercentDecodeOnce(input: Text) returns (r: PathResult<Text>)
    ensures r == Decoded(input)
  {
    var output: Text := [];
    var i := 0;
    assert input[0..] == input;
    PrependLaws([], [], Decoded(input));
    while i < |input|
      invariant 0 <= i <= |input|
      invariant Decoded(input) == Prepend(output, Decoded(input[i..]))
    {
      var b := input[i];
      ghost var tail := input[i..];
      if b != PERCENT {
        assert tail[1..] == input[i + 1..];
        PrependLaws(output, CharBytes(b), Decoded(input[i + 1..]));
        output := output + CharBytes(b);
        i := i + 1;
      } else {
        if i + 2 >= |input| || !IsHex(input[i + 1]) || !IsHex(input[i + 2]) {
          return Bad(InvalidPercentEncoding);
        }
        var decoded := 16 * HexValue(input[i + 1]) + HexValue(input[i + 2]);
        assert tail[3..] == input[i + 3..];
        PrependLaws(output, CharBytes(decoded), Decoded(input[i + 3..]));
        output := output + CharBytes(decoded);
        i := i + 3;
      }
    }
    PrependLaws(output, [], Good([]));
    r := Good(output);
  }

  /** Some `%` is followed by two hex digits. */
  predicate HasNestedEscape(s: Text) {
    exists i :: 0 <= i < |s| && EscapeAt(s, i)
  }

  function Split(s: Text): (segments: seq<Text>)
    ensures |segments| >= 1
  {
    if s == [] then [[]]
    else if s[0] == SLASH then [[]] + Split(s[1..])
    else OntoFirst(s[0], Split(s[1..]))
  }

  function Join(segments: seq<Text>): Text
    requires |segments| >= 1
  {
    if |segments| == 1 then segments[0] else segments[0] + [SLASH] + Join(segments[1..])
  }

  function CanonicalSegments(path: Text): PathResult<seq<Text>> {
    match Decoded(path)
    case Bad(e) => Bad(e)
    case Good(d) => if HasNestedEscape(d) then Bad(DoublePercentDecoding) else Good(Split(d))
  }

  function CanonicalPath(path: Text): PathResult<Text> {
    match CanonicalSegments(path)
    case Bad(e) => Bad(e)
    case Good(segments) => if |segments| >= 1 then Good(Join(segments)) else Good([])
  }

  predicate SegmentPrefixMatches(prefix: Text, candidate: Text) {
    var p := CanonicalSegments(prefix);
    var c := CanonicalSegments(candidate);
    p.Good? && c.Good? && |p.value| <= |c.value| &&
    forall i :: 0 <= i < |p.value| ==> p.value[i] == c.value[i]
  }

  /** `path` is `prefix` or continues it after a slash. */
  predicate Under(prefix: Text, path: Text) {
    path == prefix || prefix + [SLASH] <= path
  }

  // ---------------------------------------------------------------- splitting

  lemma {:induction false} JoinSplit(s: Text)
    ensures Join(Split(s)) == s
  {
    if s != [] {
      JoinSplit(s[1..]);
      var rest := Split(s[1..]);
      if s[0] == SLASH {
        assert ([[]] + rest)[1..] == rest;
      } else {
        var all := [[s[0]] + rest[0]] + rest[1..];
        assert all[1..] == rest[1..];
      }
      assert s == [s[0]] + s[1..];
    }
  }

  function OntoFirst(b: byte, segments: seq<Text>): seq<Text>
    requires |segments| >= 1
  {
    [[b] + segments[0]] + segments[1..]
  }

  lemma PushFront(b: byte, x: seq<Text>, y: seq<Text>)
    requires |x| >= 1
    ensures OntoFirst(b, x + y) == OntoFirst(b, x) + y
  {
    assert (x + y)[1..] == x[1..] + y;
  }

  /** Splitting a concatenation at a slash. */
  lemma {:induction false} SplitAtSlash(a: Text, b: Text)
    ensures Split(a + [SLASH] + b) == Split(a) + Split(b)
  {
    var s := a + [SLASH] + b;
    if a == [] {
      assert s[1..] == b;
    } else {
      var t := a[1..];
      assert s[1..] == t + [SLASH] + b && s[0] == a[0];
      SplitAtSlash(t, b);
      if a[0] == SLASH {
        assert [[]] + (Split(t) + Split(b)) == ([[]] + Split(t)) + Split(b);
      } else {
        PushFront(a[0], Split(t), Split(b));
      }
    }
  }

  lemma {:induction false} JoinAppend(a: seq<Text>, b: seq<Text>)
    requires |a| >= 1 && |b| >= 1
    ensures Join(a + b) == Join(a) + [SLASH] + Join(b)
  {
    if |a| == 1 {
      assert (a + b)[1..] == b;
    } else {
      JoinAppend(a[1..], b);
      assert (a + b)[1..] == a[1..] + b;
    }
  }

  /** Segment-wise prefix of split texts is `Under` on the texts themselves. */
  lemma SegmentPrefixIsUnder(p: Text, c: Text)
    ensures Split(p) <= Split(c) <==> Under(p, c)
  {
    var sp, sc := Split(p), Split(c);
    if sp <= sc {
      JoinSplit(p);
      JoinSplit(c);
      var rest := sc[|sp|..];
      assert sc == sp + rest;
      if rest == [] {
        assert sp == sc;
      } else {
        JoinAppend(sp, rest);
        assert c == p + [SLASH] + Join(rest);
      }
    }
    if p + [SLASH] <= c {
      var rest := c[|p| + 1..];
      assert c == p + [SLASH] + rest;
      SplitAtSlash(p, rest);
    }
  }

  // ------------------------------------------------------------ main results

  /** canonical_path is decoding followed by the nested-escape check. */
  lemma CanonicalPathIsDecoded(path: Text)
    ensures CanonicalPath(path).Good? <==>
            Decoded(path).Good? && !HasNestedEscape(Decoded(path).value)
    ensures CanonicalPath(path).Good? ==>
              CanonicalPath(path).value == Decoded(path).value &&
              CanonicalSegments(path) == Good(Split(CanonicalPath(path).value))
  {
    if Decoded(path).Good? { JoinSplit(Decoded(path).value); }
  }

  /**
   A token prefix matches a candidate exactly when both canonicalise and the
   canonical candidate is the canonical prefix or extends it after a slash.
   */
  lemma SegmentPrefixMatchesExactly(prefix: Text, candidate: Text)
    ensures SegmentPrefixMatches(prefix, candidate) <==>
            CanonicalPath(prefix).Good? && CanonicalPath(candidate).Good? &&
            Under(CanonicalPath(prefix).value, CanonicalPath(candidate).value)
  {
    CanonicalPathIsDecoded(prefix);
    CanonicalPathIsDecoded(candidate);
    if CanonicalPath(prefix).Good? && CanonicalPath(candidate).Good? {
      var p, c := CanonicalPath(prefix).value, CanonicalPath(candidate).value;
      SegmentPrefixIsUnder(p, c);
      assert |Split(p)| <= |Split(c)| ==>
          (Split(p) <= Split(c) <==> forall i :: 0 <= i < |Split(p)| ==> Split(p)[i] == Split(c)[i]);
    }
  }

  lemma UnderTransitive(a: Text, b: Text, c: Text)
    requires Under(a, b) && Under(b, c)
    ensures Under(a, c)
  {
    if a != b && b != c {
      assert (a + [SLASH]) <= b <= c;
    }
  }

  lemma SegmentPrefixMatchesTransitive(a: Text, b: Text, c: Text)
    requires SegmentPrefixMatches(a, b) && SegmentPrefixMatches(b, c)
    ensures SegmentPrefixMatches(a, c)
  {
    SegmentPrefixMatchesExactly(a, b);
    SegmentPrefixMatchesExactly(b, c);
    SegmentPrefixMatchesExactly(a, c);
    UnderTransitive(CanonicalPath(a).value, CanonicalPath(b).value, CanonicalPath(c).value);
  }

  /** Decoding a text without `%`: ASCII stays, anything else grows. */
  lemma {:induction false} DecodePercentFree(s: Text)
    requires PERCENT !in s
    ensures Decoded(s).Good? && |Decoded(s).value| >= |s| && PERCENT !in Decoded(s).value
    ensures IsAscii(s) ==> Decoded(s).value == s
    ensures !IsAscii(s) ==> |Decoded(s).value| > |s|
  {
    if s != [] {
      var t := s[1..];
      assert s == [s[0]] + t;
      assert PERCENT !in t;
      DecodePercentFree(t);
      if s[0] < 128 && IsAscii(t) { assert IsAscii(s); }
    }
  }

  lemma NestedEscapeOfTail(s: Text)
    requires s != []
    ensures HasNestedEscape(s[1..]) ==> HasNestedEscape(s)
  {
    var t := s[1..];
    if HasNestedEscape(t) {
      var i :| 0 <= i < |t| && EscapeAt(t, i);
      assert EscapeAt(s, i + 1);
    }
  }

  /** A `%` that no hex pair follows stops the decoder. */
  lemma {:induction false} DecodeBarePercent(s: Text)
    requires PERCENT in s && !HasNestedEscape(s)
    ensures Decoded(s) == Bad(InvalidPercentEncoding)
  {
    if s[0] != PERCENT {
      assert s == [s[0]] + s[1..];
      NestedEscapeOfTail(s);
      DecodeBarePercent(s[1..]);
    }
  }

  /**
   Canonicalising a canonical path again: exactly for ASCII results without `%`
   does it give the same text. An ASCII result never turns into another text;
   with a `%` left in it, it is refused. A result with a byte outside ASCII is
   re-encoded and grows.
   */
  lemma CanonicalPathAgain(path: Text)
    requires CanonicalPath(path).Good?
    ensures var q := CanonicalPath(path).value;
            && (CanonicalPath(q) == Good(q) <==> IsAscii(q) && PERCENT !in q)
            && (PERCENT in q ==> CanonicalPath(q) == Bad(InvalidPercentEncoding))
            && (PERCENT !in q && !IsAscii(q) ==> CanonicalPath(q).Good? && |CanonicalPath(q).value| > |q|)
  {
    var q := CanonicalPath(path).value;
    CanonicalPathIsDecoded(path);
    CanonicalPathIsDecoded(q);
    if PERCENT in q {
      DecodeBarePercent(q);
    } else {
      DecodePercentFree(q);
      assert !HasNestedEscape(Decoded(q).value);
    }
  }

  // ------------------------------------------------- what the escapes stand for

  /** How one byte is written: as itself, or as `%` and two digits, each in either case. */
  datatype Spelling = Literal | Escaped(upperHigh: bool, upperLow: bool)

  function Digit(d: nat, upper: bool): byte
    requires d < 16
  {
    if upper then Ascii("0123456789ABCDEF")[d] else Ascii("0123456789abcdef")[d]
  }

  function SpelledByte(b: byte, how: Spelling): Text {
    match how
    case Literal => [b]
    case Escaped(high, low) => [PERCENT, Digit(b / 16, high), Digit(b % 16, low)]
  }

  function Spelled(s: Text, how: seq<Spelling>): Text
    requires |how| == |s|
  {
    if s == [] then [] else SpelledByte(s[0], how[0]) + Spelled(s[1..], how[1..])
  }

  /** A percent sign must be escaped. */
  predicate Spellable(s: Text, how: seq<Spelling>) {
    |how| == |s| && forall i :: 0 <= i < |s| && s[i] == PERCENT ==> how[i].Escaped?
  }

  /** The code points of a UTF-8 text of one- and two-byte sequences. */
  function Characters(t: Text): seq<int> {
    if t == [] then []
    else if t[0] < 0x80 then [t[0]] + Characters(t[1..])
    else if |t| == 1 then [t[0]]
    else [64 * (t[0] - 0xC0) + (t[1] - 0x80)] + Characters(t[2..])
  }

  lemma DigitMeans(d: nat, upper: bool)
    requires d < 16
    ensures IsHex(Digit(d, upper)) && HexValue(Digit(d, upper)) == d
  {
    var t := if upper then Ascii("0123456789ABCDEF") else Ascii("0123456789abcdef");
    assert t == (if upper then [0x30, 0x31, 0x32, 0x33, 0x34, 0x35, 0x36, 0x37, 0x38, 0x39, 0x41, 0x42, 0x43, 0x44, 0x45, 0x46]
                 else [0x30, 0x31, 0x32, 0x33, 0x34, 0x35, 0x36, 0x37, 0x38, 0x39, 0x61, 0x62, 0x63, 0x64, 0x65, 0x66]);
  }

  lemma HexIsDigit(b: byte) returns (upper: bool)
    requires IsHex(b)
    ensures HexValue(b) < 16 && b == Digit(HexValue(b), upper)
  {
    upper := b <= 0x46;
    DigitMeans(HexValue(b), upper);
    HexOneToOne(b, Digit(HexValue(b), upper));
  }

  lemma HexOneToOne(a: byte, b: byte)
    requires IsHex(a) && IsHex(b) && HexValue(a) == HexValue(b) && (a <= 0x46 <==> b <= 0x46)
    ensures a == b
  {
  }

  lemma CharactersOf(b: byte, rest: Text)
    ensures Characters(CharBytes(b) + rest) == [b as int] + Characters(rest)
  {
    var t := CharBytes(b) + rest;
    if b < 128 { assert t[1..] == rest; } else { assert t[2..] == rest; }
  }

  /** Decoding one spelled byte in front of anything. */
  lemma DecodeOne(b: byte, how: Spelling, rest: Text)
    requires b == PERCENT ==> how.Escaped?
    ensures Decoded(SpelledByte(b, how) + rest) == Prepend(CharBytes(b), Decoded(rest))
  {
    var s := SpelledByte(b, how) + rest;
    match how
    case Literal => assert s[1..] == rest;
    case Escaped(high, low) =>
      DigitMeans(b / 16, high);
      DigitMeans(b % 16, low);
      assert s[1] == Digit(b / 16, high) && s[2] == Digit(b % 16, low) && s[3..] == rest;
      assert 16 * (b / 16) + b % 16 == b;
  }

  /**
   Decoding undoes every way of escaping, whatever bytes are escaped and in
   whatever case the digits are: an ASCII text comes back itself, any other
   byte as the UTF-8 character of its code.
   */
  lemma {:induction false} DecodeSpelled(s: Text, how: seq<Spelling>)
    requires Spellable(s, how)
    ensures Decoded(Spelled(s, how)).Good?
    ensures IsAscii(s) ==> Decoded(Spelled(s, how)) == Good(s)
    ensures Characters(Decoded(Spelled(s, how)).value) == s
  {
    if s != [] {
      var rest := Spelled(s[1..], how[1..]);
      assert forall i :: 0 <= i < |s[1..]| ==> s[1..][i] == s[i + 1] && how[1..][i] == how[i + 1];
      DecodeSpelled(s[1..], how[1..]);
      DecodeOne(s[0], how[0], rest);
      CharactersOf(s[0], Decoded(rest).value);
      assert s == [s[0]] + s[1..];
    }
  }

  /** And only such texts decode: whatever decodes is a spelling of what it stands for. */
  lemma {:induction false} DecodableIsSpelled(t: Text) returns (s: Text, how: seq<Spelling>)
    requires Decoded(t).Good?
    ensures Spellable(s, how) && t == Spelled(s, how)
  {
    if t == [] {
      s, how := [], [];
    } else {
      var b: byte, one: Spelling, n := t[0], Literal, 1;
      if t[0] == PERCENT {
        var high := HexIsDigit(t[1]);
        var low := HexIsDigit(t[2]);
        b, one, n := 16 * HexValue(t[1]) + HexValue(t[2]), Escaped(high, low), 3;
        assert b / 16 == HexValue(t[1]) && b % 16 == HexValue(t[2]);
      }
      var s', how' := DecodableIsSpelled(t[n..]);
      s, how := [b] + s', [one] + how';
      assert s[1..] == s' && how[1..] == how';
      assert t == SpelledByte(b, one) + t[n..];
    }
  }

  /** A `%` and two hexadecimal digits, written out. */
  predicate LooksEscaped(s: Text) {
    exists i :: 0 <= i < |s| - 2 && s[i] == 0x25 &&
      s[i + 1] in Ascii("0123456789abcdefABCDEF") && s[i + 2] in Ascii("0123456789abcdefABCDEF")
  }

  lemma HexDigits(b: byte)
    ensures IsHex(b) <==> b in Ascii("0123456789abcdefABCDEF")
  {
    var t := Ascii("0123456789abcdefABCDEF");
    assert t == [0x30, 0x31, 0x32, 0x33, 0x34, 0x35, 0x36, 0x37, 0x38, 0x39, 0x61, 0x62, 0x63, 0x64, 0x65, 0x66,
                 0x41, 0x42, 0x43, 0x44, 0x45, 0x46];
  }

  /** Every spelling of an ASCII path canonicalises to it, unless it would decode again. */
  lemma CanonicalOfSpelled(s: Text, how: seq<Spelling>)
    requires Spellable(s, how) && IsAscii(s)
    ensures CanonicalPath(Spelled(s, how)) == if LooksEscaped(s) then Bad(DoublePercentDecoding) else Good(s)
  {
    DecodeSpelled(s, how);
    JoinSplit(s);
    if HasNestedEscape(s) {
      var i :| 0 <= i < |s| && EscapeAt(s, i);
      HexDigits(s[i + 1]);
      HexDigits(s[i + 2]);
      assert LooksEscaped(s);
    }
    if LooksEscaped(s) {
      var i :| 0 <= i < |s| - 2 && s[i] == 0x25 &&
        s[i + 1] in Ascii("0123456789abcdefABCDEF") && s[i + 2] in Ascii("0123456789abcdefABCDEF");
      HexDigits(s[i + 1]);
      HexDigits(s[i + 2]);
      assert EscapeAt(s, i);
    }
  }

  // ---------------------------------------------- prefixes canonicalised twice

  /** The text after one more decoding, for a text without `%`. */
  function Recoded(s: Text): Text
    requires PERCENT !in s
  {
    DecodePercentFree(s);
    Decoded(s).value
  }

  lemma RecodedStep(s: Text)
    requires PERCENT !in s && s != []
    ensures PERCENT !in s[1..] && Recoded(s) == CharBytes(s[0]) + Recoded(s[1..])
  {
    assert forall i :: 0 <= i < |s[1..]| ==> s[1..][i] == s[i + 1];
    DecodePercentFree(s[1..]);
  }

  lemma {:induction false} RecodedAscii(s: Text)
    requires PERCENT !in s
    ensures IsAscii(Recoded(s)) <==> IsAscii(s)
    ensures Recoded(s) == s <==> IsAscii(s)
  {
    DecodePercentFree(s);
    if s != [] {
      RecodedStep(s);
      RecodedAscii(s[1..]);
      hide Decoded;
      var head, tail := CharBytes(s[0]), Recoded(s[1..]);
      assert s == [s[0]] + s[1..];
      assert forall i :: 0 <= i < |tail| ==> (head + tail)[|head| + i] == tail[i];
      assert (head + tail)[0] == head[0];
    }
  }

  lemma {:induction false} SplitInside(s: Text)
    requires PERCENT !in s
    ensures forall i :: 0 <= i < |Split(s)| ==> PERCENT !in Split(s)[i]
  {
    if s != [] {
      RecodedStep(s);
      SplitInside(s[1..]);
    }
  }

  /** Decoding again leaves slashes alone, so it works segment by segment. */
  lemma {:induction false} RecodedSegments(s: Text, i: nat)
    requires PERCENT !in s && i < |Split(s)|
    ensures |Split(Recoded(s))| == |Split(s)| && PERCENT !in Split(s)[i]
    ensures Split(Recoded(s))[i] == Recoded(Split(s)[i])
  {
    hide Decoded;
    SplitInside(s);
    if s == [] {
      RecodedEmpty();
    } else {
      RecodedStep(s);
      var tail := s[1..];
      RecodedSegments(tail, if s[0] == SLASH && i > 0 then i - 1 else if s[0] == SLASH then 0 else i);
      var r := Recoded(tail);
      if s[0] == SLASH {
        assert Recoded(s) == [SLASH] + r && Recoded(s)[1..] == r;
        if i == 0 { RecodedEmpty(); }
      } else {
        SplitHead(CharBytes(s[0]), r);
        if i == 0 {
          RecodedStep(Split(s)[0]);
          assert Split(s)[0][1..] == Split(tail)[0];
        }
      }
    }
  }

  lemma RecodedEmpty()
    ensures Recoded([]) == [] && Split([]) == [[]]
  {
  }

  /** Text without a slash in front belongs to the first segment. */
  lemma {:induction false} SplitHead(head: Text, s: Text)
    requires SLASH !in head
    ensures Split(head + s) == [head + Split(s)[0]] + Split(s)[1..]
    decreases |head|
  {
    if head == [] {
      assert head + s == s && [] + Split(s)[0] == Split(s)[0];
    } else {
      assert (head + s)[1..] == head[1..] + s;
      SplitHead(head[1..], s);
      assert [head[0]] + (head[1..] + Split(s)[0]) == head + Split(s)[0];
    }
  }

  predicate AllAscii(segments: seq<Text>) {
    forall i :: 0 <= i < |segments| ==> IsAscii(segments[i])
  }

  lemma AllAsciiSplit(first: Text, rest: seq<Text>)
    ensures AllAscii([first] + rest) <==> IsAscii(first) && AllAscii(rest)
  {
    hide IsAscii;
    var all := [first] + rest;
    assert all[0] == first && forall i :: 0 <= i < |rest| ==> all[i + 1] == rest[i];
    if AllAscii(all) { forall i | 0 <= i < |rest| ensures IsAscii(rest[i]) { assert IsAscii(all[i + 1]); } }
  }

  lemma AsciiCons(b: byte, s: Text)
    ensures IsAscii([b] + s) <==> b < 128 && IsAscii(s)
  {
    var all := [b] + s;
    assert all[0] == b && forall i :: 0 <= i < |s| ==> all[i + 1] == s[i];
    if IsAscii(all) { forall i | 0 <= i < |s| ensures s[i] < 128 { assert all[i + 1] < 128; } }
  }

  lemma {:induction false} SplitAscii(s: Text)
    ensures IsAscii(s) <==> AllAscii(Split(s))
  {
    if s != [] {
      hide IsAscii, AllAscii;
      var rest := Split(s[1..]);
      SplitAscii(s[1..]);
      AsciiCons(s[0], s[1..]);
      assert s == [s[0]] + s[1..];
      if s[0] == SLASH {
        AllAsciiSplit([], rest);
        assert IsAscii([]) by { EmptyAscii(); }
      } else {
        AllAsciiSplit([s[0]] + rest[0], rest[1..]);
        AllAsciiSplit(rest[0], rest[1..]);
        AsciiCons(s[0], rest[0]);
        assert rest == [rest[0]] + rest[1..];
      }
    }
  }

  lemma EmptyAscii()
    ensures IsAscii([])
  {
  }

  /**
   A prefix that matches a canonical path, which the match canonicalises once
   more, lies segment-wise over everything below that path exactly when it is ASCII.
   */
  lemma MatchedPrefixCovers(prefix: Text, raw: Text, path: Text)
    requires CanonicalPath(raw).Good? && SegmentPrefixMatches(prefix, CanonicalPath(raw).value)
    requires Under(CanonicalPath(raw).value, path)
    ensures CanonicalPath(prefix).Good?
    ensures Under(CanonicalPath(prefix).value, path) <==> IsAscii(CanonicalPath(prefix).value)
  {
    var q := CanonicalPath(raw).value;
    SegmentPrefixMatchesExactly(prefix, q);
    CanonicalPathAgain(raw);
    var p := CanonicalPath(prefix).value;
    CanonicalPathIsDecoded(q);
    hide CanonicalPath, CanonicalSegments, Decoded, Split, Under, HasNestedEscape;
    assert CanonicalPath(q).value == Recoded(q) by { DecodePercentFree(q); }
    SegmentPrefixIsUnder(p, Recoded(q));
    SegmentPrefixIsUnder(q, path);
    SegmentPrefixIsUnder(p, path);
    SplitAscii(p);
    if Split(q) != [] { RecodedSegments(q, 0); }
    forall i | 0 <= i < |Split(p)|
      ensures Split(path)[i] == Split(q)[i] && PERCENT !in Split(q)[i] && Split(p)[i] == Recoded(Split(q)[i])
      ensures Split(p)[i] == Split(path)[i] <==> IsAscii(Split(p)[i])
    {
      RecodedSegments(q, i);
      RecodedAscii(Split(q)[i]);
    }
  }

  /** At most one decoding happens, however many layers canonicalise an ASCII path. */
  function Layers(path: Text, n: nat): PathResult<Text> {
    if n == 0 then Good(path)
    else match Layers(path, n - 1) {
      case Bad(e) => Bad(e)
      case Good(q) => CanonicalPath(q)
    }
  }

  lemma {:induction false} LayersDecodeOnce(path: Text, n: nat)
    requires n >= 1
    requires CanonicalPath(path).Good? ==> IsAscii(CanonicalPath(path).value)
    ensures Layers(path, n).Good? ==> Layers(path, n) == CanonicalPath(path)
  {
    if n == 1 {
      assert Layers(path, 0) == Good(path);
    } else {
      LayersDecodeOnce(path, n - 1);
      if Layers(path, n - 1).Good? { CanonicalPathAgain(path); }
    }
  }

  /** Outside ASCII the second layer does decode again: "%C3" gives two bytes, then four. */
  lemma NonAsciiIsRecoded()
    ensures var p: Text := [0x25, 0x43, 0x33];
            var q: Text := [0xC3, 0x83];
            CanonicalPath(p) == Good(q) && CanonicalPath(q).Good? && CanonicalPath(q).value != q
  {
    var p: Text := [0x25, 0x43, 0x33];
    var q: Text := [0xC3, 0x83];
    assert EscapeAt(p, 0) && HexValue(p[1]) == 12 && HexValue(p[2]) == 3;
    PrependLaws(q, [], Good([]));
    assert p[3..] == [] && CharBytes(0xC3) == q;
    assert PERCENT !in q;
    CanonicalPathIsDecoded(p);
    CanonicalPathIsDecoded(q);
    DecodePercentFree(q);
  }
}
