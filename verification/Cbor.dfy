/**
 hsp-core's canonical CBOR: the value type, the encoder, and a reference reader
 that accepts deterministic encodings only (section 4.2.1 of RFC 8949).
 */
module Cbor {
  import opened Basics
  import opened TextOrder

  /** `Map` holds the entries of a BTreeMap<u64, _> in key order. */
  datatype Value =
    | Unsigned(number: nat)
    | Str(text: Text)
    | Bytes(bytes: Text)
    | Bool(truth: bool)
    | Array(items: seq<Value>)
    | Map(entries: seq<Entry>)

  datatype Entry = Entry(key: nat, value: Value)

  predicate KeysAscend(entries: seq<Entry>) {
    forall i, j :: 0 <= i < j < |entries| ==> entries[i].key < entries[j].key
  }

  /** The values the Rust types can hold: u64 numbers and lengths, distinct ordered keys. */
  predicate Valid(v: Value)
    decreases v
  {
    match v
    case Unsigned(n) => n < U64
    case Str(t) => |t| < U64
    case Bytes(b) => |b| < U64
    case Bool(_) => true
    case Array(items) => |items| < U64 && forall i :: 0 <= i < |items| ==> Valid(items[i])
    case Map(entries) =>
      && |entries| < U64
      && KeysAscend(entries)
      && forall i :: 0 <= i < |entries| ==> ValidEntry(entries[i])
  }

  // ------------------------------------------------------------ the encoding

  /** The `width` big-endian bytes of n. */
  function BigEndian(n: nat, width: nat): (b: Text)
    ensures |b| == width
  {
    if width == 0 then [] else BigEndian(n / 256, width - 1) + [n % 256]
  }

  function FromBigEndian(b: Text): nat {
    if b == [] then 0 else 256 * FromBigEndian(b[..|b| - 1]) + b[|b| - 1]
  }

  /** The number of argument bytes that follow the initial byte, in shortest form. */
  function ArgWidth(n: nat): (w: nat)
    requires n < U64
    ensures w in {0, 1, 2, 4, 8}
  {
    if n < 24 then 0 else if n < 0x100 then 1 else if n < 0x1_0000 then 2
    else if n < 0x1_0000_0000 then 4 else 8
  }

  /** The low five bits of the initial byte. */
  function Info(n: nat): (i: nat)
    requires n < U64
    ensures i < 28
  {
    if n < 24 then n else if n < 0x100 then 24 else if n < 0x1_0000 then 25
    else if n < 0x1_0000_0000 then 26 else 27
  }

  function Head(major: nat, n: nat): (b: Text)
    requires major < 8 && n < U64
    ensures |b| == 1 + ArgWidth(n)
  {
    [32 * major + Info(n)] + BigEndian(n, ArgWidth(n))
  }

  function Encoding(v: Value): (b: Text)
    requires Valid(v)
    ensures |b| >= 1
    decreases v
  {
    match v
    case Unsigned(n) => Head(0, n)
    case Bytes(b) => Head(2, |b|) + b
    case Str(t) => Head(3, |t|) + t
    case Array(items) => Head(4, |items|) + ItemsEncoding(items)
    case Map(entries) => Head(5, |entries|) + EntriesEncoding(entries)
    case Bool(truth) => if truth then [0xF5] else [0xF4]
  }

  function ItemsEncoding(items: seq<Value>): Text
    requires forall i :: 0 <= i < |items| ==> Valid(items[i])
    decreases items
  {
    if items == [] then []
    else Encoding(items[0]) + ItemsEncoding(items[1..])
  }

  predicate ValidEntry(e: Entry)
    decreases e
  {
    e.key < U64 && Valid(e.value)
  }

  function EntryEncoding(e: Entry): (b: Text)
    requires ValidEntry(e)
    ensures |b| >= 1
    decreases e
  {
    Head(0, e.key) + Encoding(e.value)
  }

  function EntriesEncoding(entries: seq<Entry>): Text
    requires forall i :: 0 <= i < |entries| ==> ValidEntry(entries[i])
    decreases entries
  {
    if entries == [] then []
    else EntryEncoding(entries[0]) + EntriesEncoding(entries[1..])
  }

  lemma {:induction false} ItemsEncodingSnoc(items: seq<Value>, last: Value)
    requires Valid(last) && forall i :: 0 <= i < |items| ==> Valid(items[i])
    ensures ItemsEncoding(items + [last]) == ItemsEncoding(items) + Encoding(last)
  {
    hide Encoding;
    if items == [] {
      assert items + [last] == [last] && [last][1..] == [];
    } else {
      ItemsEncodingSnoc(items[1..], last);
      assert (items + [last])[1..] == items[1..] + [last];
    }
  }

  lemma {:induction false} EntriesEncodingSnoc(entries: seq<Entry>, last: Entry)
    requires ValidEntry(last) && forall i :: 0 <= i < |entries| ==> ValidEntry(entries[i])
    ensures EntriesEncoding(entries + [last]) == EntriesEncoding(entries) + EntryEncoding(last)
  {
    hide EntryEncoding;
    if entries == [] {
      assert entries + [last] == [last] && [last][1..] == [];
    } else {
      EntriesEncodingSnoc(entries[1..], last);
      assert (entries + [last])[1..] == entries[1..] + [last];
    }
  }

  /** The output buffer and the two routines that push onto it. */
  class Output {
    var data: Text

    constructor ()
      ensures data == []
    {
      data := [];
    }

    method EncodeMajor(major: nat, n: nat)
      requires major < 8 && n < U64
      modifies this
      ensures data == old(data) + Head(major, n)
    {
      if n <= 23 {
        data := data + [32 * major + n];
      } else if n <= 0xFF {
        data := data + [32 * major + 24] + BigEndian(n, 1);
      } else if n <= 0xFFFF {
        data := data + [32 * major + 25] + BigEndian(n, 2);
      } else if n <= 0xFFFF_FFFF {
        data := data + [32 * major + 26] + BigEndian(n, 4);
      } else {
        data := data + [32 * major + 27] + BigEndian(n, 8);
      }
    }

    method EncodeValue(v: Value)
      requires Valid(v)
      modifies this
      ensures data == old(data) + Encoding(v)
      decreases v
    {
      hide Head;
      match v {
        case Unsigned(n) =>
          EncodeMajor(0, n);
        case Bytes(b) =>
          EncodeMajor(2, |b|);
          data := data + b;
        case Str(t) =>
          EncodeMajor(3, |t|);
          data := data + t;
        case Array(items) =>
          EncodeMajor(4, |items|);
          EncodeItems(items);
        case Map(entries) =>
          EncodeMajor(5, |entries|);
          EncodeEntries(entries);
        case Bool(truth) =>
          data := data + [if truth then 0xF5 else 0xF4];
      }
    }

    method EncodeItems(items: seq<Value>)
      requires forall i :: 0 <= i < |items| ==> Valid(items[i])
      modifies this
      ensures data == old(data) + ItemsEncoding(items)
      decreases items
    {
      hide Encoding, Valid;
      var i := 0;
      while i < |items|
        invariant 0 <= i <= |items|
        invariant data == old(data) + ItemsEncoding(items[..i])
      {
        EncodeValue(items[i]);
        ItemsEncodingSnoc(items[..i], items[i]);
        assert items[..i + 1] == items[..i] + [items[i]];
        i := i + 1;
      }
      assert items[..i] == items;
    }

    method EncodeEntries(entries: seq<Entry>)
      requires forall i :: 0 <= i < |entries| ==> ValidEntry(entries[i])
      modifies this
      ensures data == old(data) + EntriesEncoding(entries)
      decreases entries
    {
      hide EntryEncoding, ValidEntry;
      var i := 0;
      while i < |entries|
        invariant 0 <= i <= |entries|
        invariant data == old(data) + EntriesEncoding(entries[..i])
      {
        EncodeEntry(entries[i]);
        EntriesEncodingSnoc(entries[..i], entries[i]);
        assert entries[..i + 1] == entries[..i] + [entries[i]];
        i := i + 1;
      }
      assert entries[..i] == entries;
    }

    method EncodeEntry(e: Entry)
      requires ValidEntry(e)
      modifies this
      ensures data == old(data) + EntryEncoding(e)
      decreases e
    {
      EncodeMajor(0, e.key);
      EncodeValue(e.value);
    }
  }

  // -------------------------------------------------------------- the reader

  datatype Read<+T> = Fail | Got(value: T, rest: Text)

  datatype HeadRead = NoHead | GotHead(major: nat, n: nat, rest: Text)

  function InfoWidth(info: nat): nat {
    if info < 24 then 0 else if info == 24 then 1 else if info == 25 then 2
    else if info == 26 then 4 else 8
  }

  /** Reads an initial byte and its argument, and refuses a longer form than needed. */
  function ReadHead(s: Text): (h: HeadRead)
    ensures h.GotHead? ==> |h.rest| < |s|
  {
    if s == [] || s[0] % 32 > 27 then NoHead else
      var info := s[0] % 32;
      var width := InfoWidth(info);
      if |s| < 1 + width then NoHead else
        var n := if info < 24 then info else FromBigEndian(s[1..1 + width]);
        if n < U64 && Info(n) == info then GotHead(s[0] / 32, n, s[1 + width..]) else NoHead
  }

  function ReadValue(s: Text): (r: Read<Value>)
    ensures r.Got? ==> |r.rest| < |s|
    decreases |s|, 0
  {
    match ReadHead(s)
    case NoHead => Fail
    case GotHead(major, n, rest) =>
      if major == 0 then Got(Unsigned(n), rest)
      else if major == 2 && n <= |rest| then Got(Bytes(rest[..n]), rest[n..])
      else if major == 3 && n <= |rest| then Got(Str(rest[..n]), rest[n..])
      else if major == 4 then
        match ReadItems(rest, n) {
          case Fail => Fail
          case Got(items, rest') => Got(Array(items), rest')
        }
      else if major == 5 then
        match ReadEntries(rest, n) {
          case Fail => Fail
          case Got(entries, rest') => if KeysAscend(entries) then Got(Map(entries), rest') else Fail
        }
      else if major == 7 && (n == 20 || n == 21) then Got(Bool(n == 21), rest)
      else Fail
  }

  function ReadItems(s: Text, n: nat): (r: Read<seq<Value>>)
    ensures r.Got? ==> |r.rest| <= |s|
    decreases |s|, 1
  {
    if n == 0 then Got([], s) else
      match ReadValue(s) {
        case Fail => Fail
        case Got(v, rest) =>
          match ReadItems(rest, n - 1) {
            case Fail => Fail
            case Got(vs, rest') => Got([v] + vs, rest')
          }
      }
  }

  function ReadEntry(s: Text): (r: Read<Entry>)
    ensures r.Got? ==> |r.rest| < |s|
    decreases |s|, 1
  {
    match ReadHead(s)
    case NoHead => Fail
    case GotHead(major, k, rest) =>
      if major != 0 then Fail else
        match ReadValue(rest) {
          case Fail => Fail
          case Got(v, rest') => Got(Entry(k, v), rest')
        }
  }

  function ReadEntries(s: Text, n: nat): (r: Read<seq<Entry>>)
    ensures r.Got? ==> |r.rest| <= |s|
    decreases |s|, 2
  {
    if n == 0 then Got([], s) else
      match ReadEntry(s) {
        case Fail => Fail
        case Got(e, rest) =>
          match ReadEntries(rest, n - 1) {
            case Fail => Fail
            case Got(es, rest') => Got([e] + es, rest')
          }
      }
  }

  // ------------------------------------------------------------------- heads

  function Pow256(w: nat): (p: nat)
    ensures p >= 1
  {
    if w == 0 then 1 else 256 * Pow256(w - 1)
  }

  lemma Pow256Values()
    ensures Pow256(1) == 0x100 && Pow256(2) == 0x1_0000 && Pow256(4) == 0x1_0000_0000 && Pow256(8) == U64
  {
    assert Pow256(3) == 256 * Pow256(2);
    assert Pow256(5) == 256 * Pow256(4);
    assert Pow256(6) == 256 * Pow256(5);
    assert Pow256(7) == 256 * Pow256(6);
  }

  lemma {:induction false} BigEndianRead(n: nat, w: nat)
    requires n < Pow256(w)
    ensures FromBigEndian(BigEndian(n, w)) == n
  {
    if w > 0 {
      BigEndianRead(n / 256, w - 1);
      var b := BigEndian(n, w);
      assert b[..|b| - 1] == BigEndian(n / 256, w - 1);
    }
  }

  lemma {:induction false} BigEndianWrite(b: Text)
    ensures FromBigEndian(b) < Pow256(|b|)
    ensures BigEndian(FromBigEndian(b), |b|) == b
  {
    if b != [] {
      var front := b[..|b| - 1];
      BigEndianWrite(front);
      assert b == front + [b[|b| - 1]];
      assert FromBigEndian(b) / 256 == FromBigEndian(front);
    }
  }

  lemma ReadAfterHead(major: nat, n: nat, rest: Text)
    requires major < 8 && n < U64
    ensures ReadHead(Head(major, n) + rest) == GotHead(major, n, rest)
  {
    var s, w := Head(major, n) + rest, ArgWidth(n);
    assert s[0] == 32 * major + Info(n);
    assert s[1..1 + w] == BigEndian(n, w);
    assert s[1 + w..] == rest;
    if w > 0 {
      Pow256Values();
      BigEndianRead(n, w);
    }
  }

  lemma ReadHeadIsHead(s: Text)
    requires ReadHead(s).GotHead?
    ensures var h := ReadHead(s); h.major < 8 && h.n < U64 && s == Head(h.major, h.n) + h.rest
  {
    var h := ReadHead(s);
    var w := ArgWidth(h.n);
    assert InfoWidth(Info(h.n)) == w;
    var arg := s[1..1 + w];
    BigEndianWrite(arg);
    assert BigEndian(h.n, w) == arg;
    assert s == [s[0]] + arg + s[1 + w..];
  }

  /** The head reader accepts exactly the shortest-form heads. */
  lemma HeadExact(s: Text, major: nat, n: nat, rest: Text)
    ensures ReadHead(s) == GotHead(major, n, rest) <==>
            major < 8 && n < U64 && s == Head(major, n) + rest
  {
    if major < 8 && n < U64 && s == Head(major, n) + rest { ReadAfterHead(major, n, rest); }
    if ReadHead(s) == GotHead(major, n, rest) { ReadHeadIsHead(s); }
  }

  // ------------------------------------------------- reading inverts encoding

  lemma BoolHeads()
    ensures Head(7, 20) == [0xF4] && Head(7, 21) == [0xF5]
  {
  }

  /** Whatever follows an encoding, the reader returns the value and leaves the rest. */
  lemma {:induction false} ReadAfterEncode(v: Value, rest: Text)
    requires Valid(v)
    ensures ReadValue(Encoding(v) + rest) == Got(v, rest)
    decreases v
  {
    hide ReadHead, Head;
    match v
    case Unsigned(n) =>
      ReadAfterHead(0, n, rest);
    case Bytes(b) =>
      ReadAfterHead(2, |b|, b + rest);
      Assoc(Head(2, |b|), b, rest);
      assert (b + rest)[..|b|] == b && (b + rest)[|b|..] == rest;
    case Str(t) =>
      ReadAfterHead(3, |t|, t + rest);
      Assoc(Head(3, |t|), t, rest);
      assert (t + rest)[..|t|] == t && (t + rest)[|t|..] == rest;
    case Array(items) =>
      ReadAfterHead(4, |items|, ItemsEncoding(items) + rest);
      Assoc(Head(4, |items|), ItemsEncoding(items), rest);
      ReadAfterItems(items, rest);
    case Map(entries) =>
      ReadAfterHead(5, |entries|, EntriesEncoding(entries) + rest);
      Assoc(Head(5, |entries|), EntriesEncoding(entries), rest);
      ReadAfterEntries(entries, rest);
    case Bool(truth) =>
      BoolHeads();
      ReadAfterHead(7, if truth then 21 else 20, rest);
  }

  lemma {:induction false} ReadAfterItems(items: seq<Value>, rest: Text)
    requires forall i :: 0 <= i < |items| ==> Valid(items[i])
    ensures ReadItems(ItemsEncoding(items) + rest, |items|) == Got(items, rest)
    decreases items
  {
    if items == [] {
      assert ItemsEncoding(items) + rest == rest;
    } else {
      var tail := ItemsEncoding(items[1..]) + rest;
      assert ItemsEncoding(items) + rest == Encoding(items[0]) + tail;
      ReadAfterEncode(items[0], tail);
      ReadAfterItems(items[1..], rest);
      assert items == [items[0]] + items[1..];
    }
  }

  lemma {:induction false} ReadAfterEntry(e: Entry, rest: Text)
    requires ValidEntry(e)
    ensures ReadEntry(EntryEncoding(e) + rest) == Got(e, rest)
    decreases e
  {
    var tail := Encoding(e.value) + rest;
    assert EntryEncoding(e) + rest == Head(0, e.key) + tail;
    HeadExact(EntryEncoding(e) + rest, 0, e.key, tail);
    ReadAfterEncode(e.value, rest);
  }

  lemma {:induction false} ReadAfterEntries(entries: seq<Entry>, rest: Text)
    requires forall i :: 0 <= i < |entries| ==> ValidEntry(entries[i])
    ensures ReadEntries(EntriesEncoding(entries) + rest, |entries|) == Got(entries, rest)
    decreases entries
  {
    if entries == [] {
      assert EntriesEncoding(entries) + rest == rest;
    } else {
      var tail := EntriesEncoding(entries[1..]) + rest;
      assert EntriesEncoding(entries) + rest == EntryEncoding(entries[0]) + tail;
      ReadAfterEntry(entries[0], tail);
      ReadAfterEntries(entries[1..], rest);
      assert entries == [entries[0]] + entries[1..];
    }
  }

  lemma Assoc(a: Text, b: Text, c: Text)
    ensures (a + b) + c == a + (b + c)
  {
  }

  /** The reader accepts nothing but encodings. */
  lemma {:induction false} ReadIsEncode(s: Text)
    requires ReadValue(s).Got?
    ensures Valid(ReadValue(s).value)
    ensures s == Encoding(ReadValue(s).value) + ReadValue(s).rest
    decreases |s|, 0
  {
    hide ReadHead, Head;
    var h := ReadHead(s);
    ReadHeadIsHead(s);
    BoolHeads();
    var head := Head(h.major, h.n);
    if h.major == 2 || h.major == 3 {
      var b := h.rest[..h.n];
      assert h.rest == b + h.rest[h.n..];
      Assoc(head, b, h.rest[h.n..]);
    } else if h.major == 4 {
      ReadIsItems(h.rest, h.n);
      var r := ReadItems(h.rest, h.n);
      Assoc(head, ItemsEncoding(r.value), r.rest);
    } else if h.major == 5 {
      ReadIsEntries(h.rest, h.n);
      var r := ReadEntries(h.rest, h.n);
      Assoc(head, EntriesEncoding(r.value), r.rest);
    }
  }

  lemma {:induction false} ReadIsItems(s: Text, n: nat)
    requires ReadItems(s, n).Got?
    ensures var r := ReadItems(s, n);
            && |r.value| == n
            && (forall i :: 0 <= i < n ==> Valid(r.value[i]))
            && s == ItemsEncoding(r.value) + r.rest
    decreases |s|, 1
  {
    if n > 0 {
      ReadIsEncode(s);
      var first := ReadValue(s);
      ReadIsItems(first.rest, n - 1);
      var tail := ReadItems(first.rest, n - 1);
      var all := [first.value] + tail.value;
      assert all[0] == first.value && all[1..] == tail.value;
      Assoc(Encoding(first.value), ItemsEncoding(tail.value), tail.rest);
    } else {
      assert s == [] + s;
    }
  }

  lemma {:induction false} ReadIsEntry(s: Text)
    requires ReadEntry(s).Got?
    ensures ValidEntry(ReadEntry(s).value) && s == EntryEncoding(ReadEntry(s).value) + ReadEntry(s).rest
    decreases |s|, 1
  {
    var h := ReadHead(s);
    ReadHeadIsHead(s);
    ReadIsEncode(h.rest);
    var r := ReadValue(h.rest);
    Assoc(Head(h.major, h.n), Encoding(r.value), r.rest);
  }

  lemma {:induction false} ReadIsEntries(s: Text, n: nat)
    requires ReadEntries(s, n).Got?
    ensures var r := ReadEntries(s, n);
            && |r.value| == n
            && (forall i :: 0 <= i < n ==> ValidEntry(r.value[i]))
            && s == EntriesEncoding(r.value) + r.rest
    decreases |s|, 2
  {
    if n > 0 {
      ReadIsEntry(s);
      var first := ReadEntry(s);
      ReadIsEntries(first.rest, n - 1);
      var tail := ReadEntries(first.rest, n - 1);
      var all := [first.value] + tail.value;
      assert all[0] == first.value && all[1..] == tail.value;
      Assoc(EntryEncoding(first.value), EntriesEncoding(tail.value), tail.rest);
    } else {
      assert s == [] + s;
    }
  }

  // ------------------------------------------------------------ main results

  /** Reading and encoding are exact inverses of each other. */
  lemma ReaderExact(s: Text, v: Value, rest: Text)
    ensures ReadValue(s) == Got(v, rest) <==> Valid(v) && s == Encoding(v) + rest
  {
    if ReadValue(s) == Got(v, rest) { ReadIsEncode(s); }
    if Valid(v) && s == Encoding(v) + rest { ReadAfterEncode(v, rest); }
  }

  /** Distinct values have encodings of which neither begins the other. */
  lemma EncodingPrefixFree(v: Value, w: Value)
    requires Valid(v) && Valid(w) && Encoding(v) <= Encoding(w)
    ensures v == w
  {
    var rest := Encoding(w)[|Encoding(v)|..];
    ReaderExact(Encoding(w), v, rest);
    ReaderExact(Encoding(w), w, []);
    assert Encoding(w) == Encoding(v) + rest;
    assert Encoding(w) == Encoding(w) + [];
  }

  /** Numeric order of keys is bytewise order of their encodings. */
  lemma HeadOrder(major: nat, a: nat, b: nat)
    requires major < 8 && a < b < U64
    ensures Less(Head(major, a), Head(major, b))
  {
    if ArgWidth(a) == ArgWidth(b) && Info(a) == Info(b) {
      BigEndianOrder(a, b, ArgWidth(a));
      var ha, hb := Head(major, a), Head(major, b);
      assert ha[1..] == BigEndian(a, ArgWidth(a)) && hb[1..] == BigEndian(b, ArgWidth(a));
    }
  }

  /** The keys of a map come out in increasing bytewise order. */
  lemma MapKeysAscend(entries: seq<Entry>)
    requires Valid(Map(entries))
    ensures Ascending(seq(|entries|, i requires 0 <= i < |entries| => Encoding(Unsigned(KeyOf(entries, i)))))
  {
    forall i, j | 0 <= i < j < |entries|
      ensures Less(Encoding(Unsigned(KeyOf(entries, i))), Encoding(Unsigned(KeyOf(entries, j))))
    {
      assert ValidEntry(entries[i]) && ValidEntry(entries[j]);
      HeadOrder(0, entries[i].key, entries[j].key);
    }
  }

  function KeyOf(entries: seq<Entry>, i: nat): (key: nat)
    requires Valid(Map(entries)) && i < |entries|
    ensures key < U64
  {
    assert ValidEntry(entries[i]);
    entries[i].key
  }

  /** No form that RFC 8949 allows for a head is shorter. */
  lemma HeadShortest(n: nat, width: nat)
    requires n < U64 && width in {0, 1, 2, 4, 8}
    requires if width == 0 then n < 24 else n < Pow256(width)
    ensures ArgWidth(n) <= width
  {
    Pow256Values();
  }

  lemma {:induction false} BigEndianOrder(a: nat, b: nat, w: nat)
    requires a < b < Pow256(w)
    ensures Less(BigEndian(a, w), BigEndian(b, w))
  {
    if a / 256 == b / 256 {
      LessInLastByte(BigEndian(a / 256, w - 1), a % 256, b % 256);
    } else {
      BigEndianOrder(a / 256, b / 256, w - 1);
      LessByPrefix(BigEndian(a / 256, w - 1), BigEndian(b / 256, w - 1), [a % 256], [b % 256]);
    }
  }

  lemma {:induction false} LessInLastByte(p: Text, x: byte, y: byte)
    requires x < y
    ensures Less(p + [x], p + [y])
  {
    if p != [] {
      LessInLastByte(p[1..], x, y);
      assert (p + [x])[1..] == p[1..] + [x] && (p + [y])[1..] == p[1..] + [y];
    }
  }

  lemma {:induction false} LessByPrefix(p: Text, q: Text, x: Text, y: Text)
    requires |p| == |q| && Less(p, q)
    ensures Less(p + x, q + y)
  {
    if p[0] == q[0] {
      LessByPrefix(p[1..], q[1..], x, y);
      assert (p + x)[1..] == p[1..] + x && (q + y)[1..] == q[1..] + y;
    }
  }
}
