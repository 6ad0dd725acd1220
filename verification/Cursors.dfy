/**
 Pagination cursors: a row key printed as text, in URL-safe base64 (section 5 of
 RFC 4648) without its padding. Decoding restores the padding from the length,
 reads the bytes back and parses each field.
 */
module Cursors {
  import opened Text

  type Byte = b: nat | b < 256
  type Sextet = n: nat | n < 64

  // ---- The alphabet -----------------------------------------------------------

  function Letter(n: Sextet): char {
    if n < 26 then 'A' + n as char
    else if n < 52 then 'a' + (n - 26) as char
    else if n < 62 then '0' + (n - 52) as char
    else if n == 62 then '-'
    else '_'
  }

  /** The decoder maps `-` and `_` onto `+` and `/` first, so it takes either spelling. */
  function SextetOf(c: char): Option<Sextet> {
    if 'A' <= c <= 'Z' then Some((c - 'A') as nat)
    else if 'a' <= c <= 'z' then Some((c - 'a') as nat + 26)
    else if '0' <= c <= '9' then Some((c - '0') as nat + 52)
    else if c == '-' || c == '+' then Some(62)
    else if c == '_' || c == '/' then Some(63)
    else None
  }

  lemma LetterIsRead(n: Sextet)
    ensures SextetOf(Letter(n)) == Some(n) && Letter(n) != '=' && Letter(n) < '\U{80}'
  {
  }

  // ---- Encoding ---------------------------------------------------------------

  function First(a: Byte): Sextet { a / 4 }
  function Second(a: Byte, b: Byte): Sextet { a % 4 * 16 + b / 16 }
  function Third(b: Byte, c: Byte): Sextet { b % 16 * 4 + c / 64 }
  function Fourth(c: Byte): Sextet { c % 64 }

  /** Three bytes to four letters; one or two left over to two or three letters and padding. */
  function Encode(bytes: seq<Byte>): string {
    if bytes == [] then []
    else if |bytes| == 1 then [Letter(First(bytes[0])), Letter(Second(bytes[0], 0)), '=', '=']
    else if |bytes| == 2 then [Letter(First(bytes[0])), Letter(Second(bytes[0], bytes[1])), Letter(Third(bytes[1], 0)), '=']
    else
      [Letter(First(bytes[0])), Letter(Second(bytes[0], bytes[1])), Letter(Third(bytes[1], bytes[2])), Letter(Fourth(bytes[2]))]
      + Encode(bytes[3..])
  }

  /** `rstrip("=")`. */
  function StripPadding(s: string): string {
    if s != [] && s[|s| - 1] == '=' then StripPadding(s[..|s| - 1]) else s
  }

  function Padding(n: nat): string {
    if n == 0 then [] else "=" + Padding(n - 1)
  }

  /** `raw + "=" * (-len(raw) % 4)`. */
  function RestorePadding(s: string): string {
    s + Padding(-|s| % 4)
  }

  // ---- Decoding ---------------------------------------------------------------

  /**
   The decoder's state: how many letters of the current group it has, the bits
   carried over from the last one, and how many padding marks in a row.
   */
  datatype Scan = Scan(position: nat, carried: nat, pads: nat, out: seq<Byte>)
  {
    predicate Valid() {
      position < 4 && carried < (if position == 0 then 1 else if position == 1 then 64 else if position == 2 then 16 else 4)
    }
  }

  function Feed(st: Scan, n: Sextet): (r: Scan)
    requires st.Valid()
    ensures r.Valid()
  {
    match st.position
    case 0 => Scan(1, n, 0, st.out)
    case 1 => Scan(2, n % 16, 0, st.out + [st.carried * 4 + n / 16])
    case 2 => Scan(3, n % 4, 0, st.out + [st.carried * 16 + n / 4])
    case _ => Scan(0, 0, 0, st.out + [st.carried * 64 + n])
  }

  /** What the decoder makes of one character. */
  datatype Symbol = Data(n: Sextet) | Pad | Foreign

  function SymbolOf(c: char): Symbol {
    if c == '=' then Pad else if SextetOf(c).Some? then Data(SextetOf(c).value) else Foreign
  }

  function Symbols(s: string): seq<Symbol> {
    seq(|s|, i requires 0 <= i < |s| => SymbolOf(s[i]))
  }

  /** Characters outside the alphabet are passed over; a padded group ends the input; an unfinished one is an error. */
  function ScanFrom(st: Scan, s: seq<Symbol>): Option<seq<Byte>>
    requires st.Valid()
    decreases s
  {
    if s == [] then (if st.position == 0 then Some(st.out) else None)
    else
      match s[0]
      case Data(n) => ScanFrom(Feed(st, n), s[1..])
      case Foreign => ScanFrom(st, s[1..])
      case Pad =>
        if st.position >= 2 && st.position + st.pads + 1 >= 4 then Some(st.out)
        else ScanFrom(if st.position >= 2 then st.(pads := st.pads + 1) else st, s[1..])
  }

  function Decode(s: string): Option<seq<Byte>> {
    if IsAscii(s) then ScanFrom(Scan(0, 0, 0, []), Symbols(s)) else None
  }

  function Unpadded(bytes: seq<Byte>): string {
    StripPadding(Encode(bytes))
  }

  // ---- The round trip on bytes ------------------------------------------------

  lemma LettersArePlain(n: Sextet, m: Sextet, p: Sextet, q: Sextet)
    ensures IsAscii([Letter(n), Letter(m), Letter(p), Letter(q)]) && IsAscii([Letter(n), Letter(m), Letter(p), '='])
    ensures IsAscii([Letter(n), Letter(m), '=', '=']) && Letter(n) != '=' && Letter(m) != '=' && Letter(p) != '=' && Letter(q) != '='
  {
    LetterIsRead(n);
    LetterIsRead(m);
    LetterIsRead(p);
    LetterIsRead(q);
  }

  /** What `Encode` puts in front of the encoding of the rest. */
  lemma EncodedGroup(bytes: seq<Byte>)
    requires |bytes| > 3
    ensures |Encode(bytes)| == 4 + |Encode(bytes[3..])| && Encode(bytes) == Encode(bytes[..3]) + Encode(bytes[3..])
    ensures |Encode(bytes[..3])| == 4
  {
    assert Encode(bytes[..3][3..]) == [];
  }

  lemma SmallEncodings(bytes: seq<Byte>)
    requires 1 <= |bytes| <= 3
    ensures |Encode(bytes)| == 4 && IsAscii(Encode(bytes)) && Encode(bytes)[0] != '=' && Encode(bytes)[1] != '='
    ensures RestorePadding(Unpadded(bytes)) == Encode(bytes)
  {
    var a, b, c := bytes[0], if |bytes| > 1 then bytes[1] else 0, if |bytes| > 2 then bytes[2] else 0;
    LettersArePlain(First(a), Second(a, b), Third(b, c), Fourth(c));
    assert |bytes| == 3 ==> Encode(bytes[3..]) == [];
    StripSmall(Letter(First(a)), Letter(Second(a, b)), Letter(Third(b, c)), Letter(Fourth(c)));
  }

  lemma StripSmall(n: char, m: char, p: char, q: char)
    requires m != '=' && p != '=' && q != '='
    ensures RestorePadding(StripPadding([n, m, '=', '='])) == [n, m, '=', '=']
    ensures RestorePadding(StripPadding([n, m, p, '='])) == [n, m, p, '=']
    ensures RestorePadding(StripPadding([n, m, p, q])) == [n, m, p, q]
  {
    assert [n, m, '=', '='][..3] == [n, m, '='] && [n, m, '='][..2] == [n, m] && [n, m, p, '='][..3] == [n, m, p];
    assert StripPadding([n, m, '=', '=']) == StripPadding([n, m, '=']) == StripPadding([n, m]) == [n, m];
    assert Padding(2) == "=" + Padding(1) && Padding(1) == "=" + Padding(0);
    assert [n, m] + "==" == [n, m, '=', '='] && [n, m, p] + "=" == [n, m, p, '='] && [n, m, p, q] + [] == [n, m, p, q];
  }

  lemma GroupInFront(group: string, rest: string)
    requires |group| == 4 && IsAscii(group) && |rest| % 4 == 0 && IsAscii(rest)
    ensures |group + rest| % 4 == 0 && IsAscii(group + rest) && (group + rest)[0] == group[0] && (group + rest)[1] == group[1]
  {
  }

  lemma {:induction false} EncodedInFours(bytes: seq<Byte>)
    ensures |Encode(bytes)| % 4 == 0 && IsAscii(Encode(bytes))
    ensures bytes != [] ==> |Encode(bytes)| >= 4 && Encode(bytes)[0] != '=' && Encode(bytes)[1] != '='
  {
    if 1 <= |bytes| <= 3 {
      SmallEncodings(bytes);
    } else if |bytes| > 3 {
      EncodedGroup(bytes);
      SmallEncodings(bytes[..3]);
      EncodedInFours(bytes[3..]);
      GroupInFront(Encode(bytes[..3]), Encode(bytes[3..]));
    }
  }

  lemma {:induction false} StripPaddingAppend(a: string, b: string)
    requires b != [] && b[0] != '='
    ensures StripPadding(a + b) == a + StripPadding(b) && StripPadding(b) != []
  {
    if b[|b| - 1] == '=' {
      var shorter := b[..|b| - 1];
      assert (a + b)[..|a + b| - 1] == a + shorter;
      StripPaddingAppend(a, shorter);
    }
  }

  /** Stripping the padding and restoring it from the length is the identity on every encoding. */
  lemma {:induction false} PaddingRestored(bytes: seq<Byte>)
    ensures RestorePadding(Unpadded(bytes)) == Encode(bytes)
  {
    if 1 <= |bytes| <= 3 {
      SmallEncodings(bytes);
    } else if |bytes| > 3 {
      EncodedGroup(bytes);
      PaddingRestored(bytes[3..]);
      EncodedInFours(bytes[3..]);
      PaddingAfterGroup(Encode(bytes[..3]), Encode(bytes[3..]));
    }
  }

  lemma PadAfterFour(group: string, stripped: string)
    requires |group| == 4
    ensures RestorePadding(group + stripped) == group + RestorePadding(stripped)
  {
    var n := -|stripped| % 4;
    assert -|group + stripped| % 4 == n;
    assert group + stripped + Padding(n) == group + (stripped + Padding(n));
  }

  lemma PaddingAfterGroup(group: string, rest: string)
    requires |group| == 4 && rest != [] && rest[0] != '=' && RestorePadding(StripPadding(rest)) == rest
    ensures RestorePadding(StripPadding(group + rest)) == group + rest
  {
    StripPaddingAppend(group, rest);
    PadAfterFour(group, StripPadding(rest));
  }

  /** The encoding as the decoder sees it. */
  function Encoded(bytes: seq<Byte>): seq<Symbol> {
    if bytes == [] then []
    else if |bytes| == 1 then [Data(First(bytes[0])), Data(Second(bytes[0], 0)), Pad, Pad]
    else if |bytes| == 2 then [Data(First(bytes[0])), Data(Second(bytes[0], bytes[1])), Data(Third(bytes[1], 0)), Pad]
    else
      [Data(First(bytes[0])), Data(Second(bytes[0], bytes[1])), Data(Third(bytes[1], bytes[2])), Data(Fourth(bytes[2]))]
      + Encoded(bytes[3..])
  }

  lemma LettersRead(n: Sextet, m: Sextet, p: Sextet, q: Sextet)
    ensures Symbols([Letter(n), Letter(m), Letter(p), Letter(q)]) == [Data(n), Data(m), Data(p), Data(q)]
    ensures Symbols([Letter(n), Letter(m), Letter(p), '=']) == [Data(n), Data(m), Data(p), Pad]
    ensures Symbols([Letter(n), Letter(m), '=', '=']) == [Data(n), Data(m), Pad, Pad]
  {
    LetterIsRead(n);
    LetterIsRead(m);
    LetterIsRead(p);
    LetterIsRead(q);
  }

  lemma {:induction false} EncodedReads(bytes: seq<Byte>)
    ensures Symbols(Encode(bytes)) == Encoded(bytes)
  {
    if bytes != [] {
      var a, b, c := bytes[0], if |bytes| > 1 then bytes[1] else 0, if |bytes| > 2 then bytes[2] else 0;
      LettersRead(First(a), Second(a, b), Third(b, c), Fourth(c));
      if |bytes| > 2 {
        EncodedReads(bytes[3..]);
        var group := [Letter(First(a)), Letter(Second(a, b)), Letter(Third(b, c)), Letter(Fourth(c))];
        assert Symbols(group + Encode(bytes[3..])) == Symbols(group) + Symbols(Encode(bytes[3..]));
      }
    }
  }

  /** The bits of two neighbouring sextets give back the byte they share. */
  lemma BitsRejoin(a: Byte, b: Byte, c: Byte)
    ensures First(a) * 4 + Second(a, b) / 16 == a && Second(a, b) % 16 == b / 16
    ensures b / 16 * 16 + Third(b, c) / 4 == b && Third(b, c) % 4 == c / 64
    ensures c / 64 * 64 + Fourth(c) == c
  {
  }

  lemma ScanData(st: Scan, n: Sextet, rest: seq<Symbol>)
    requires st.Valid()
    ensures ScanFrom(st, [Data(n)] + rest) == ScanFrom(Feed(st, n), rest)
  {
    assert ([Data(n)] + rest)[1..] == rest;
  }

  lemma ScanTwoSextets(out: seq<Byte>, a: Byte, b: Byte, rest: seq<Symbol>)
    ensures ScanFrom(Scan(0, 0, 0, out), [Data(First(a)), Data(Second(a, b))] + rest) == ScanFrom(Scan(2, b / 16, 0, out + [a]), rest)
  {
    BitsRejoin(a, b, 0);
    var second := [Data(Second(a, b))] + rest;
    assert [Data(First(a)), Data(Second(a, b))] + rest == [Data(First(a))] + second;
    ScanData(Scan(0, 0, 0, out), First(a), second);
    ScanData(Scan(1, First(a), 0, out), Second(a, b), rest);
  }

  lemma ScanThird(out: seq<Byte>, b: Byte, c: Byte, rest: seq<Symbol>)
    ensures ScanFrom(Scan(2, b / 16, 0, out), [Data(Third(b, c))] + rest) == ScanFrom(Scan(3, c / 64, 0, out + [b]), rest)
  {
    BitsRejoin(0, b, c);
    ScanData(Scan(2, b / 16, 0, out), Third(b, c), rest);
  }

  lemma ScanGroup(out: seq<Byte>, a: Byte, b: Byte, c: Byte, rest: seq<Symbol>)
    ensures ScanFrom(Scan(0, 0, 0, out), [Data(First(a)), Data(Second(a, b)), Data(Third(b, c)), Data(Fourth(c))] + rest)
         == ScanFrom(Scan(0, 0, 0, out + [a, b, c]), rest)
  {
    var fourth := [Data(Fourth(c))] + rest;
    var third := [Data(Third(b, c))] + fourth;
    assert [Data(First(a)), Data(Second(a, b)), Data(Third(b, c)), Data(Fourth(c))] + rest == [Data(First(a)), Data(Second(a, b))] + third;
    ScanTwoSextets(out, a, b, third);
    ScanThird(out + [a], b, c, fourth);
    BitsRejoin(a, b, c);
    ScanData(Scan(3, c / 64, 0, out + [a] + [b]), Fourth(c), rest);
    assert out + [a] + [b] + [c] == out + [a, b, c];
  }

  lemma ScanOne(out: seq<Byte>, a: Byte)
    ensures ScanFrom(Scan(0, 0, 0, out), [Data(First(a)), Data(Second(a, 0)), Pad, Pad]) == Some(out + [a])
  {
    var pads := [Pad, Pad];
    ScanTwoSextets(out, a, 0, pads);
    assert [Data(First(a)), Data(Second(a, 0)), Pad, Pad] == [Data(First(a)), Data(Second(a, 0))] + pads;
    assert pads[1..] == [Pad];
  }

  lemma ScanTwo(out: seq<Byte>, a: Byte, b: Byte)
    ensures ScanFrom(Scan(0, 0, 0, out), [Data(First(a)), Data(Second(a, b)), Data(Third(b, 0)), Pad]) == Some(out + [a, b])
  {
    var third := [Data(Third(b, 0))] + [Pad];
    assert [Data(First(a)), Data(Second(a, b)), Data(Third(b, 0)), Pad] == [Data(First(a)), Data(Second(a, b))] + third;
    ScanTwoSextets(out, a, b, third);
    ScanThird(out + [a], b, 0, [Pad]);
    assert out + [a] + [b] == out + [a, b];
  }

  lemma {:induction false} ScanEncoded(out: seq<Byte>, bytes: seq<Byte>)
    ensures ScanFrom(Scan(0, 0, 0, out), Encoded(bytes)) == Some(out + bytes)
    decreases bytes
  {
    if bytes == [] {
      assert out + bytes == out;
    } else if |bytes| == 1 {
      ScanOne(out, bytes[0]);
      assert bytes == [bytes[0]];
    } else if |bytes| == 2 {
      ScanTwo(out, bytes[0], bytes[1]);
      assert bytes == [bytes[0], bytes[1]];
    } else {
      var group := [bytes[0], bytes[1], bytes[2]];
      ScanGroup(out, bytes[0], bytes[1], bytes[2], Encoded(bytes[3..]));
      ScanEncoded(out + group, bytes[3..]);
      assert out + group + bytes[3..] == out + bytes;
    }
  }

  /** Unpadded URL-safe base64 is the identity on all byte strings. */
  lemma BytesRoundTrip(bytes: seq<Byte>)
    ensures Decode(RestorePadding(Unpadded(bytes))) == Some(bytes)
  {
    PaddingRestored(bytes);
    EncodedInFours(bytes);
    EncodedReads(bytes);
    ScanEncoded([], bytes);
    assert [] + bytes == bytes;
  }

  // ---- What else the decoder takes --------------------------------------------

  lemma {:induction false} ScanSkipsForeign(st: Scan, a: seq<Symbol>, b: seq<Symbol>)
    requires st.Valid()
    ensures ScanFrom(st, a + [Foreign] + b) == ScanFrom(st, a + b)
    decreases a
  {
    var long, short := a + [Foreign] + b, a + b;
    if a == [] {
      assert long[1..] == short;
    } else {
      assert long[1..] == a[1..] + [Foreign] + b && short[1..] == a[1..] + b;
      match a[0]
      case Data(n) => ScanSkipsForeign(Feed(st, n), a[1..], b);
      case Foreign => ScanSkipsForeign(st, a[1..], b);
      case Pad =>
        if !(st.position >= 2 && st.position + st.pads + 1 >= 4) {
          ScanSkipsForeign(if st.position >= 2 then st.(pads := st.pads + 1) else st, a[1..], b);
        }
    }
  }

  lemma AsciiJoin(a: string, b: string)
    ensures IsAscii(a + b) <==> IsAscii(a) && IsAscii(b)
  {
    assert forall i :: 0 <= i < |a| ==> a[i] == (a + b)[i];
    assert forall i :: 0 <= i < |b| ==> b[i] == (a + b)[|a| + i];
  }

  /** A character that is neither of the alphabet nor padding makes no difference, wherever it stands. */
  lemma ForeignIsSkipped(a: string, c: char, b: string)
    requires c < '\U{80}' && c != '=' && SextetOf(c).None?
    ensures Decode(a + [c] + b) == Decode(a + b)
  {
    assert Symbols(a + [c] + b) == Symbols(a) + [Foreign] + Symbols(b);
    assert Symbols(a + b) == Symbols(a) + Symbols(b);
    ScanSkipsForeign(Scan(0, 0, 0, []), Symbols(a), Symbols(b));
    AsciiJoin(a, b);
    AsciiJoin(a, [c]);
    AsciiJoin(a + [c], b);
  }

  /** How many letters of the alphabet there are. */
  function LetterCount(s: seq<Symbol>): nat {
    if s == [] then 0 else LetterCount(s[1..]) + if s[0].Data? then 1 else 0
  }

  lemma {:induction false} ScanCounts(st: Scan, s: seq<Symbol>)
    requires st.Valid() && Pad !in s
    ensures ScanFrom(st, s).Some? <==> (st.position + LetterCount(s)) % 4 == 0
    decreases s
  {
    if s != [] {
      if s[0].Data? {
        ScanCounts(Feed(st, s[0].n), s[1..]);
      } else {
        ScanCounts(st, s[1..]);
      }
    }
  }

  /** Text without padding is decoded exactly when it is ASCII and its letters come in fours. */
  lemma UnfinishedIsRefused(s: string)
    requires '=' !in s
    ensures Decode(s).Some? <==> IsAscii(s) && LetterCount(Symbols(s)) % 4 == 0
  {
    if IsAscii(s) {
      ScanCounts(Scan(0, 0, 0, []), Symbols(s));
    }
  }

  // ---- Cursors ----------------------------------------------------------------

  /** A printer and the parser that undoes it. */
  datatype Codec<!T, !U> = Codec(print_: T -> U, parse: U -> Option<T>)

  ghost predicate Undoes<T(!new), U>(c: Codec<T, U>) {
    forall x :: c.parse(c.print_(x)) == Some(x)
  }

  ghost predicate Avoids<T(!new)>(c: Codec<T, string>, mark: char) {
    forall x, i :: 0 <= i < |c.print_(x)| ==> c.print_(x)[i] != mark
  }

  const SEPARATOR := '|'

  /** `str.partition`: the text before the first separator, and what follows it if there is one. */
  function Partition(s: string, mark: char): (string, Option<string>) {
    if s == [] then ([], None)
    else if s[0] == mark then ([], Some(s[1..]))
    else
      var (head, tail) := Partition(s[1..], mark);
      ([s[0]] + head, tail)
  }

  lemma {:induction false} PartitionAtFirst(a: string, b: string, mark: char)
    requires forall i :: 0 <= i < |a| ==> a[i] != mark
    ensures Partition(a + [mark] + b, mark) == (a, Some(b))
  {
    var s := a + [mark] + b;
    if a == [] {
      assert s[1..] == b;
    } else {
      PartitionAtFirst(a[1..], b, mark);
      assert s[1..] == a[1..] + [mark] + b;
      assert [s[0]] + a[1..] == a;
    }
  }

  /** The text a cursor carries, back from its base64. */
  function CursorText(utf8: Codec<string, seq<Byte>>, raw: string): Option<string> {
    var bytes := Decode(RestorePadding(raw));
    if bytes.None? then None else utf8.parse(bytes.value)
  }

  function TextCursor(utf8: Codec<string, seq<Byte>>, text: string): string {
    Unpadded(utf8.print_(text))
  }

  lemma TextRoundTrip(utf8: Codec<string, seq<Byte>>, text: string)
    requires Undoes(utf8)
    ensures CursorText(utf8, TextCursor(utf8, text)) == Some(text)
  {
    BytesRoundTrip(utf8.print_(text));
  }

  /** The `(created_at, id)` cursor of the account and notification lists. */
  function EncodePair<A, B>(utf8: Codec<string, seq<Byte>>, first: Codec<A, string>, second: Codec<B, string>, a: A, b: B): string {
    TextCursor(utf8, first.print_(a) + [SEPARATOR] + second.print_(b))
  }

  function DecodePair<A, B>(utf8: Codec<string, seq<Byte>>, first: Codec<A, string>, second: Codec<B, string>, raw: string): Option<(A, B)> {
    var text := CursorText(utf8, raw);
    if text.None? then None
    else
      var (head, tail) := Partition(text.value, SEPARATOR);
      if tail.None? || first.parse(head).None? || second.parse(tail.value).None? then None
      else Some((first.parse(head).value, second.parse(tail.value).value))
  }

  lemma {:induction false} PartitionSplits(s: string, mark: char)
    ensures var (head, tail) := Partition(s, mark);
      && mark !in head && (tail.None? <==> mark !in s) && s == if tail.None? then head else head + [mark] + tail.value
  {
    if s != [] && s[0] != mark {
      PartitionSplits(s[1..], mark);
      var (head, tail) := Partition(s[1..], mark);
      assert s == [s[0]] + s[1..];
      assert tail.Some? ==> [s[0]] + head + [mark] + tail.value == [s[0]] + (head + [mark] + tail.value);
    } else if s != [] {
      assert s == [mark] + s[1..];
    }
  }

  /** A cursor is taken exactly if its text falls in two at its first separator and both parts parse; it never half decodes. */
  lemma PairDecodesExactly<A(!new), B(!new)>(utf8: Codec<string, seq<Byte>>, first: Codec<A, string>, second: Codec<B, string>,
                                             raw: string, a: A, b: B)
    ensures DecodePair(utf8, first, second, raw) == Some((a, b)) <==>
      exists head, tail ::
        && CursorText(utf8, raw) == Some(head + [SEPARATOR] + tail) && SEPARATOR !in head
        && first.parse(head) == Some(a) && second.parse(tail) == Some(b)
  {
    var text := CursorText(utf8, raw);
    if text.Some? {
      PartitionSplits(text.value, SEPARATOR);
      forall head, tail | text == Some(head + [SEPARATOR] + tail) && SEPARATOR !in head
        ensures Partition(text.value, SEPARATOR) == (head, Some(tail))
      {
        PartitionAtFirst(head, tail, SEPARATOR);
      }
    }
  }

  /** A cursor decodes to exactly the key it was minted from, provided the first field never prints the separator. */
  lemma PairRoundTrip<A(!new), B(!new)>(utf8: Codec<string, seq<Byte>>, first: Codec<A, string>, second: Codec<B, string>, a: A, b: B)
    requires Undoes(utf8) && Undoes(first) && Undoes(second) && Avoids(first, SEPARATOR)
    ensures DecodePair(utf8, first, second, EncodePair(utf8, first, second, a, b)) == Some((a, b))
  {
    TextRoundTrip(utf8, first.print_(a) + [SEPARATOR] + second.print_(b));
    PartitionAtFirst(first.print_(a), second.print_(b), SEPARATOR);
  }

  /** The `(name, id)` cursor of the catalogue lists, whose text is one JSON object. */
  function EncodeJson<A, B>(utf8: Codec<string, seq<Byte>>, json: Codec<(A, B), string>, a: A, b: B): string {
    TextCursor(utf8, json.print_((a, b)))
  }

  function DecodeJson<A, B>(utf8: Codec<string, seq<Byte>>, json: Codec<(A, B), string>, raw: string): Option<(A, B)> {
    var text := CursorText(utf8, raw);
    if text.None? then None else json.parse(text.value)
  }

  lemma JsonRoundTrip<A(!new), B(!new)>(utf8: Codec<string, seq<Byte>>, json: Codec<(A, B), string>, a: A, b: B)
    requires Undoes(utf8) && Undoes(json)
    ensures DecodeJson(utf8, json, EncodeJson(utf8, json, a, b)) == Some((a, b))
  {
    TextRoundTrip(utf8, json.print_((a, b)));
  }

  predicate IsKeyChar(c: char) {
    'a' <= c <= 'z' || '0' <= c <= '9' || c == '_'
  }

  predicate IsKey(s: string) {
    s != [] && 'a' <= s[0] <= 'z' && forall i :: 0 <= i < |s| ==> IsKeyChar(s[i])
  }

  /** The shape check of the settings cursor; `$` also matches before a final newline. */
  predicate KeyShape(s: string) {
    IsKey(s) || (s != [] && s[|s| - 1] == '\n' && IsKey(s[..|s| - 1]))
  }

  function DecodeKey(utf8: Codec<string, seq<Byte>>, raw: string): Option<string> {
    var text := CursorText(utf8, raw);
    if text.None? || !KeyShape(text.value) then None else text
  }

  /** A settings cursor comes back as its key exactly when the key has the shape of one. */
  lemma KeyRoundTrip(utf8: Codec<string, seq<Byte>>, key: string)
    requires Undoes(utf8)
    ensures DecodeKey(utf8, TextCursor(utf8, key)) == if KeyShape(key) then Some(key) else None
  {
    TextRoundTrip(utf8, key);
  }
}
