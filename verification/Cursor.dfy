/**
  The pagination cursor: an instant and an identity in 21 big-endian bytes, as an unpadded
  base64url token (section 5 of RFC 4648).
 */
module Cursor {
  import opened Prelude
  import opened Decimal

  // ----- big-endian numbers -----

  function Pow256(n: nat): nat { if n == 0 then 1 else 256 * Pow256(n - 1) }

  function BigEndian(v: nat, n: nat): seq<Byte> {
    if n == 0 then [] else BigEndian(v / 256, n - 1) + [v % 256]
  }

  function FromBigEndian(s: seq<Byte>): nat {
    if s == [] then 0 else 256 * FromBigEndian(s[..|s| - 1]) + s[|s| - 1]
  }

  lemma {:induction false} BigEndianLength(v: nat, n: nat)
    ensures |BigEndian(v, n)| == n
  {
    if n > 0 { BigEndianLength(v / 256, n - 1); }
  }

  lemma {:induction false} BigEndianRoundTrip(v: nat, n: nat)
    requires v < Pow256(n)
    ensures FromBigEndian(BigEndian(v, n)) == v
  {
    if n > 0 {
      BigEndianLength(v / 256, n - 1);
      BigEndianRoundTrip(v / 256, n - 1);
      assert BigEndian(v, n)[..n - 1] == BigEndian(v / 256, n - 1);
    }
  }

  const TWO_TO_32: nat := 0x1_0000_0000
  const TWO_TO_64: nat := 0x1_0000_0000_0000_0000

  lemma Powers()
    ensures Pow256(4) == TWO_TO_32 && Pow256(8) == TWO_TO_64
  {
    assert Pow256(1) == 256;
    assert Pow256(2) == 65536;
    assert Pow256(4) == TWO_TO_32;
    assert Pow256(6) == 65536 * TWO_TO_32;
  }

  /** The two's complement of a signed 64-bit number, and back. */
  function Unsigned(x: Int64): nat { if x < 0 then x + TWO_TO_64 else x }

  function Signed(u: nat): Int64
    requires u < TWO_TO_64
  {
    if u > MAX_INT64 then u - TWO_TO_64 else u
  }

  // ----- base64url without padding -----

  function Letter(v: nat): char
    requires v < 64
  {
    if v < 26 then ('A' as int + v) as char
    else if v < 52 then ('a' as int + v - 26) as char
    else if v < 62 then ('0' as int + v - 52) as char
    else if v == 62 then '-'
    else '_'
  }

  function LetterValue(c: char): Option<nat> {
    if 'A' <= c <= 'Z' then Some(c as int - 'A' as int)
    else if 'a' <= c <= 'z' then Some(c as int - 'a' as int + 26)
    else if '0' <= c <= '9' then Some(c as int - '0' as int + 52)
    else if c == '-' then Some(62)
    else if c == '_' then Some(63)
    else None
  }

  lemma LetterRoundTrip(v: nat)
    requires v < 64
    ensures LetterValue(Letter(v)) == Some(v)
    ensures Letter(v) != '\n' && Letter(v) != '\r'
  {
  }

  function Letters(values: seq<nat>): string
    requires forall i :: 0 <= i < |values| ==> values[i] < 64
  {
    if values == [] then "" else Letters(values[..|values| - 1]) + [Letter(values[|values| - 1])]
  }

  /** The six-bit values of the bytes; a last group of one or two bytes is filled with zero bits. */
  function Sextets(s: seq<Byte>): (r: seq<nat>)
    ensures forall i :: 0 <= i < |r| ==> r[i] < 64
  {
    if |s| == 0 then []
    else if |s| == 1 then [s[0] / 4, s[0] % 4 * 16]
    else if |s| == 2 then [s[0] / 4, s[0] % 4 * 16 + s[1] / 16, s[1] % 16 * 4]
    else [s[0] / 4, s[0] % 4 * 16 + s[1] / 16, s[1] % 16 * 4 + s[2] / 64, s[2] % 64] + Sextets(s[3..])
  }

  function EncodeBase64(s: seq<Byte>): string { Letters(Sextets(s)) }

  function Values(s: string): Option<seq<nat>> {
    if s == "" then Some([])
    else
      var last := LetterValue(s[|s| - 1]);
      var front := Values(s[..|s| - 1]);
      if front.None? || last.None? then None else Some(front.value + [last.value])
  }

  /** The bytes of the values; the bits that fill a last group must be zero. */
  function Bytes(v: seq<nat>): Option<seq<Byte>>
    requires forall i :: 0 <= i < |v| ==> v[i] < 64
  {
    if |v| == 0 then Some([])
    else if |v| == 1 then None
    else if |v| == 2 then if v[1] % 16 == 0 then Some([v[0] * 4 + v[1] / 16]) else None
    else if |v| == 3 then
      if v[2] % 4 == 0 then Some([v[0] * 4 + v[1] / 16, v[1] % 16 * 16 + v[2] / 4]) else None
    else
      var rest := Bytes(v[4..]);
      if rest.None? then None
      else Some([v[0] * 4 + v[1] / 16, v[1] % 16 * 16 + v[2] / 4, v[2] % 4 * 64 + v[3]] + rest.value)
  }

  /** Line breaks in the text are passed over. */
  function WithoutBreaks(s: string): string {
    if s == "" then ""
    else
      var c := s[|s| - 1];
      WithoutBreaks(s[..|s| - 1]) + if c == '\r' || c == '\n' then "" else [c]
  }

  function DecodeBase64(s: string): Option<seq<Byte>> {
    var values := Values(WithoutBreaks(s));
    if values.None? then None else ValuesAreSmall(WithoutBreaks(s)); Bytes(values.value)
  }

  lemma {:induction false} ValuesAreSmall(s: string)
    requires Values(s).Some?
    ensures forall i :: 0 <= i < |Values(s).value| ==> Values(s).value[i] < 64
  {
    if s != "" { ValuesAreSmall(s[..|s| - 1]); }
  }

  lemma {:induction false} SextetsRoundTrip(s: seq<Byte>)
    ensures Bytes(Sextets(s)) == Some(s)
  {
    if |s| >= 3 {
      SextetsRoundTrip(s[3..]);
      assert Sextets(s)[4..] == Sextets(s[3..]);
      assert s == [s[0], s[1], s[2]] + s[3..];
    } else if |s| == 1 {
      assert s == [s[0]];
    } else if |s| == 2 {
      assert s == [s[0], s[1]];
    }
  }

  lemma OneLetter(s: string, c: char)
    requires LetterValue(c).Some? && c != '\n' && c != '\r'
    ensures WithoutBreaks(s + [c]) == WithoutBreaks(s) + [c]
    ensures Values(s).Some? ==> Values(s + [c]) == Some(Values(s).value + [LetterValue(c).value])
  {
    assert (s + [c])[..|s|] == s;
  }

  lemma {:induction false} LettersRoundTrip(values: seq<nat>)
    requires forall i :: 0 <= i < |values| ==> values[i] < 64
    ensures WithoutBreaks(Letters(values)) == Letters(values)
    ensures Values(Letters(values)) == Some(values)
  {
    if values != [] {
      var n := |values| - 1;
      LettersRoundTrip(values[..n]);
      LetterRoundTrip(values[n]);
      OneLetter(Letters(values[..n]), Letter(values[n]));
      assert values == values[..n] + [values[n]];
    }
  }

  /** Every byte string is decoded back from its base64url text. */
  lemma Base64RoundTrip(s: seq<Byte>)
    ensures DecodeBase64(EncodeBase64(s)) == Some(s)
  {
    LettersRoundTrip(Sextets(s));
    SextetsRoundTrip(s);
  }

  // ----- cursors -----

  /** An instant in seconds and nanoseconds since 1970, shown at some offset from UTC, and an identity. */
  datatype Position = Position(seconds: Int64, nanos: int, offset: int, id: Int64)

  const FIRST_SECOND: int := -62135596800       // 0001-01-01T00:00:00
  const LAST_SECOND: int := 253402300799        // 9999-12-31T23:59:59

  predicate InYears(seconds: int) { FIRST_SECOND <= seconds <= LAST_SECOND }

  predicate IsInstant(p: Position) { 0 <= p.nanos < 1000000000 }

  /** Years 1 to 9999 on the clock it is shown by, not the zero instant, whole microseconds, positive identity. */
  predicate Valid(p: Position) {
    && !(p.seconds == FIRST_SECOND && p.nanos == 0)
    && InYears(p.seconds + p.offset)
    && p.nanos % 1000 == 0
    && p.id > 0
  }

  const VERSION: Byte := 1
  const SIZE: nat := 21

  function Layout(p: Position): seq<Byte>
    requires IsInstant(p)
  {
    [VERSION] + BigEndian(Unsigned(p.seconds), 8) + BigEndian(p.nanos, 4) + BigEndian(Unsigned(p.id), 8)
  }

  /** The token of a cursor. */
  function Token(p: Position): Option<string>
    requires IsInstant(p)
  {
    if Valid(p) then Some(EncodeBase64(Layout(p))) else None
  }

  /** Writes a number into part of a buffer, most significant byte first. */
  method PutBigEndian(buffer: array<Byte>, start: nat, n: nat, v: nat)
    requires start + n <= buffer.Length
    modifies buffer
    ensures buffer[start..start + n] == BigEndian(v, n)
    ensures buffer[..start] == old(buffer[..start]) && buffer[start + n..] == old(buffer[start + n..])
  {
    var rest, i := v, n;
    while i > 0
      invariant 0 <= i <= n
      invariant BigEndian(v, n) == BigEndian(rest, i) + buffer[start + i..start + n]
      invariant forall k :: 0 <= k < buffer.Length && !(start + i <= k < start + n) ==> buffer[k] == old(buffer[k])
    {
      i := i - 1;
      ghost var tail := buffer[start + i + 1..start + n];
      buffer[start + i] := rest % 256;
      assert buffer[start + i..start + n] == [rest % 256] + tail;
      rest := rest / 256;
    }
  }

  method Encode(p: Position) returns (r: Option<string>)
    requires IsInstant(p)
    ensures r == Token(p)
  {
    if !Valid(p) { return None; }
    var raw := new Byte[SIZE];
    raw[0] := VERSION;
    PutBigEndian(raw, 1, 8, Unsigned(p.seconds));
    assert raw[..1] == [VERSION];
    PutBigEndian(raw, 9, 4, p.nanos);
    ghost var front := raw[..9];
    assert front == [VERSION] + BigEndian(Unsigned(p.seconds), 8);
    PutBigEndian(raw, 13, 8, Unsigned(p.id));
    assert raw[..13] == front + BigEndian(p.nanos, 4);
    assert raw[..] == raw[..13] + raw[13..21] == Layout(p);
    return Some(EncodeBase64(raw[..]));
  }

  lemma {:induction false} FromBigEndianBound(s: seq<Byte>)
    ensures FromBigEndian(s) < Pow256(|s|)
  {
    if s != [] { FromBigEndianBound(s[..|s| - 1]); }
  }

  /** What the bytes of a token say. */
  function Read(raw: seq<Byte>): Position
    requires |raw| == SIZE
  {
    Powers();
    FromBigEndianBound(raw[1..9]);
    FromBigEndianBound(raw[13..21]);
    Position(Signed(FromBigEndian(raw[1..9])), FromBigEndian(raw[9..13]), 0, Signed(FromBigEndian(raw[13..21])))
  }

  function Decode(token: string): Option<Position> {
    var raw := DecodeBase64(token);
    if token == "" || raw.None? || |raw.value| != SIZE || raw.value[0] != VERSION then None
    else
      var p := Read(raw.value);
      if p.nanos >= 1000000000 || !Valid(p) || Token(p) != Some(token) then None else Some(p)
  }

  // ----- the main results -----

  lemma LayoutParts(p: Position)
    requires IsInstant(p)
    ensures |Layout(p)| == SIZE && Layout(p)[0] == VERSION
    ensures Layout(p)[1..9] == BigEndian(Unsigned(p.seconds), 8)
    ensures Layout(p)[9..13] == BigEndian(p.nanos, 4)
    ensures Layout(p)[13..21] == BigEndian(Unsigned(p.id), 8)
  {
    BigEndianLength(Unsigned(p.seconds), 8);
    BigEndianLength(p.nanos, 4);
    BigEndianLength(Unsigned(p.id), 8);
  }

  lemma ReadLayout(p: Position)
    requires IsInstant(p)
    ensures |Layout(p)| == SIZE && Read(Layout(p)) == p.(offset := 0)
  {
    Powers();
    LayoutParts(p);
    BigEndianRoundTrip(Unsigned(p.seconds), 8);
    BigEndianRoundTrip(p.nanos, 4);
    BigEndianRoundTrip(Unsigned(p.id), 8);
  }

  /**
    A cursor comes back from its token, in UTC, exactly when its instant lies in years 1 to 9999
    in UTC too; instants before 1970 included.
   */
  lemma RoundTripIff(p: Position)
    requires IsInstant(p) && Valid(p)
    ensures Decode(Token(p).value) == if InYears(p.seconds) then Some(p.(offset := 0)) else None
  {
    Base64RoundTrip(Layout(p));
    ReadLayout(p);
    LayoutParts(p);
    assert Layout(p.(offset := 0)) == Layout(p);
    assert Token(p).value != "" by {
      assert DecodeBase64("") == Some([]);
    }
  }

  lemma UtcRoundTrip(p: Position)
    requires IsInstant(p) && Valid(p) && p.offset == 0
    ensures Decode(Token(p).value) == Some(p)
  {
    RoundTripIff(p);
  }

  /** Decoding accepts exactly the tokens of valid UTC cursors. */
  lemma AcceptsExactlyTokens(token: string)
    ensures Decode(token).Some? <==> exists p: Position :: IsInstant(p) && p.offset == 0 && Token(p) == Some(token)
    ensures Decode(token).Some? ==> Token(Decode(token).value) == Some(token)
  {
    forall p: Position | IsInstant(p) && p.offset == 0 && Token(p) == Some(token)
      ensures Decode(token) == Some(p)
    {
      UtcRoundTrip(p);
    }
    if Decode(token).Some? {
      var p := Decode(token).value;
      assert IsInstant(p) && p.offset == 0 && Token(p) == Some(token);
    }
  }

  /** A cursor shown in another zone may be encoded and then refused: its last hour is next year in UTC. */
  lemma ZonedCursorIsRefused()
    ensures var p := Position(LAST_SECOND + 1, 0, -3600, 1); Valid(p) && Decode(Token(p).value) == None
  {
    RoundTripIff(Position(LAST_SECOND + 1, 0, -3600, 1));
  }
}
