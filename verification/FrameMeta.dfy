/** The fixed 36-byte frame header (frame.rs): little-endian fields, one reserved byte, and a flag
    byte of which only zero or not zero is read. */
module FrameMeta {
  import opened Wrappers
  import opened Bytes

  type u32 = n: nat | n < 0x1_0000_0000
  type u64 = n: nat | n < 0x1_0000_0000_0000_0000

  const WIRE_LEN := 36
  const U32: nat := 4
  const U64: nat := 8

  datatype Meta = Meta(seqNo: u64, width: u32, height: u32, format: byte, version: byte, isKeyframe: bool,
                       tsMonoNs: u64, tsEpochNs: u64)

  datatype DecodeError = TooShort

  /** The bytes of a header, front to back. */
  function Layout(m: Meta): (b: seq<byte>)
    ensures |b| == WIRE_LEN
  {
    LittleEndian(m.seqNo, U64) + LittleEndian(m.width, U32) + LittleEndian(m.height, U32) + Flags(m)
    + LittleEndian(m.tsMonoNs, U64) + LittleEndian(m.tsEpochNs, U64)
  }

  method CopyFromSlice(b: array<byte>, at: nat, from: seq<byte>)
    requires at + |from| <= b.Length
    modifies b
    ensures b[..at + |from|] == old(b[..at]) + from
    ensures b[at + |from|..] == old(b[at + |from|..])
  {
    for i := 0 to |from|
      invariant b[..at + i] == old(b[..at]) + from[..i]
      invariant forall k :: at + i <= k < b.Length ==> b[k] == old(b[k])
    {
      b[at + i] := from[i];
      assert b[..at + i + 1] == b[..at + i] + [from[i]];
      assert from[..i + 1] == from[..i] + [from[i]];
    }
    assert from[..|from|] == from;
  }

  function Flags(m: Meta): (b: seq<byte>)
    ensures |b| == 4
  {
    [m.format, m.version, if m.isKeyframe then 1 else 0, 0]
  }

  method Encode(m: Meta) returns (b: array<byte>)
    ensures fresh(b) && b[..] == Layout(m)
  {
    b := new byte[WIRE_LEN](_ => 0);
    CopyFromSlice(b, 0, LittleEndian(m.seqNo, U64));
    CopyFromSlice(b, 8, LittleEndian(m.width, U32));
    CopyFromSlice(b, 12, LittleEndian(m.height, U32));
    WriteFlags(b, m);
    CopyFromSlice(b, 20, LittleEndian(m.tsMonoNs, U64));
    CopyFromSlice(b, 28, LittleEndian(m.tsEpochNs, U64));
    assert b[..] == b[..36];
  }

  /** The four single bytes in the middle. */
  method WriteFlags(b: array<byte>, m: Meta)
    requires b.Length == WIRE_LEN
    modifies b
    ensures b[..20] == old(b[..16]) + Flags(m)
  {
    b[16] := m.format;
    b[17] := m.version;
    b[18] := if m.isKeyframe then 1 else 0;
    b[19] := 0;
    assert b[..16] == old(b[..16]);
    assert b[..20] == b[..16] + [b[16], b[17], b[18], b[19]];
  }

  lemma Widths()
    ensures Pow256(U32) == 0x1_0000_0000 && Pow256(U64) == 0x1_0000_0000_0000_0000
  {
    assert Pow256(2) == 256 * (256 * Pow256(0)) && Pow256(4) == 256 * (256 * Pow256(2));
    assert Pow256(6) == 256 * (256 * Pow256(4)) && Pow256(8) == 256 * (256 * Pow256(6));
  }

  function ReadU32(b: seq<byte>): (n: u32)
    requires |b| == 4
    ensures LittleEndian(n, U32) == b
  {
    Widths();
    FromLittleEndianBound(b);
    FromLittleEndianRoundTrip(b);
    FromLittleEndian(b)
  }

  function ReadU64(b: seq<byte>): (n: u64)
    requires |b| == 8
    ensures LittleEndian(n, U64) == b
  {
    Widths();
    FromLittleEndianBound(b);
    FromLittleEndianRoundTrip(b);
    FromLittleEndian(b)
  }

  /** Bytes after the 36th are not looked at. */
  function Decode(b: seq<byte>): Result<Meta, DecodeError> {
    if |b| < WIRE_LEN then Err(TooShort)
    else Ok(Meta(ReadU64(b[0..8]), ReadU32(b[8..12]), ReadU32(b[12..16]), b[16], b[17], b[18] != 0,
                 ReadU64(b[20..28]), ReadU64(b[28..36])))
  }

  /** Where each field lies. */
  lemma LayoutPieces(m: Meta)
    ensures var b := Layout(m);
            && |b| == 36
            && b[0..8] == LittleEndian(m.seqNo, U64) && b[8..12] == LittleEndian(m.width, U32)
            && b[12..16] == LittleEndian(m.height, U32)
            && b[16..20] == Flags(m)
            && b[16] == m.format && b[17] == m.version && b[18] == (if m.isKeyframe then 1 else 0) && b[19] == 0
            && b[20..28] == LittleEndian(m.tsMonoNs, U64) && b[28..36] == LittleEndian(m.tsEpochNs, U64)
  {
  }

  lemma ReadingUndoesWriting(n: u64, k: u32)
    ensures ReadU64(LittleEndian(n, U64)) == n && ReadU32(LittleEndian(k, U32)) == k
  {
    Widths();
    LittleEndianRoundTrip(n, U64);
    LittleEndianRoundTrip(k, U32);
  }

  /** Decoding looks at the first 36 bytes only. */
  lemma DecodesTheFront(l: seq<byte>, rest: seq<byte>)
    requires |l| == WIRE_LEN
    ensures Decode(l + rest) == Decode(l)
  {
    var b := l + rest;
    assert b[0..8] == l[0..8] && b[8..12] == l[8..12] && b[12..16] == l[12..16];
    assert b[20..28] == l[20..28] && b[28..36] == l[28..36];
  }

  /** Every header survives the wire, whatever follows it there. */
  lemma DecodeUndoesEncode(m: Meta, payload: seq<byte>)
    ensures Decode(Layout(m) + payload) == Ok(m)
  {
    DecodesTheFront(Layout(m), payload);
    LayoutPieces(m);
    ReadingUndoesWriting(m.seqNo, m.width);
    ReadingUndoesWriting(m.tsMonoNs, m.height);
    ReadingUndoesWriting(m.tsEpochNs, m.height);
  }

  /** Six pieces determine the 36 bytes. */
  lemma SamePieces(a: seq<byte>, b: seq<byte>)
    requires |a| == |b| == WIRE_LEN
    requires a[0..8] == b[0..8] && a[8..12] == b[8..12] && a[12..16] == b[12..16]
    requires a[16..20] == b[16..20] && a[20..28] == b[20..28] && a[28..36] == b[28..36]
    ensures a == b
  {
    SixPieces(a);
    SixPieces(b);
  }

  lemma SixPieces(a: seq<byte>)
    requires |a| == WIRE_LEN
    ensures a == a[0..8] + a[8..12] + a[12..16] + a[16..20] + a[20..28] + a[28..36]
  {
    assert a[..16] == a[0..8] + a[8..12] + a[12..16];
    assert a[16..] == a[16..20] + a[20..28] + a[28..36];
    assert a == a[..16] + a[16..];
  }

  /** Two headers that agree outside the flags are equal exactly when the flags are in their usual form. */
  lemma FlagsDecide(l: seq<byte>, b: seq<byte>)
    requires |l| == WIRE_LEN <= |b|
    requires l[0..8] == b[0..8] && l[8..12] == b[8..12] && l[12..16] == b[12..16]
    requires l[16..20] == [b[16], b[17], if b[18] != 0 then 1 else 0, 0]
    requires l[20..28] == b[20..28] && l[28..36] == b[28..36]
    ensures l == b <==> |b| == WIRE_LEN && b[18] <= 1 && b[19] == 0
  {
    assert l[18] == l[16..20][2] && l[19] == l[16..20][3];
    if |b| == WIRE_LEN && b[18] <= 1 && b[19] == 0 {
      assert b[16..20] == [b[16], b[17], b[18], b[19]];
      SamePieces(l, b);
    }
  }

  /** Encoding what was decoded gives the bytes back exactly when there are 36 of them, the flag byte
      is 0 or 1 and the reserved byte is 0. */
  lemma EncodeUndoesDecodeExactly(b: seq<byte>)
    requires |b| >= WIRE_LEN
    ensures Layout(Decode(b).value) == b <==> |b| == WIRE_LEN && b[18] <= 1 && b[19] == 0
  {
    LayoutPieces(Decode(b).value);
    FlagsDecide(Layout(Decode(b).value), b);
  }
}
