/** The self-describing token file (token.rs): magic, version, length-prefixed verifying key and
    token, all checked when decoded. */
module Token {
  import opened Wrappers
  import opened Bytes

  const MAGIC: seq<byte> := [0x4D, 0x53, 0x54, 0x4B]
  const VERSION: byte := 1

  /** UTF-8 validity and signature verification, left abstract. */
  datatype Oracle = Oracle(utf8: seq<byte> -> bool, verifies: (seq<byte>, seq<byte>) -> bool)

  datatype DecodeError = BadMagic | BadVersion | TruncatedKey | TruncatedToken | NotUtf8 | NotVerified

  /** The bytes of the file for a key and a token; lengths are cut to 16 bits. */
  function Layout(token: seq<byte>, key: seq<byte>): seq<byte> {
    MAGIC + [VERSION] + LittleEndian(|key|, 2) + key + LittleEndian(|token|, 2) + token
  }

  method Encode(token: seq<byte>, key: seq<byte>) returns (out: seq<byte>)
    ensures out == Layout(token, key)
  {
    out := [];
    out := out + MAGIC;
    out := out + [VERSION];
    out := out + LittleEndian(|key|, 2);
    out := out + key;
    out := out + LittleEndian(|token|, 2);
    out := out + token;
  }

  function Decode(o: Oracle, bytes: seq<byte>): Result<(seq<byte>, seq<byte>), DecodeError> {
    if |bytes| < 9 || bytes[..4] != MAGIC then Err(BadMagic)
    else if bytes[4] != VERSION then Err(BadVersion)
    else
      var keyLen := FromLittleEndian([bytes[5], bytes[6]]);
      var rest := bytes[7..];
      if |rest| < keyLen + 2 then Err(TruncatedKey)
      else
        var key, rest := rest[..keyLen], rest[keyLen..];
        var tokenLen := FromLittleEndian([rest[0], rest[1]]);
        var token := rest[2..];
        if |token| != tokenLen then Err(TruncatedToken)
        else if !o.utf8(token) then Err(NotUtf8)
        else if !o.verifies(key, token) then Err(NotVerified)
        else Ok((key, token))
  }

  lemma TwoBytes()
    ensures Pow256(2) == 65536
  {
    assert Pow256(1) == 256 * Pow256(0);
  }

  /** Where the pieces of an encoded file lie. */
  lemma LayoutPieces(token: seq<byte>, key: seq<byte>)
    ensures var f := Layout(token, key);
            && |f| == 9 + |key| + |token|
            && f[..4] == [0x4D, 0x53, 0x54, 0x4B] && f[4] == 1
            && [f[5], f[6]] == LittleEndian(|key|, 2)
            && f[7..][..|key|] == key
            && f[7..][|key|..] == LittleEndian(|token|, 2) + token
  {
    var f := Layout(token, key);
    var head := MAGIC + [VERSION];
    assert f == head + (LittleEndian(|key|, 2) + (key + (LittleEndian(|token|, 2) + token)));
    assert f[5..7] == LittleEndian(|key|, 2);
    assert f[5..7] == [f[5], f[6]];
    assert f[7..] == key + (LittleEndian(|token|, 2) + token);
  }

  lemma ReadLength(bs: seq<byte>)
    requires |bs| == 2
    ensures FromLittleEndian(bs) < 65536 && LittleEndian(FromLittleEndian(bs), 2) == bs
  {
    TwoBytes();
    FromLittleEndianBound(bs);
    FromLittleEndianRoundTrip(bs);
  }

  lemma Reassemble(bytes: seq<byte>, k: nat)
    requires |bytes| >= 9 + k
    ensures bytes == bytes[..4] + [bytes[4]] + [bytes[5], bytes[6]] + bytes[7..7 + k]
                     + [bytes[7 + k], bytes[8 + k]] + bytes[9 + k..]
  {
  }

  /** Every accepted byte string is the encoding of what was decoded from it. */
  lemma AcceptedFilesAreEncodings(o: Oracle, bytes: seq<byte>)
    requires Decode(o, bytes).Ok?
    ensures var (key, token) := Decode(o, bytes).value;
            && Layout(token, key) == bytes
            && |key| < 65536 && |token| < 65536 && o.utf8(token) && o.verifies(key, token)
  {
    var (key, token) := Decode(o, bytes).value;
    var k := |key|;
    ReadLength([bytes[5], bytes[6]]);
    ReadLength([bytes[7 + k], bytes[8 + k]]);
    Reassemble(bytes, k);
    assert key == bytes[7..7 + k] && token == bytes[9 + k..];
  }

  /** Decoding undoes encoding exactly when both lengths fit in 16 bits and the token verifies. */
  lemma RoundTripExactly(o: Oracle, token: seq<byte>, key: seq<byte>)
    requires o.utf8(token)
    ensures Decode(o, Layout(token, key)) == Ok((key, token))
            <==> |key| < 65536 && |token| < 65536 && o.verifies(key, token)
  {
    TwoBytes();
    LayoutPieces(token, key);
    LittleEndianRoundTrip(|key|, 2);
    LittleEndianRoundTrip(|token|, 2);
    if Decode(o, Layout(token, key)) == Ok((key, token)) {
      AcceptedFilesAreEncodings(o, Layout(token, key));
    } else if |key| < 65536 && |token| < 65536 {
      var rest := Layout(token, key)[7..][|key|..];
      assert [rest[0], rest[1]] == LittleEndian(|token|, 2);
      assert rest[2..] == token;
    }
  }

  /** No two files decode to the same pair. */
  lemma DecodeIsInjective(o: Oracle, a: seq<byte>, b: seq<byte>)
    requires Decode(o, a).Ok? && Decode(o, a) == Decode(o, b)
    ensures a == b
  {
    AcceptedFilesAreEncodings(o, a);
    AcceptedFilesAreEncodings(o, b);
  }
}
