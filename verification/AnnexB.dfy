/** The keyframe test over an H.264 Annex B byte stream (engine_adapters.rs). A NAL unit follows a
    three-byte start code 00 00 01 (ITU-T H.264, section B.1.1), and the low five bits of its first
    byte are its type, 5 for a slice of an IDR picture (section 7.4.1, Table 7-1). */
module AnnexB {
  import opened Wrappers
  import opened Bytes

  const IDR: byte := 5

  predicate Code3(data: seq<byte>, i: int) {
    0 <= i && i + 3 <= |data| && data[i] == 0 && data[i + 1] == 0 && data[i + 2] == 1
  }

  predicate Code4(data: seq<byte>, i: int) {
    0 <= i && i + 4 <= |data| && data[i] == 0 && data[i + 1] == 0 && data[i + 2] == 0 && data[i + 3] == 1
  }

  /** A start code with a header byte behind it. */
  predicate Unit(data: seq<byte>, i: int) {
    Code3(data, i) && i + 3 < |data|
  }

  function UnitType(data: seq<byte>, i: int): byte
    requires Unit(data, i)
  {
    data[i + 3] % 32
  }

  predicate HasIdr(data: seq<byte>) {
    exists i :: 0 <= i < |data| && Unit(data, i) && UnitType(data, i) == IDR
  }

  // ---- The scanner -----------------------------------------------------------------------

  /** The first start code at or after `i`, leaving out the last three positions; the end otherwise. */
  function NextCode(data: seq<byte>, i: nat): (n: nat)
    requires i <= |data|
    ensures i <= n <= |data|
    ensures n < |data| ==> n + 3 < |data| && (Code3(data, n) || Code4(data, n))
    ensures forall k :: i <= k < n && k + 3 < |data| ==> !Code3(data, k) && !Code4(data, k)
    decreases |data| - i
  {
    if i + 3 >= |data| then |data|
    else if Code3(data, i) || Code4(data, i) then i
    else NextCode(data, i + 1)
  }

  /** The type of the unit whose start code is at `offset`, and where the next start code begins. */
  function ScanNalHeader(data: seq<byte>, offset: nat): Option<(byte, nat)> {
    if offset + 4 > |data| then None
    else
      var header := if Code4(data, offset) then 4 else if Code3(data, offset) then 3 else 0;
      var nal := offset + header;
      if header == 0 || nal >= |data| then None
      else Some((data[nal] % 32, NextCode(data, nal + 1)))
  }

  // ---- What the scanner can see ----------------------------------------------------------

  /** Scanning starts at offset 0, so nothing is seen unless a start code is there. */
  predicate StartsWithCode(data: seq<byte>) {
    Code3(data, 0) || Code4(data, 0)
  }

  /** The header byte of a unit that is seen is skipped, so a start code beginning with it is not. */
  predicate Visible(data: seq<byte>, i: int)
    decreases if i < 0 then 0 else i
  {
    Unit(data, i) && !(i >= 3 && Visible(data, i - 3))
  }

  predicate ShowsIdr(data: seq<byte>) {
    StartsWithCode(data) && exists i :: 0 <= i < |data| && Visible(data, i) && UnitType(data, i) == IDR
  }

  /** The three-byte code inside the start code at `offset`. */
  function CodeAt(data: seq<byte>, offset: nat): nat {
    if Code4(data, offset) then offset + 1 else offset
  }

  /** Between a visible unit and the one the scanner goes to next there is no visible one. */
  lemma NothingVisibleBetween(data: seq<byte>, offset: nat, i: int)
    requires (Code3(data, offset) || Code4(data, offset)) && Visible(data, CodeAt(data, offset))
    requires var nal := CodeAt(data, offset) + 3; CodeAt(data, offset) < i < CodeAt(data, NextCode(data, nal + 1))
    ensures !Visible(data, i)
  {
    var code := CodeAt(data, offset);
    var next := NextCode(data, code + 4);
    if i == code + 3 {
      assert Visible(data, i - 3);
    } else if i > code + 3 {
      if i < next {
        assert Unit(data, i) ==> !Code3(data, i);
      } else {
        assert Code4(data, next) && i == next;
      }
    }
  }

  lemma NextIsVisible(data: seq<byte>, offset: nat)
    requires (Code3(data, offset) || Code4(data, offset)) && Visible(data, CodeAt(data, offset))
    ensures var code := CodeAt(data, offset);
            var next := NextCode(data, code + 4);
            Unit(data, CodeAt(data, next)) && next < |data| ==> Visible(data, CodeAt(data, next))
  {
    var code := CodeAt(data, offset);
    var next := NextCode(data, code + 4);
    var i := CodeAt(data, next);
    if next < |data| && Unit(data, i) && code < i - 3 {
      NothingVisibleBetween(data, offset, i - 3);
    }
  }

  /** The loop returns true exactly when a unit it can see is an IDR slice, and it always ends. */
  method IsKeyframe(data: seq<byte>) returns (found: bool)
    ensures found <==> ShowsIdr(data)
  {
    var offset: nat := 0;
    var scan := ScanNalHeader(data, offset);
    while scan.Some?
      invariant offset <= |data| && scan == ScanNalHeader(data, offset)
      invariant offset == 0 || offset == |data| || Code3(data, offset) || Code4(data, offset)
      invariant StartsWithCode(data) ==> Unit(data, CodeAt(data, offset)) ==> Visible(data, CodeAt(data, offset))
      invariant offset > 0 ==> StartsWithCode(data)
      invariant forall i :: 0 <= i < CodeAt(data, offset) && Visible(data, i) ==> UnitType(data, i) != IDR
      decreases |data| - offset
    {
      var (nalType, next) := scan.value;
      var code := CodeAt(data, offset);
      assert Unit(data, code) && nalType == UnitType(data, code);
      if nalType == IDR {
        return true;
      }
      NextIsVisible(data, offset);
      forall i | 0 <= i < CodeAt(data, next) && Visible(data, i)
        ensures UnitType(data, i) != IDR
      {
        if code < i {
          NothingVisibleBetween(data, offset, i);
        }
      }
      offset := next;
      scan := ScanNalHeader(data, offset);
    }
    found := false;
    forall i | 0 <= i < |data| && Visible(data, i) && StartsWithCode(data)
      ensures UnitType(data, i) != IDR
    {
    }
  }

  /** Sound: whatever the scanner reports has a header byte of type 5 behind 00 00 01. */
  lemma ReportsAreIdr(data: seq<byte>) returns (i: nat)
    requires ShowsIdr(data)
    ensures HasIdr(data)
    ensures i + 3 < |data| && data[i] == 0 && data[i + 1] == 0 && data[i + 2] == 1 && data[i + 3] % 32 == 5
  {
    i :| 0 <= i < |data| && Visible(data, i) && UnitType(data, i) == IDR;
    assert Unit(data, i);
  }

  /** Complete on streams that begin with a start code and have no zero header byte. */
  lemma CompleteWithoutZeroHeaders(data: seq<byte>)
    requires StartsWithCode(data)
    requires forall i :: 0 <= i < |data| && Unit(data, i) ==> data[i + 3] != 0
    ensures ShowsIdr(data) <==> HasIdr(data)
  {
    forall i | 0 <= i < |data| && Unit(data, i)
      ensures Visible(data, i)
    {
      assert i >= 3 ==> !Unit(data, i - 3);
    }
    if HasIdr(data) {
      var i :| 0 <= i < |data| && Unit(data, i) && UnitType(data, i) == IDR;
      assert Visible(data, i);
    }
  }

  /** Either condition alone is not enough: a zero header hides the start code it belongs to, and a
      leading zero byte hides everything. */
  lemma MissedKeyframes()
    ensures var zeroHeader: seq<byte> := [0, 0, 1, 0, 0, 1, 0x65];
            StartsWithCode(zeroHeader) && HasIdr(zeroHeader) && !ShowsIdr(zeroHeader)
    ensures var padded: seq<byte> := [0, 0, 0, 0, 1, 0x65];
            (forall i :: 0 <= i < |padded| && Unit(padded, i) ==> padded[i + 3] != 0)
            && HasIdr(padded) && !ShowsIdr(padded)
  {
    var zeroHeader: seq<byte> := [0, 0, 1, 0, 0, 1, 0x65];
    assert Unit(zeroHeader, 3) && UnitType(zeroHeader, 3) == IDR;
    assert Visible(zeroHeader, 0);
    var padded: seq<byte> := [0, 0, 0, 0, 1, 0x65];
    assert Unit(padded, 2) && UnitType(padded, 2) == IDR;
  }
}
