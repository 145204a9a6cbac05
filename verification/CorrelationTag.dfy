/** Correlation tags (internal/impl/core/publisher.go): the id of a publisher and the id of a
    message, eight bytes each, little endian, on machine words. */
module CorrelationTag {
  import opened Wrappers

  type Byte = bv8
  type Word = bv64

  const ID_LENGTH: nat := 8
  const TAG_LENGTH: nat := 16

  // 8 * i
  function Shift(i: nat): Word
    requires i <= 8
  {
    match i
    case 0 => 0 case 1 => 8 case 2 => 16 case 3 => 24 case 4 => 32
    case 5 => 40 case 6 => 48 case 7 => 56 case _ => 64
  }

  // 0xFF shifted left by 8 * i; the last shift pushes it out of the word
  function Mask(i: nat): Word
    requires i <= 8
  {
    match i
    case 0 => 0xFF case 1 => 0xFF00 case 2 => 0xFF_0000 case 3 => 0xFF00_0000 case 4 => 0xFF_0000_0000
    case 5 => 0xFF00_0000_0000 case 6 => 0xFF_0000_0000_0000 case 7 => 0xFF00_0000_0000_0000 case _ => 0
  }

  // byte i of a word, counted from the least significant end
  function ByteAt(x: Word, i: nat): Byte
    requires i < 8
  {
    match i
    case 0 => (x & 0xFF) as Byte
    case 1 => ((x >> 8) & 0xFF) as Byte
    case 2 => ((x >> 16) & 0xFF) as Byte
    case 3 => ((x >> 24) & 0xFF) as Byte
    case 4 => ((x >> 32) & 0xFF) as Byte
    case 5 => ((x >> 40) & 0xFF) as Byte
    case 6 => ((x >> 48) & 0xFF) as Byte
    case _ => ((x >> 56) & 0xFF) as Byte
  }

  // uint8(x & mask >> shift); both operators bind equally, from the left, and uint8 truncates
  function Pick(x: Word, mask: Word, shift: Word): Byte
    requires shift < 64
  {
    (((x & mask) >> shift) & 0xFF) as Byte
  }

  // x | uint64(b) << shift
  function Merge(x: Word, b: Byte, shift: Word): Word
    requires shift < 64
  {
    x | ((b as Word) << shift)
  }

  // the word whose i lowest bytes are given
  function Assemble(bytes: seq<Byte>, i: nat): Word
    requires i <= 8 && i <= |bytes|
  {
    if i == 0 then 0 else Merge(Assemble(bytes, i - 1), bytes[i - 1], Shift(i - 1))
  }

  lemma PickFacts(x: Word)
    ensures Pick(x, 0xFF, 0) == ByteAt(x, 0) && Pick(x, 0xFF00, 8) == ByteAt(x, 1)
    ensures Pick(x, 0xFF_0000, 16) == ByteAt(x, 2) && Pick(x, 0xFF00_0000, 24) == ByteAt(x, 3)
    ensures Pick(x, 0xFF_0000_0000, 32) == ByteAt(x, 4) && Pick(x, 0xFF00_0000_0000, 40) == ByteAt(x, 5)
    ensures Pick(x, 0xFF_0000_0000_0000, 48) == ByteAt(x, 6) && Pick(x, 0xFF00_0000_0000_0000, 56) == ByteAt(x, 7)
  {
  }

  // the mask and shift of round i pick byte i
  lemma PickIsByte(x: Word, i: nat)
    requires i < 8
    ensures Shift(i) < 64 && Pick(x, Mask(i), Shift(i)) == ByteAt(x, i)
  {
    hide Pick, ByteAt;
    PickFacts(x);
  }

  lemma NextMask(i: nat)
    requires i < 8
    ensures Mask(i) << 8 == Mask(i + 1) && Shift(i) + 8 == Shift(i + 1) && Shift(i) < 64
  {
    match i
    case 0 => case 1 => case 2 => case 3 => case 4 => case 5 => case 6 => case 7 =>
  }

  method ToCorrelationTag(pubID: Word, messageID: Word) returns (tag: array<Byte>)
    ensures fresh(tag) && tag[..] == Tag(pubID, messageID)
  {
    hide ByteAt, Shift, Mask, Pick;
    Start();
    tag := new Byte[TAG_LENGTH];
    var i, shift: Word, mask: Word := 0, 0, 0xFF;
    while i < ID_LENGTH
      invariant 0 <= i <= ID_LENGTH && shift == Shift(i) && mask == Mask(i)
      invariant forall j :: 0 <= j < i ==> tag[j] == ByteAt(pubID, j) && tag[j + ID_LENGTH] == ByteAt(messageID, j)
    {
      PickIsByte(pubID, i);
      PickIsByte(messageID, i);
      tag[i] := Pick(pubID, mask, shift);
      tag[i + ID_LENGTH] := Pick(messageID, mask, shift);
      NextMask(i);
      i, shift, mask := i + 1, shift + 8, mask << 8;
    }
    assert tag[..] == Tag(pubID, messageID);
  }

  lemma Start()
    ensures Shift(0) == 0 && Mask(0) == 0xFF
  {
  }

  function Bytes(x: Word): (bytes: seq<Byte>)
    ensures |bytes| == ID_LENGTH && forall i :: 0 <= i < ID_LENGTH ==> bytes[i] == ByteAt(x, i)
  {
    [ByteAt(x, 0), ByteAt(x, 1), ByteAt(x, 2), ByteAt(x, 3), ByteAt(x, 4), ByteAt(x, 5), ByteAt(x, 6), ByteAt(x, 7)]
  }

  function Tag(pubID: Word, messageID: Word): seq<Byte> {
    Bytes(pubID) + Bytes(messageID)
  }

  function Untag(tag: seq<Byte>): Option<(Word, Word)> {
    if |tag| == TAG_LENGTH then Some((Assemble(tag, 8), Assemble(tag[8..], 8))) else None
  }

  method FromCorrelationTag(bytes: array<Byte>) returns (pubID: Word, messageID: Word, ok: bool)
    ensures Untag(bytes[..]) == if ok then Some((pubID, messageID)) else None
    ensures !ok ==> pubID == 0 && messageID == 0
  {
    hide Merge, Shift, Mask;
    if bytes.Length != TAG_LENGTH {
      return 0, 0, false;
    }
    Start();
    pubID, messageID := 0, 0;
    var i, shift: Word := 0, 0;
    while i < ID_LENGTH
      invariant 0 <= i <= ID_LENGTH && shift == Shift(i)
      invariant pubID == Assemble(bytes[..], i) && messageID == Assemble(bytes[8..], i)
    {
      NextMask(i);
      pubID := Merge(pubID, bytes[i], shift);
      messageID := Merge(messageID, bytes[i + ID_LENGTH], shift);
      i, shift := i + 1, shift + 8;
    }
    assert bytes[..][8..] == bytes[8..];
    ok := true;
  }

  // what Assemble comes to, written out
  function Join(b0: Byte, b1: Byte, b2: Byte, b3: Byte, b4: Byte, b5: Byte, b6: Byte, b7: Byte): Word {
    Merge(Merge(Merge(Merge(Merge(Merge(Merge(Merge(0, b0, 0), b1, 8), b2, 16), b3, 24), b4, 32), b5, 40), b6, 48), b7, 56)
  }

  lemma AssembleIsJoin(b: seq<Byte>)
    requires |b| >= 8
    ensures Assemble(b, 8) == Join(b[0], b[1], b[2], b[3], b[4], b[5], b[6], b[7])
  {
    hide Merge;
    assert Assemble(b, 1) == Merge(Assemble(b, 0), b[0], Shift(0));
    assert Assemble(b, 2) == Merge(Assemble(b, 1), b[1], Shift(1));
    assert Assemble(b, 3) == Merge(Assemble(b, 2), b[2], Shift(2));
    assert Assemble(b, 4) == Merge(Assemble(b, 3), b[3], Shift(3));
    assert Assemble(b, 5) == Merge(Assemble(b, 4), b[4], Shift(4));
    assert Assemble(b, 6) == Merge(Assemble(b, 5), b[5], Shift(5));
    assert Assemble(b, 7) == Merge(Assemble(b, 6), b[6], Shift(6));
  }

  lemma JoinOfBytes(x: Word)
    ensures Join(ByteAt(x, 0), ByteAt(x, 1), ByteAt(x, 2), ByteAt(x, 3), ByteAt(x, 4), ByteAt(x, 5), ByteAt(x, 6), ByteAt(x, 7)) == x
  {
  }

  lemma BytesOfJoin(b0: Byte, b1: Byte, b2: Byte, b3: Byte, b4: Byte, b5: Byte, b6: Byte, b7: Byte)
    ensures Bytes(Join(b0, b1, b2, b3, b4, b5, b6, b7)) == [b0, b1, b2, b3, b4, b5, b6, b7]
  {
  }

  lemma AssembleBytes(x: Word, b: seq<Byte>)
    requires |b| >= 8 && forall i :: 0 <= i < 8 ==> b[i] == ByteAt(x, i)
    ensures Assemble(b, 8) == x
  {
    hide ByteAt, Join;
    AssembleIsJoin(b);
    JoinOfBytes(x);
  }

  lemma BytesOfAssemble(b: seq<Byte>)
    requires |b| >= 8
    ensures Bytes(Assemble(b, 8)) == b[..8]
  {
    hide ByteAt, Join;
    AssembleIsJoin(b);
    BytesOfJoin(b[0], b[1], b[2], b[3], b[4], b[5], b[6], b[7]);
  }

  // Every pair of ids comes back from its tag.
  lemma TagRoundTrip(pubID: Word, messageID: Word)
    ensures Untag(Tag(pubID, messageID)) == Some((pubID, messageID))
  {
    var tag := Tag(pubID, messageID);
    AssembleBytes(pubID, tag);
    AssembleBytes(messageID, tag[8..]);
  }

  // Every tag of 16 bytes is the tag of the ids that it decodes to, and no other length decodes.
  lemma UntagRoundTrip(tag: seq<Byte>)
    ensures Untag(tag).Some? <==> |tag| == TAG_LENGTH
    ensures Untag(tag).Some? ==> Tag(Untag(tag).value.0, Untag(tag).value.1) == tag
  {
    if |tag| == TAG_LENGTH {
      BytesOfAssemble(tag);
      BytesOfAssemble(tag[8..]);
      assert tag[8..][..8] == tag[8..] && tag == tag[..8] + tag[8..];
    }
  }

  // Acknowledgements reach the handler of the publisher that the tag names, with its message id:
  // what onAcknowledgement calls, if anything.
  function Route<H>(handlers: map<Word, H>, tag: seq<Byte>): Option<(H, Word)> {
    if Untag(tag).Some? && Untag(tag).value.0 in handlers then Some((handlers[Untag(tag).value.0], Untag(tag).value.1)) else None
  }

  lemma AcknowledgementReachesItsPublisher<H>(handlers: map<Word, H>, pubID: Word, messageID: Word)
    ensures Route(handlers, Tag(pubID, messageID))
            == if pubID in handlers then Some((handlers[pubID], messageID)) else None
  {
    TagRoundTrip(pubID, messageID);
  }
}
