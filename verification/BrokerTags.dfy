/** The tag that ties a broker position back to the order that opened it
    (ExecutionEngine._broker_comment_tag). The checksum is a parameter: nothing below depends
    on which 32-bit checksum it is. */
module BrokerTags {

  type Checksum = string -> nat

  const PREFIX := "coid:"
  const MAX_COMMENT := 31
  const WORD := 0x1_0000_0000

  function HexDigit(d: nat): char
    requires d < 16
  {
    "0123456789abcdef"[d]
  }

  /** n in hexadecimal, most significant digit first, padded to `width` digits. */
  function Hex(n: nat, width: nat): (r: string)
    ensures |r| == width
  {
    if width == 0 then "" else Hex(n / 16, width - 1) + [HexDigit(n % 16)]
  }

  function Power16(k: nat): (r: nat)
    ensures r >= 1
  {
    if k == 0 then 1 else 16 * Power16(k - 1)
  }

  lemma DigitInjective(a: nat, b: nat)
    requires a < 16 && b < 16 && HexDigit(a) == HexDigit(b)
    ensures a == b
  {
  }

  lemma {:induction false} HexInjective(a: nat, b: nat, width: nat)
    requires a < Power16(width) && b < Power16(width)
    requires Hex(a, width) == Hex(b, width)
    ensures a == b
  {
    if width > 0 {
      assert Hex(a, width)[..width - 1] == Hex(a / 16, width - 1);
      assert Hex(b, width)[..width - 1] == Hex(b / 16, width - 1);
      assert Hex(a, width)[width - 1] == Hex(b, width)[width - 1];
      HexInjective(a / 16, b / 16, width - 1);
      DigitInjective(a % 16, b % 16);
    }
  }

  /** Ids of at most 26 characters fit in the comment as they are. */
  predicate Short(id: string) {
    |PREFIX| + |id| <= MAX_COMMENT
  }

  /** The eight-digit form that stands for a long id. */
  function Digest(id: string, crc: Checksum): (r: string)
    ensures |r| == 9
  {
    "h" + Hex(crc(id) % WORD, 8)
  }

  function Tag(id: string, crc: Checksum): (r: string)
    ensures |r| <= MAX_COMMENT
  {
    if Short(id) then PREFIX + id else PREFIX + Digest(id, crc)
  }

  lemma PrefixCancels(x: string, y: string)
    ensures PREFIX + x == PREFIX + y <==> x == y
  {
    assert (PREFIX + x)[|PREFIX|..] == x && (PREFIX + y)[|PREFIX|..] == y;
  }

  lemma DigestsEqual(a: string, b: string, crc: Checksum)
    ensures Digest(a, crc) == Digest(b, crc) <==> crc(a) % WORD == crc(b) % WORD
  {
    if Digest(a, crc) == Digest(b, crc) {
      assert Digest(a, crc)[1..] == Hex(crc(a) % WORD, 8) && Digest(b, crc)[1..] == Hex(crc(b) % WORD, 8);
      assert Power16(8) == WORD by {
        assert Power16(4) == 0x1_0000;
      }
      HexInjective(crc(a) % WORD, crc(b) % WORD, 8);
    }
  }

  /** Exactly which pairs of ids share a tag: two equal ids, two long ids with one checksum, or a
      long id and the short id that spells its digest. */
  lemma TagsCollideIff(a: string, b: string, crc: Checksum)
    ensures Tag(a, crc) == Tag(b, crc) <==>
            || a == b
            || (!Short(a) && !Short(b) && crc(a) % WORD == crc(b) % WORD)
            || (!Short(a) && Short(b) && b == Digest(a, crc))
            || (Short(a) && !Short(b) && a == Digest(b, crc))
  {
    PrefixCancels(if Short(a) then a else Digest(a, crc), if Short(b) then b else Digest(b, crc));
    DigestsEqual(a, b, crc);
  }

  /** No two ids of a set share a tag. */
  ghost predicate TagsInjective(ids: set<string>, crc: Checksum) {
    forall a, b :: a in ids && b in ids && Tag(a, crc) == Tag(b, crc) ==> a == b
  }

  /** Ids of at most 26 characters never share a tag. */
  lemma ShortIdsAreInjective(ids: set<string>, crc: Checksum)
    requires forall id :: id in ids ==> |id| <= 26
    ensures TagsInjective(ids, crc)
  {
    forall a, b | a in ids && b in ids && Tag(a, crc) == Tag(b, crc)
      ensures a == b
    {
      TagsCollideIff(a, b, crc);
    }
  }
}
