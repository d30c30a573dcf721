/** Four-character codes: a 32-bit codec tag whose four bytes, read
    least significant first, spell the codec's name. */
module FourCC {

  /** The decoder used when frame information is dumped: four bytes
      and a zero terminator (DecodedByte says which bytes). */
  function FourCharCodeToString(code: bv32): (s: seq<bv8>)
    ensures |s| == 5 && s[4] == 0
  {
    [ (code & 0xFF) as bv8,
      ((code >> 8) & 0xFF) as bv8,
      ((code >> 16) & 0xFF) as bv8,
      ((code >> 24) & 0xFF) as bv8,
      0 ]
  }

  /** Byte i of the decoded string is `(code >> 8i) & 0xFF`. */
  lemma DecodedByte(code: bv32, i: nat)
    requires i < 4
    ensures FourCharCodeToString(code)[i] == ((code >> (8 * i)) & 0xFF) as bv8
  {
    if i == 0 {
    } else if i == 1 {
    } else if i == 2 {
    } else {
    }
  }

  /** Packs four bytes little-endian into a code: the inverse of the decoder. */
  function Pack(b0: bv8, b1: bv8, b2: bv8, b3: bv8): (code: bv32)
    ensures code & 0xFF == b0 as bv32
    ensures (code >> 24) as bv8 == b3
  {
    (b0 as bv32) | ((b1 as bv32) << 8) | ((b2 as bv32) << 16) | ((b3 as bv32) << 24)
  }

  /** The tag whose letters are the four characters of `name`. */
  function CodeOf(name: string): (code: bv32)
    requires |name| == 4
    requires forall i :: 0 <= i < 4 ==> name[i] as int < 256
    ensures FourCharCodeToString(code)[..4] ==
      [name[0] as int as bv8, name[1] as int as bv8, name[2] as int as bv8, name[3] as int as bv8]
  {
    var code := Pack(name[0] as int as bv8, name[1] as int as bv8,
                     name[2] as int as bv8, name[3] as int as bv8);
    PackThenDecode(name[0] as int as bv8, name[1] as int as bv8,
                   name[2] as int as bv8, name[3] as int as bv8);
    code
  }

  /** Decoding and then packing the four bytes gives back the code. */
  lemma DecodeThenPack(code: bv32)
    ensures var s := FourCharCodeToString(code); Pack(s[0], s[1], s[2], s[3]) == code
  {
  }

  /** Packing four bytes and decoding gives back those bytes. */
  lemma PackThenDecode(b0: bv8, b1: bv8, b2: bv8, b3: bv8)
    ensures FourCharCodeToString(Pack(b0, b1, b2, b3)) == [b0, b1, b2, b3, 0]
  {
  }

  /** Codec tags used by the relay and the sender. */
  const VMX1: bv32 := 0x31584D56
  const UYVY: bv32 := 0x59565955
  const FPA1: bv32 := 0x31415046

  /** Each constant spells its own name. */
  lemma CodecTagsSpellTheirNames()
    ensures VMX1 == CodeOf("VMX1")
    ensures UYVY == CodeOf("UYVY")
    ensures FPA1 == CodeOf("FPA1")
  {
    DecodeThenPack(VMX1);
    DecodeThenPack(UYVY);
    DecodeThenPack(FPA1);
  }
}
