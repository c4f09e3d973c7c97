/**
 * The byte/word packing helpers of the gpio_expander base class
 * (Arduino/Spikeling/Mcp23s18/gpio_expander.h): a 16-bit word is the high
 * byte shifted left by eight, or-ed with the low byte.  Contracts are stated
 * in unsigned 16-bit arithmetic, where `*`, `/` and `%` by 256 cannot wrap.
 */
module ByteWord {

  /** byte2word: `(word)high << 8 | (word)low`, which is high * 256 + low. */
  function ByteToWord(high: bv8, low: bv8): (w: bv16)
    ensures w == (high as bv16) * 256 + (low as bv16)
  {
    ((high as bv16) << 8) | (low as bv16)
  }

  /** word2highByte: `(byte)(data >> 8)`, the quotient by 256. */
  function WordHighByte(w: bv16): (h: bv8)
    ensures h as bv16 == w / 256
  {
    (w >> 8) as bv8
  }

  /** word2lowByte: `(byte)(data & 0x00FF)`, the remainder by 256. */
  function WordLowByte(w: bv16): (l: bv8)
    ensures l as bv16 == w % 256
  {
    (w & 0x00FF) as bv8
  }

  /** Splitting a word and packing the halves gives the word back. */
  lemma PackUnpack(w: bv16)
    ensures ByteToWord(WordHighByte(w), WordLowByte(w)) == w
  {
  }

  /** Packing two bytes and splitting the word gives both bytes back. */
  lemma UnpackPack(high: bv8, low: bv8)
    ensures WordHighByte(ByteToWord(high, low)) == high
    ensures WordLowByte(ByteToWord(high, low)) == low
  {
  }
}
