/** size_t and its arithmetic. */
module Words {
  const WORD: nat := 0x1_0000_0000_0000_0000

  type Size = n: nat | n < WORD

  function Plus(a: Size, b: Size): Size {
    if a + b < WORD then a + b else a + b - WORD
  }

  function Minus(a: Size, b: Size): Size {
    if a >= b then a - b else a + WORD - b
  }
}
