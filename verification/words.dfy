/** Machine words as the x86 code of os-elephant has them, and powers of two. */
module Words {
  /** Cut to 16 bits. */
  function U16(x: int): (r: nat)
    ensures r < 0x1_0000 && (0 <= x < 0x1_0000 ==> r == x)
  {
    x % 0x1_0000
  }

  /** Cut to 32 bits. */
  function U32(x: int): (r: nat)
    ensures r < 0x1_0000_0000 && (0 <= x < 0x1_0000_0000 ==> r == x)
  {
    x % 0x1_0000_0000
  }

  function Pow2(k: nat): (r: nat)
    ensures r > 0
  {
    if k == 0 then 1 else 2 * Pow2(k - 1)
  }
}
