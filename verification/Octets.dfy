/** Bytes as numbers, for the length and identifier fields of the wire formats. */
module Octets {

  type Octet = x: int | 0 <= x < 256

  /** The low octet of n / d. */
  function Digit(n: nat, d: nat): Octet
    requires d > 0
  {
    var q: int := n / d;
    q % 256
  }

  /** binary.LittleEndian.PutUint16 of uint16(n): the high bits of n are cut off. */
  function Put16(n: nat): (b: seq<Octet>)
    ensures |b| == 2
  {
    [Digit(n, 1), Digit(n, 256)]
  }

  function Get16(b: seq<Octet>): (n: nat)
    requires |b| >= 2
    ensures n < 0x1_0000
  {
    (b[0] as int) + 256 * (b[1] as int)
  }

  function Put32(n: nat): (b: seq<Octet>)
    ensures |b| == 4
  {
    [Digit(n, 1), Digit(n, 256), Digit(n, 0x1_0000), Digit(n, 0x100_0000)]
  }

  function Get32(b: seq<Octet>): (n: nat)
    requires |b| >= 4
    ensures n < 0x1_0000_0000
  {
    (b[0] as int) + 256 * (b[1] as int) + 0x1_0000 * (b[2] as int) + 0x100_0000 * (b[3] as int)
  }

  lemma Got16(n: nat, rest: seq<Octet>)
    ensures Get16(Put16(n) + rest) == n % 0x1_0000
  {
  }

  lemma Got32(n: nat, rest: seq<Octet>)
    requires n < 0x1_0000_0000
    ensures Get32(Put32(n) + rest) == n
  {
    var a, b, c := n / 256, n / 0x1_0000, n / 0x100_0000;
    assert a / 256 == b && b / 256 == c && c < 256;
    assert n == n % 256 + 256 * (a % 256 + 256 * (b % 256 + 256 * c));
  }
}
