/** Bytes as the sequences of their bits; index k is bit k, the one with weight 2^k. */
module ByteBits {
  import opened Sequences

  type Byte = b: seq<bool> | |b| == 8 witness [false, false, false, false, false, false, false, false]

  const ZERO: Byte := [false, false, false, false, false, false, false, false]

  /** An idle stretch: ones in a bit stream, mark on a line. */
  function Ones(n: nat): (bits: seq<bool>)
    ensures |bits| == n
  {
    seq(n, _ => true)
  }

  /** The bits of some bytes, least significant bit of each byte first. */
  function BitsOf(bytes: seq<Byte>): (bits: seq<bool>)
    ensures |bits| == 8 * |bytes|
  {
    if bytes == [] then [] else bytes[0] + BitsOf(bytes[1..])
  }

  lemma {:induction false} BitsJoin(a: seq<Byte>, b: seq<Byte>)
    ensures BitsOf(a + b) == BitsOf(a) + BitsOf(b)
    decreases |a|
  {
    if a == [] {
      assert a + b == b;
    } else {
      BitsJoin(a[1..], b);
      assert (a + b)[0] == a[0] && (a + b)[1..] == a[1..] + b;
      Regroup(a[0], BitsOf(a[1..]), BitsOf(b));
    }
  }
}
