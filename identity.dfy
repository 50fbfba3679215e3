/** The mobile identities the builders put into messages (TS 24.501, section 9.11.3.4).
    GUTI, SUCI and IMEISV stay abstract values; the S-TMSI keeps the one byte-order
    decision its builder makes, the 5G-TMSI in network byte order. */
module Identity {
  import opened NasTypes

  /** The octet whose numeric value is `n`. */
  function ToOctet(n: nat): (o: byte)
    requires n < 0x100
    ensures o as int == n
  {
    if n == 0 then 0 else ToOctet(n - 1) + 1
  }

  /** `htobe32`: the four octets of a 32-bit value, most significant first. */
  function BigEndian32(x: uint32): Bytes4
  {
    [ToOctet(x / 0x100_0000), ToOctet(x / 0x1_0000 % 0x100), ToOctet(x / 0x100 % 0x100), ToOctet(x % 0x100)]
  }

  /** How a receiver reads four octets in network byte order. */
  function FromBigEndian32(b: Bytes4): uint32
  {
    (b[0] as int) * 0x100_0000 + (b[1] as int) * 0x1_0000 + (b[2] as int) * 0x100 + b[3] as int
  }

  /** Reading back the octets `htobe32` produced gives the original 5G-TMSI. */
  lemma {:induction false} BigEndian32RoundTrip(x: uint32)
    ensures FromBigEndian32(BigEndian32(x)) == x
  {
    var hi, lo := x / 0x1_0000, x % 0x1_0000;
    assert x == hi * 0x1_0000 + lo;
    assert hi == (x / 0x100_0000) * 0x100 + x / 0x1_0000 % 0x100;
    assert lo == (x / 0x100 % 0x100) * 0x100 + x % 0x100;
  }

  /** Four octet values are the base-256 digits of the number they make up. */
  lemma {:induction false} Base256Digits(b0: int, b1: int, b2: int, b3: int)
    requires 0 <= b0 < 0x100 && 0 <= b1 < 0x100 && 0 <= b2 < 0x100 && 0 <= b3 < 0x100
    ensures var x := b0 * 0x100_0000 + b1 * 0x1_0000 + b2 * 0x100 + b3;
            x / 0x100_0000 == b0 && x / 0x1_0000 % 0x100 == b1 && x / 0x100 % 0x100 == b2 && x % 0x100 == b3
  {
    var x := b0 * 0x100_0000 + b1 * 0x1_0000 + b2 * 0x100 + b3;
    var hi, lo := b0 * 0x100 + b1, b2 * 0x100 + b3;
    assert x == hi * 0x1_0000 + lo;
    assert x / 0x1_0000 == hi && x % 0x1_0000 == lo;
    assert x / 0x100 == hi * 0x100 + b2;
  }

  /** Two octets with the same numeric value are the same octet. */
  lemma OctetValueInjective(o: byte, p: byte)
    requires o as int == p as int
    ensures o == p
  {
  }

  /** Every four octets are the network-order form of exactly one 32-bit value. */
  lemma {:induction false} FromBigEndian32RoundTrip(b: Bytes4)
    ensures BigEndian32(FromBigEndian32(b)) == b
  {
    var b0, b1, b2, b3 := b[0] as int, b[1] as int, b[2] as int, b[3] as int;
    var x := FromBigEndian32(b);
    assert x == b0 * 0x100_0000 + b1 * 0x1_0000 + b2 * 0x100 + b3;
    Base256Digits(b0, b1, b2, b3);
    var r := BigEndian32(x);
    OctetValueInjective(r[0], b[0]);
    OctetValueInjective(r[1], b[1]);
    OctetValueInjective(r[2], b[2]);
    OctetValueInjective(r[3], b[3]);
  }

  /** The 5G-GUTI identity of a held GUTI; its packing into the 11-octet layout is not
      part of this model. */
  function GutiMobileIdentity(g: Guti): MobileIdentity
  {
    MobileIdentity(GUTI_IDENTITY_LEN, GutiIdentity(g))
  }

  /** The SUCI identity computed upstream, used verbatim with its stored length. */
  function SuciMobileIdentity(suci: seq<byte>, length: uint16): MobileIdentity
  {
    MobileIdentity(length, SuciIdentity(suci))
  }
}
