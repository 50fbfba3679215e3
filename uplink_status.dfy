/** The uplink data status IE (TS 24.501, section 9.11.3.57) the builders put into a
    Registration Request for a registration update and into a Service Request: one flag
    per PDU session identity, set for the UE's session only. */
module UplinkStatus {
  import opened NasTypes

  /** `1 << psi` is evaluated on a C int: the shift is defined below 31 only. */
  const PSI_SHIFT_LIMIT: nat := 31

  /** The 16-bit `psimask`: bit psi of `1 << psi`, truncated to 16 bits. */
  function PsiMask(psi: uint8): (m: bv16)
    requires psi < PSI_SHIFT_LIMIT
    ensures psi < 16 ==> m != 0 && m & (m - 1) == 0
    ensures psi >= 16 ==> m == 0
  {
    if psi < 16 then (1 as bv16) << psi else 0
  }

  /** The value ORed into the zeroed `psi` field: the mask shifted left by a byte and the
      mask shifted right by a byte, each truncated to 16 bits. */
  function UplinkDataStatusBits(psi: uint8): bv16
    requires psi < PSI_SHIFT_LIMIT
  {
    var m := PsiMask(psi);
    (m << 8) | (m >> 8)
  }

  /** Exchanges the two bytes of a 16-bit value. */
  function ByteSwap(x: bv16): (r: bv16)
    ensures r & 0xff == x >> 8 && r >> 8 == x & 0xff
  {
    ((x & 0xff) << 8) | ((x >> 8) & 0xff)
  }

  /** Octets 3 and 4 of the IE, assuming the encoder (not part of this model) writes the
      16-bit field most significant byte first, as `htobe16` does. */
  function WireOctets(s: bv16): (o: Bytes2)
    ensures ((o[0] as bv16) << 8) | (o[1] as bv16) == s
  {
    [(s >> 8) as bv8, (s & 0xff) as bv8]
  }

  /** The PSI(p) flag as TS 24.501 section 9.11.3.57 lays it out: octet 3 holds
      PSI(7) .. PSI(0), octet 4 holds PSI(15) .. PSI(8). */
  predicate PsiFlag(o: Bytes2, p: nat)
    requires p < 16
  {
    if p < 8 then (o[0] >> p) & 1 == 1 else (o[1] >> (p - 8)) & 1 == 1
  }

  /** The two shifts together are a byte swap of the mask, not a duplicated bit. */
  lemma StatusIsByteSwappedMask(psi: uint8)
    requires psi < PSI_SHIFT_LIMIT
    ensures UplinkDataStatusBits(psi) == ByteSwap(PsiMask(psi))
  {
  }

  /** For a session identity below 16 exactly one bit is set. */
  lemma StatusHasOneBit(psi: uint8)
    requires psi < 16
    ensures var s := UplinkDataStatusBits(psi); s != 0 && s & (s - 1) == 0
  {
  }

  /** psi 0 to 7: the bit lands in the high byte and the right shift contributes nothing. */
  lemma StatusHighByte(psi: uint8)
    requires psi < 8
    ensures PsiMask(psi) >> 8 == 0
    ensures UplinkDataStatusBits(psi) == (1 as bv16) << (psi + 8)
    ensures UplinkDataStatusBits(psi) & 0xff == 0
  {
  }

  /** psi 8 to 15: the bit lands in the low byte and the left shift contributes nothing. */
  lemma StatusLowByte(psi: uint8)
    requires 8 <= psi < 16
    ensures PsiMask(psi) << 8 == 0
    ensures UplinkDataStatusBits(psi) == (1 as bv16) << (psi - 8)
    ensures UplinkDataStatusBits(psi) >> 8 == 0
  {
  }

  /** A session identity the shift pushes out of 16 bits leaves the field empty. */
  lemma StatusEmptyBeyond15(psi: uint8)
    requires 16 <= psi < PSI_SHIFT_LIMIT
    ensures UplinkDataStatusBits(psi) == 0
  {
  }

  /** Written most significant byte first, the field raises the PSI(p) flag of the UE's
      session and no other. */
  lemma StatusFlagsExactlyPsi(psi: uint8, p: nat)
    requires psi < 16 && p < 16
    ensures PsiFlag(WireOctets(UplinkDataStatusBits(psi)), p) <==> p == psi
  {
  }
}
