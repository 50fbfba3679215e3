/** The 5G AKA material the UE side computes when it answers an authentication challenge
    (3GPP TS 33.501 Annex A) or asks for re-synchronisation (3GPP TS 33.102 section 6.3.3).
    MILENAGE and the key derivation functions are cryptographic primitives outside this
    model: they are passed in as total functions whose results have the fixed lengths the
    standards give them. */
module Aka {
  import opened NasTypes

  /** The MILENAGE functions (3GPP TS 35.206), each keyed by (OPc, K, RAND). */
  datatype Milenage = Milenage(
    f1Star: (Bytes16, Bytes16, Bytes16, Bytes6, Bytes2) -> Bytes8,  // MAC-S over (SQN, AMF)
    f2: (Bytes16, Bytes16, Bytes16) -> Bytes8,                       // RES
    f3: (Bytes16, Bytes16, Bytes16) -> Bytes16,                      // CK
    f4: (Bytes16, Bytes16, Bytes16) -> Bytes16,                      // IK
    f5Star: (Bytes16, Bytes16, Bytes16) -> Bytes6)                   // AK for re-synchronisation

  /** The key derivation functions of TS 33.501 Annex A. */
  datatype Kdf = Kdf(
    xresStar: (Bytes16, Bytes16, string, Bytes16, seq<byte>) -> Bytes16,  // A.4: CK, IK, SN name, RAND, RES
    kausf: (Bytes16, Bytes16, string, Bytes16) -> Bytes32,                // A.2: CK, IK, SN name, AUTN
    kseaf: (string, Bytes32) -> Bytes32,                                  // A.6: SN name, KAUSF
    kamf: (string, seq<byte>, Bytes32) -> Bytes32)                        // A.7: SUPI, ABBA, KSEAF

  /** Length of the RES the UE feeds into the RES* derivation. */
  const RES_LEN: nat := 8

  /** RES* as the UE derives it from its long-term keys and the challenge. */
  function ResStar(mil: Milenage, kdf: Kdf, opc: Bytes16, k: Bytes16, rand: Bytes16, snName: string): Bytes16
  {
    kdf.xresStar(mil.f3(opc, k, rand), mil.f4(opc, k, rand), snName, rand, mil.f2(opc, k, rand)[..RES_LEN])
  }

  /** KAUSF, bound to the challenge through AUTN. */
  function Kausf(mil: Milenage, kdf: Kdf, opc: Bytes16, k: Bytes16, rand: Bytes16, autn: Bytes16, snName: string): Bytes32
  {
    kdf.kausf(mil.f3(opc, k, rand), mil.f4(opc, k, rand), snName, autn)
  }

  /** KSEAF, derived from KAUSF for the serving network. */
  function Kseaf(mil: Milenage, kdf: Kdf, opc: Bytes16, k: Bytes16, rand: Bytes16, autn: Bytes16, snName: string): Bytes32
  {
    kdf.kseaf(snName, Kausf(mil, kdf, opc, k, rand, autn, snName))
  }

  /** KAMF, the anchor key the UE keeps: derived from KSEAF, the SUPI and ABBA. */
  function Kamf(mil: Milenage, kdf: Kdf, opc: Bytes16, k: Bytes16, rand: Bytes16, autn: Bytes16,
                snName: string, supi: string, abba: seq<byte>): Bytes32
  {
    kdf.kamf(supi, abba, Kseaf(mil, kdf, opc, k, rand, autn, snName))
  }

  /** Byte-wise exclusive or of two strings of equal length, octet by octet from the front. */
  function Xor(a: seq<byte>, b: seq<byte>): (r: seq<byte>)
    requires |a| == |b|
    ensures |r| == |a|
    ensures forall i :: 0 <= i < |a| ==> r[i] == a[i] ^ b[i]
  {
    if a == [] then [] else [a[0] ^ b[0]] + Xor(a[1..], b[1..])
  }

  /** The sequence number the simulated UE reports on a synchronisation failure. */
  const SQN_MS: Bytes6 := [0x00, 0x00, 0x11, 0x22, 0x33, 0x44]
  /** The AMF field MAC-S is computed over in a re-synchronisation token. */
  const AMF_RESYNC: Bytes2 := [0x00, 0x00]

  /** AUTS = (SQN_MS xor AK*) || MAC-S, with AK* = f5*(RAND) and MAC-S = f1*(SQN_MS, RAND, AMF). */
  function Auts(mil: Milenage, opc: Bytes16, k: Bytes16, rand: Bytes16): Bytes14
  {
    Xor(SQN_MS, mil.f5Star(opc, k, rand)) + mil.f1Star(opc, k, rand, SQN_MS, AMF_RESYNC)
  }

  /** The home network's reading of AUTS: it removes AK* from the concealed SQN_MS. */
  function RecoverSqnMs(auts: Bytes14, akStar: Bytes6): Bytes6
  {
    Xor(auts[..SQN_LEN], akStar)
  }

  /** The home network's check of AUTS: MAC-S matches f1* over the recovered SQN_MS. */
  predicate ResyncTokenAuthentic(mil: Milenage, opc: Bytes16, k: Bytes16, rand: Bytes16, auts: Bytes14)
  {
    var sqn := RecoverSqnMs(auts, mil.f5Star(opc, k, rand));
    auts[SQN_LEN..] == mil.f1Star(opc, k, rand, sqn, AMF_RESYNC)
  }

  /** Exclusive or with the same key twice gives back the original bytes. */
  lemma XorTwice(a: seq<byte>, key: seq<byte>)
    requires |a| == |key|
    ensures Xor(Xor(a, key), key) == a
  {
  }

  /** A network holding the same OPc, K and RAND recovers SQN_MS from the token the UE
      builds and accepts its MAC-S. */
  lemma AutsRoundTrip(mil: Milenage, opc: Bytes16, k: Bytes16, rand: Bytes16)
    ensures RecoverSqnMs(Auts(mil, opc, k, rand), mil.f5Star(opc, k, rand)) == SQN_MS
    ensures ResyncTokenAuthentic(mil, opc, k, rand, Auts(mil, opc, k, rand))
  {
  }
}
