/** The simulated subscriber and its PDU session, as the builders read them. Both are
    objects the test driver keeps and updates in place; of the builders only the
    Authentication Response one writes to them, and only the UE's KAMF. */
module TestContext {
  import opened NasTypes

  /** The UE's NAS state the builders read: the registration type value copied into a
      Registration Request, the type of security context flag, the key set identifier
      and the access type. */
  datatype NasState = NasState(data: uint8, tsc: uint8, ksi: uint8, accessType: uint8)

  class TestUe {
    // Long-term credentials and the current challenge.
    var opc: Bytes16
    var k: Bytes16
    var rand: Bytes16
    var autn: Bytes16
    // Inputs and result of the KAMF derivation.
    var supi: string
    var abba: seq<byte>
    var kamf: Bytes32
    // Identity and security-context state.
    var nas: NasState
    var nasGuti: Guti
    var mobileIdentitySuci: seq<byte>
    var mobileIdentitySuciLength: uint16
    var sess: TestSess?
  }

  class TestSess {
    var psi: uint8
    var dnn: CString
    var testUe: TestUe?
  }
}
