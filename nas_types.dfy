/** The uplink 5GMM message records a simulated UE fills before it hands them to an
    encoder (3GPP TS 24.501, section 8.2), the envelope each one travels in, and the
    constants of TS 24.501 the builders use. */
module NasTypes {

  type byte = bv8
  type bit = x: int | 0 <= x < 2
  type uint2 = x: int | 0 <= x < 4
  type uint6 = x: int | 0 <= x < 64
  type uint8 = x: int | 0 <= x < 0x100
  type uint16 = x: int | 0 <= x < 0x1_0000
  type uint24 = x: int | 0 <= x < 0x100_0000
  type uint32 = x: int | 0 <= x < 0x1_0000_0000

  type Bytes2 = s: seq<byte> | |s| == 2 witness [0, 0]
  type Bytes4 = s: seq<byte> | |s| == 4 witness [0, 0, 0, 0]
  type Bytes6 = s: seq<byte> | |s| == 6 witness [0, 0, 0, 0, 0, 0]
  type Bytes8 = s: seq<byte> | |s| == 8 witness [0, 0, 0, 0, 0, 0, 0, 0]
  type Bytes14 = s: seq<byte> | |s| == 14 witness seq(14, _ => 0)
  type Bytes16 = s: seq<byte> | |s| == 16 witness seq(16, _ => 0)
  type Bytes32 = s: seq<byte> | |s| == 32 witness seq(32, _ => 0)
  /** The characters of a C string before its terminating NUL: no octet is zero, so its
      length is what `strlen` returns. */
  type CString = s: seq<byte> | forall i | 0 <= i < |s| :: s[i] != 0

  datatype Option<T> = None | Some(value: T)

  /** `n` zero bytes: what memset leaves in a fixed-size byte array of the record. */
  function Zeros(n: nat): (z: seq<byte>)
    ensures |z| == n && forall i :: 0 <= i < n ==> z[i] == 0
  {
    seq(n, _ => 0)
  }

  // Extended protocol discriminator of 5GMM (TS 24.501, section 9.2).
  const EPD_5GMM: uint8 := 0x7e

  // Security header types (TS 24.501, section 9.3.1).
  const SECURITY_HEADER_PLAIN: uint8 := 0
  const SECURITY_HEADER_INTEGRITY_PROTECTED_AND_CIPHERED: uint8 := 2
  const SECURITY_HEADER_INTEGRITY_PROTECTED_AND_CIPHERED_WITH_NEW_CONTEXT: uint8 := 4

  // Message types of the uplink 5GMM messages (TS 24.501, table 9.7.1).
  const REGISTRATION_REQUEST: uint8 := 0x41
  const REGISTRATION_COMPLETE: uint8 := 0x43
  const DEREGISTRATION_REQUEST_FROM_UE: uint8 := 0x45
  const SERVICE_REQUEST: uint8 := 0x4c
  const CONFIGURATION_UPDATE_COMPLETE: uint8 := 0x55
  const AUTHENTICATION_RESPONSE: uint8 := 0x57
  const AUTHENTICATION_FAILURE: uint8 := 0x59
  const IDENTITY_RESPONSE: uint8 := 0x5c
  const SECURITY_MODE_COMPLETE: uint8 := 0x5e
  const GMM_STATUS: uint8 := 0x64
  const UL_NAS_TRANSPORT: uint8 := 0x67

  // Types of identity (TS 24.501, section 9.11.3.4) and the odd/even indicator.
  const MOBILE_IDENTITY_SUCI: uint8 := 1
  const MOBILE_IDENTITY_GUTI: uint8 := 2
  const MOBILE_IDENTITY_S_TMSI: uint8 := 4
  const MOBILE_IDENTITY_IMEISV: uint8 := 5
  const ODD_EVEN_EVEN: uint8 := 0

  // Contents lengths of the fixed-layout mobile identities (TS 24.501, section 9.11.3.4).
  const GUTI_IDENTITY_LEN: uint16 := 11
  const S_TMSI_IDENTITY_LEN: uint16 := 7
  const IMEISV_IDENTITY_LEN: uint16 := 9
  const IMEISV_DIGITS: nat := 16

  // 5GMM cause #21 (TS 24.501, section 9.11.3.2).
  const CAUSE_SYNCH_FAILURE: uint8 := 21
  // Service type "data" (TS 24.501, section 9.11.3.50).
  const SERVICE_TYPE_DATA: uint8 := 1
  // Request type "initial request" (TS 24.501, section 9.11.3.47).
  const REQUEST_TYPE_INITIAL: uint8 := 1
  // Control plane service type "mobile originating request" (TS 24.501, section 9.11.3.18D).
  const CONTROL_PLANE_SERVICE_TYPE_MO: uint8 := 0

  // Lengths of the authentication parameters (TS 33.102, section 6.3).
  const SQN_LEN: nat := 6
  const MAC_S_LEN: nat := 8
  const AUTS_LEN: nat := 14
  const AUTN_LEN: nat := 16

  /** The optional information elements whose presence-mask bits the builders set. */
  datatype OptionalIe =
    | UplinkDataStatusIe
    | GmmCapabilityIe
    | UeSecurityCapabilityIe
    | AuthenticationResponseParameterIe
    | AuthenticationFailureParameterIe
    | ImeisvIe
    | NasMessageContainerIe
    | PduSessionIdIe
    | RequestTypeIe
    | SNssaiIe
    | DnnIe

  /** AMF identifier: region, the 10-bit set id split into set1 (8 bits) and set2 (2 bits), pointer. */
  datatype AmfId = AmfId(region: uint8, set1: uint8, set2: uint2, pointer: uint6)

  /** 5G-GUTI held by the UE; an m_tmsi of zero means no GUTI has been assigned. */
  datatype Guti = Guti(plmnId: seq<byte>, amfId: AmfId, mTmsi: uint32)

  /** 5G-S-TMSI mobile identity; `mTmsi` holds the 5G-TMSI in network byte order. */
  datatype STmsi = STmsi(typeOfIdentity: uint8, set1: uint8, set2: uint2, pointer: uint6, mTmsi: Bytes4)

  /** IMEISV mobile identity: type, odd/even indicator and the sixteen digits. */
  datatype Imeisv = Imeisv(typeOfIdentity: uint8, oddEven: uint8, digits: seq<uint8>)

  datatype IdentityValue =
    | NoIdentity
    | GutiIdentity(guti: Guti)
    | SuciIdentity(suci: seq<byte>)
    | STmsiIdentity(sTmsi: STmsi)
    | ImeisvIdentity(imeisv: Imeisv)

  /** A mobile identity IE: the contents length and what the buffer holds. */
  datatype MobileIdentity = MobileIdentity(length: uint16, value: IdentityValue)

  datatype UplinkDataStatus = UplinkDataStatus(length: uint8, psi: bv16)
  datatype GmmCapability = GmmCapability(length: uint8, ltePositioningProtocol: bit, hoAttach: bit, s1Mode: bit)
  datatype UeSecurityCapability = UeSecurityCapability(length: uint8, nea: byte, nia: byte, epsEa: byte, epsIa: byte)
  datatype ResponseParameter = ResponseParameter(length: uint8, res: Bytes16)
  datatype FailureParameter = FailureParameter(length: uint8, auts: Bytes14)
  datatype Container = Container(length: uint16, buffer: seq<byte>)
  datatype Ngksi = Ngksi(serviceType: uint8, tsc: uint8, value: uint8)
  datatype SNssai = SNssai(length: uint8, sst: uint8, sd: uint24)
  datatype Dnn = Dnn(length: uint8, value: CString)
  datatype DeRegistrationType = DeRegistrationType(ksi: uint8, switchOff: bool, accessType: uint8)

  // The zeroed values memset leaves in each field.
  const NO_IDENTITY := MobileIdentity(0, NoIdentity)
  const NO_UPLINK_DATA_STATUS := UplinkDataStatus(0, 0)
  const NO_GMM_CAPABILITY := GmmCapability(0, 0, 0, 0)
  const NO_UE_SECURITY_CAPABILITY := UeSecurityCapability(0, 0, 0, 0, 0)
  const NO_RESPONSE_PARAMETER := ResponseParameter(0, Zeros(16))
  const NO_FAILURE_PARAMETER := FailureParameter(0, Zeros(AUTS_LEN))
  const NO_CONTAINER := Container(0, [])
  const NO_S_NSSAI := SNssai(0, 0, 0)
  const NO_DNN := Dnn(0, [])

  // The message records, field for field as the builders fill them.
  datatype RegistrationRequestFields = RegistrationRequestFields(
    registrationType: uint8, mobileIdentity: MobileIdentity, present: set<OptionalIe>,
    uplinkDataStatus: UplinkDataStatus, gmmCapability: GmmCapability, ueSecurityCapability: UeSecurityCapability)
  datatype AuthenticationResponseFields = AuthenticationResponseFields(
    present: set<OptionalIe>, responseParameter: ResponseParameter)
  datatype AuthenticationFailureFields = AuthenticationFailureFields(
    gmmCause: uint8, present: set<OptionalIe>, failureParameter: FailureParameter)
  datatype SecurityModeCompleteFields = SecurityModeCompleteFields(
    present: set<OptionalIe>, imeisv: MobileIdentity, nasMessageContainer: Container)
  datatype ServiceRequestFields = ServiceRequestFields(
    ngksi: Ngksi, sTmsi: MobileIdentity, present: set<OptionalIe>, uplinkDataStatus: UplinkDataStatus)
  datatype UlNasTransportFields = UlNasTransportFields(
    payloadContainerType: uint8, payloadContainer: Container, present: set<OptionalIe>,
    pduSessionId: uint8, requestType: uint8, sNssai: SNssai, dnn: Dnn)
  datatype DeregistrationRequestFields = DeregistrationRequestFields(
    deRegistrationType: DeRegistrationType, mobileIdentity: MobileIdentity)

  // Each record as memset leaves it.
  const ZERO_REGISTRATION_REQUEST := RegistrationRequestFields(
    0, NO_IDENTITY, {}, NO_UPLINK_DATA_STATUS, NO_GMM_CAPABILITY, NO_UE_SECURITY_CAPABILITY)
  const ZERO_AUTHENTICATION_RESPONSE := AuthenticationResponseFields({}, NO_RESPONSE_PARAMETER)
  const ZERO_AUTHENTICATION_FAILURE := AuthenticationFailureFields(0, {}, NO_FAILURE_PARAMETER)
  const ZERO_SECURITY_MODE_COMPLETE := SecurityModeCompleteFields({}, NO_IDENTITY, NO_CONTAINER)
  const ZERO_SERVICE_REQUEST := ServiceRequestFields(Ngksi(0, 0, 0), NO_IDENTITY, {}, NO_UPLINK_DATA_STATUS)
  const ZERO_UL_NAS_TRANSPORT := UlNasTransportFields(0, NO_CONTAINER, {}, 0, 0, NO_S_NSSAI, NO_DNN)
  const ZERO_DEREGISTRATION_REQUEST := DeregistrationRequestFields(DeRegistrationType(0, false, 0), NO_IDENTITY)

  /** The 5GMM part of the record, one variant per uplink message type. */
  datatype Message =
    | RegistrationRequest(registrationRequest: RegistrationRequestFields)
    | IdentityResponse(mobileIdentity: MobileIdentity)
    | AuthenticationResponse(authenticationResponse: AuthenticationResponseFields)
    | AuthenticationFailure(authenticationFailure: AuthenticationFailureFields)
    | SecurityModeComplete(securityModeComplete: SecurityModeCompleteFields)
    | RegistrationComplete
    | ServiceRequest(serviceRequest: ServiceRequestFields)
    | ConfigurationUpdateComplete(controlPlaneServiceType: uint8)
    | UlNasTransport(ulNasTransport: UlNasTransportFields)
    | DeregistrationRequest(deregistrationRequest: DeregistrationRequestFields)
    | GmmStatus(gmmCause: uint8)

  /** The message type the 5GMM header carries for each variant. */
  function MessageType(m: Message): uint8
  {
    match m
    case RegistrationRequest(_) => REGISTRATION_REQUEST
    case IdentityResponse(_) => IDENTITY_RESPONSE
    case AuthenticationResponse(_) => AUTHENTICATION_RESPONSE
    case AuthenticationFailure(_) => AUTHENTICATION_FAILURE
    case SecurityModeComplete(_) => SECURITY_MODE_COMPLETE
    case RegistrationComplete => REGISTRATION_COMPLETE
    case ServiceRequest(_) => SERVICE_REQUEST
    case ConfigurationUpdateComplete(_) => CONFIGURATION_UPDATE_COMPLETE
    case UlNasTransport(_) => UL_NAS_TRANSPORT
    case DeregistrationRequest(_) => DEREGISTRATION_REQUEST_FROM_UE
    case GmmStatus(_) => GMM_STATUS
  }

  /** Which encoder a record goes to: the plain encoder, or the security encoder with the
      outer security header type the record carries. */
  datatype Envelope = Plain | Protected | ProtectedNewContext
  {
    /** The outer header's security header type; memset leaves 0 in a plain record. */
    function SecurityHeaderType(): (t: uint8)
      ensures t == SECURITY_HEADER_PLAIN <==> Plain?
    {
      match this
      case Plain => SECURITY_HEADER_PLAIN
      case Protected => SECURITY_HEADER_INTEGRITY_PROTECTED_AND_CIPHERED
      case ProtectedNewContext => SECURITY_HEADER_INTEGRITY_PROTECTED_AND_CIPHERED_WITH_NEW_CONTEXT
    }

    /** The outer header's extended protocol discriminator: filled in only for the
        security encoder, zero as memset left it in a plain record. */
    function OuterDiscriminator(): uint8
    {
      if Plain? then 0 else EPD_5GMM
    }
  }

  /** The envelope table: messages sent before a NAS security context exists go plain,
      Security Mode Complete activates a new context, all others are protected. Only a
      Registration Request depends on whether it is a registration update. */
  function SelectEnvelope(m: Message, update: bool): Envelope
  {
    match m
    case RegistrationRequest(_) => if update then Protected else Plain
    case IdentityResponse(_) => Plain
    case AuthenticationResponse(_) => Plain
    case AuthenticationFailure(_) => Plain
    case GmmStatus(_) => Plain
    case SecurityModeComplete(_) => ProtectedNewContext
    case RegistrationComplete => Protected
    case ServiceRequest(_) => Protected
    case ConfigurationUpdateComplete(_) => Protected
    case UlNasTransport(_) => Protected
    case DeregistrationRequest(_) => Protected
  }

  /** A mobile identity whose length agrees with the layout of its kind. */
  predicate IdentityWellFormed(id: MobileIdentity)
  {
    match id.value
    case NoIdentity => id.length == 0
    case GutiIdentity(_) => id.length == GUTI_IDENTITY_LEN
    case SuciIdentity(_) => true
    case STmsiIdentity(s) => id.length == S_TMSI_IDENTITY_LEN && s.typeOfIdentity == MOBILE_IDENTITY_S_TMSI
    case ImeisvIdentity(i) =>
      id.length == IMEISV_IDENTITY_LEN && i.typeOfIdentity == MOBILE_IDENTITY_IMEISV && |i.digits| == IMEISV_DIGITS
  }

  /** The encoder writes an optional IE only when its presence bit is set, so a record is
      well formed when every bit names an IE of its message and every IE whose bit is
      clear still holds its zeroed value (nothing filled in is silently dropped). */
  predicate WellFormed(m: Message)
  {
    match m
    case RegistrationRequest(r) =>
      && r.present <= {UplinkDataStatusIe, GmmCapabilityIe, UeSecurityCapabilityIe}
      && (UplinkDataStatusIe !in r.present ==> r.uplinkDataStatus == NO_UPLINK_DATA_STATUS)
      && (GmmCapabilityIe !in r.present ==> r.gmmCapability == NO_GMM_CAPABILITY)
      && (UeSecurityCapabilityIe !in r.present ==> r.ueSecurityCapability == NO_UE_SECURITY_CAPABILITY)
      && IdentityWellFormed(r.mobileIdentity)
    case IdentityResponse(id) => IdentityWellFormed(id)
    case AuthenticationResponse(r) =>
      && r.present <= {AuthenticationResponseParameterIe}
      && (AuthenticationResponseParameterIe !in r.present ==> r.responseParameter == NO_RESPONSE_PARAMETER)
    case AuthenticationFailure(r) =>
      && r.present <= {AuthenticationFailureParameterIe}
      && (AuthenticationFailureParameterIe !in r.present ==> r.failureParameter == NO_FAILURE_PARAMETER)
    case SecurityModeComplete(r) =>
      && r.present <= {ImeisvIe, NasMessageContainerIe}
      && (ImeisvIe !in r.present ==> r.imeisv == NO_IDENTITY)
      && (NasMessageContainerIe !in r.present ==> r.nasMessageContainer == NO_CONTAINER)
      && IdentityWellFormed(r.imeisv)
    case RegistrationComplete => true
    case ServiceRequest(r) =>
      && r.present <= {UplinkDataStatusIe}
      && (UplinkDataStatusIe !in r.present ==> r.uplinkDataStatus == NO_UPLINK_DATA_STATUS)
      && IdentityWellFormed(r.sTmsi)
    case ConfigurationUpdateComplete(_) => true
    case UlNasTransport(r) =>
      && r.present <= {PduSessionIdIe, RequestTypeIe, SNssaiIe, DnnIe}
      && (PduSessionIdIe !in r.present ==> r.pduSessionId == 0)
      && (RequestTypeIe !in r.present ==> r.requestType == 0)
      && (SNssaiIe !in r.present ==> r.sNssai == NO_S_NSSAI)
      && (DnnIe !in r.present ==> r.dnn == NO_DNN)
    case DeregistrationRequest(r) => IdentityWellFormed(r.mobileIdentity)
    case GmmStatus(_) => true
  }

  /** The two fields of the outer header are set together: a record carries a security
      header type exactly when it carries the 5GMM discriminator, and a plain record
      carries neither. */
  lemma OuterHeaderSetTogether(e: Envelope)
    ensures e.SecurityHeaderType() == SECURITY_HEADER_PLAIN <==> e.OuterDiscriminator() == 0
    ensures e.OuterDiscriminator() == 0 || e.OuterDiscriminator() == EPD_5GMM
  {
  }

  /** Plain messages are exactly those a UE sends before it has a NAS security context:
      an initial Registration Request, Identity Response, the two authentication answers
      and 5GMM Status. */
  lemma PlainExactlyBeforeSecurity(m: Message, update: bool)
    ensures SelectEnvelope(m, update) == Plain <==>
              (m.RegistrationRequest? && !update)
              || MessageType(m) in {IDENTITY_RESPONSE, AUTHENTICATION_RESPONSE, AUTHENTICATION_FAILURE, GMM_STATUS}
    ensures SelectEnvelope(m, update) == ProtectedNewContext <==> MessageType(m) == SECURITY_MODE_COMPLETE
  {
  }
}
