/** The uplink 5GMM message builders of the test UE. Each one zeroes a message record,
    fills it field by field for one message type, and hands it to the plain encoder or
    to the security encoder. Here a builder returns the pair it would hand over: the
    envelope (which encoder, with which security header type) and the record. */
module GmmBuild {
  import opened NasTypes
  import opened TestContext
  import opened Aka
  import opened Identity
  import opened UplinkStatus

  /** What a builder hands to an encoder. */
  datatype Built = Built(envelope: Envelope, msg: Message)

  /** Length of the S-NSSAI IE the UL NAS Transport carries: SST and SD. */
  const S_NSSAI_LEN: uint8 := 4
  /** The capability values every Registration Request advertises. */
  const GMM_CAPABILITY_LEN: uint8 := 1
  const UE_SECURITY_CAPABILITY_LEN: uint8 := 8
  const ALL_ALGORITHMS: byte := 0xff

  /** Registration Request: a registration update carries the GUTI and the uplink data
      status and is protected; an initial registration carries the SUCI and goes plain.
      Both advertise the same 5GMM and security capabilities. */
  method BuildRegistrationRequest(ue: TestUe, update: bool) returns (b: Built)
    requires ue.sess != null
    requires update ==> ue.sess.psi < PSI_SHIFT_LIMIT
    ensures b.msg.RegistrationRequest? && WellFormed(b.msg)
    ensures MessageType(b.msg) == REGISTRATION_REQUEST
    ensures b.envelope == SelectEnvelope(b.msg, update)
    ensures b.envelope.SecurityHeaderType() == SECURITY_HEADER_PLAIN <==> !update
    ensures b.envelope.OuterDiscriminator() == (if update then EPD_5GMM else 0)
    ensures var r := b.msg.registrationRequest;
            && r.registrationType == ue.nas.data
            && (r.mobileIdentity.value.GutiIdentity? <==> update)
            && (update ==> r.mobileIdentity == GutiMobileIdentity(ue.nasGuti))
            && (!update ==> r.mobileIdentity == SuciMobileIdentity(ue.mobileIdentitySuci, ue.mobileIdentitySuciLength))
            && r.present == (if update then {UplinkDataStatusIe} else {}) + {GmmCapabilityIe, UeSecurityCapabilityIe}
            && (update ==> r.uplinkDataStatus == UplinkDataStatus(2, UplinkDataStatusBits(ue.sess.psi)))
            && r.gmmCapability == GmmCapability(GMM_CAPABILITY_LEN, 1, 1, 1)
            && r.ueSecurityCapability == UeSecurityCapability(
                 UE_SECURITY_CAPABILITY_LEN, ALL_ALGORITHMS, ALL_ALGORITHMS, ALL_ALGORITHMS, ALL_ALGORITHMS)
  {
    var sess := ue.sess;
    var envelope := Plain;
    if update {
      envelope := Protected;
    }
    var r := ZERO_REGISTRATION_REQUEST;
    r := r.(registrationType := ue.nas.data);

    if update {
      r := r.(mobileIdentity := GutiMobileIdentity(ue.nasGuti));
      r := r.(present := r.present + {UplinkDataStatusIe});
      var psimask := PsiMask(sess.psi);
      var status := r.uplinkDataStatus.(length := 2);
      status := status.(psi := status.psi | (psimask << 8));
      status := status.(psi := status.psi | (psimask >> 8));
      r := r.(uplinkDataStatus := status);
    } else {
      r := r.(mobileIdentity := SuciMobileIdentity(ue.mobileIdentitySuci, ue.mobileIdentitySuciLength));
    }

    r := r.(present := r.present + {GmmCapabilityIe});
    r := r.(gmmCapability := GmmCapability(GMM_CAPABILITY_LEN, 1, 1, 1));

    r := r.(present := r.present + {UeSecurityCapabilityIe});
    r := r.(ueSecurityCapability :=
      UeSecurityCapability(UE_SECURITY_CAPABILITY_LEN, ALL_ALGORITHMS, ALL_ALGORITHMS, ALL_ALGORITHMS, ALL_ALGORITHMS));

    b := Built(envelope, RegistrationRequest(r));
  }

  /** Identity Response: the SUCI, in a plain message. */
  method BuildIdentityResponse(ue: TestUe) returns (b: Built)
    ensures b.msg.IdentityResponse? && WellFormed(b.msg)
    ensures MessageType(b.msg) == IDENTITY_RESPONSE
    ensures b.envelope == SelectEnvelope(b.msg, false) && b.envelope == Plain
    ensures b.envelope.SecurityHeaderType() == SECURITY_HEADER_PLAIN && b.envelope.OuterDiscriminator() == 0
    ensures b.msg.mobileIdentity == SuciMobileIdentity(ue.mobileIdentitySuci, ue.mobileIdentitySuciLength)
  {
    var id := SuciMobileIdentity(ue.mobileIdentitySuci, ue.mobileIdentitySuciLength);
    b := Built(Plain, IdentityResponse(id));
  }

  /** Authentication Response: RES* for the current challenge, in a plain message. On the
      way the UE derives KAUSF, KSEAF and KAMF; only KAMF is kept, in the UE. */
  method BuildAuthenticationResponse(ue: TestUe, mil: Milenage, kdf: Kdf, snName: string) returns (b: Built)
    modifies ue`kamf
    ensures b.msg.AuthenticationResponse? && WellFormed(b.msg)
    ensures MessageType(b.msg) == AUTHENTICATION_RESPONSE
    ensures b.envelope == SelectEnvelope(b.msg, false) && b.envelope == Plain
    ensures b.envelope.SecurityHeaderType() == SECURITY_HEADER_PLAIN && b.envelope.OuterDiscriminator() == 0
    ensures b.msg.authenticationResponse.present == {AuthenticationResponseParameterIe}
    ensures b.msg.authenticationResponse.responseParameter ==
            ResponseParameter(AUTN_LEN, ResStar(mil, kdf, ue.opc, ue.k, ue.rand, snName))
    ensures ue.kamf == Kamf(mil, kdf, ue.opc, ue.k, ue.rand, ue.autn, snName, ue.supi, ue.abba)
  {
    var r := ZERO_AUTHENTICATION_RESPONSE;
    r := r.(present := r.present + {AuthenticationResponseParameterIe});

    var res := mil.f2(ue.opc, ue.k, ue.rand);
    var ck := mil.f3(ue.opc, ue.k, ue.rand);
    var ik := mil.f4(ue.opc, ue.k, ue.rand);
    var resStar := kdf.xresStar(ck, ik, snName, ue.rand, res[..RES_LEN]);
    r := r.(responseParameter := ResponseParameter(AUTN_LEN, resStar));

    var kausf := kdf.kausf(ck, ik, snName, ue.autn);
    var kseaf := kdf.kseaf(snName, kausf);
    ue.kamf := kdf.kamf(ue.supi, ue.abba, kseaf);

    b := Built(Plain, AuthenticationResponse(r));
  }

  /** Authentication Failure: the cause, and for a synchronisation failure the
      re-synchronisation token AUTS; a plain message that leaves the UE untouched. */
  method BuildAuthenticationFailure(ue: TestUe, mil: Milenage, gmmCause: uint8) returns (b: Built)
    ensures b.msg.AuthenticationFailure? && WellFormed(b.msg)
    ensures MessageType(b.msg) == AUTHENTICATION_FAILURE
    ensures b.envelope == SelectEnvelope(b.msg, false) && b.envelope == Plain
    ensures b.envelope.SecurityHeaderType() == SECURITY_HEADER_PLAIN && b.envelope.OuterDiscriminator() == 0
    ensures b.msg.authenticationFailure.gmmCause == gmmCause
    ensures AuthenticationFailureParameterIe in b.msg.authenticationFailure.present <==> gmmCause == CAUSE_SYNCH_FAILURE
    ensures gmmCause != CAUSE_SYNCH_FAILURE ==>
              b.msg.authenticationFailure.present == {} && b.msg.authenticationFailure.failureParameter.length == 0
    ensures gmmCause == CAUSE_SYNCH_FAILURE ==>
              b.msg.authenticationFailure.failureParameter == FailureParameter(AUTS_LEN, Auts(mil, ue.opc, ue.k, ue.rand))
  {
    var r := ZERO_AUTHENTICATION_FAILURE;
    r := r.(gmmCause := gmmCause);

    if gmmCause == CAUSE_SYNCH_FAILURE {
      r := r.(present := r.present + {AuthenticationFailureParameterIe});

      var ak := mil.f5Star(ue.opc, ue.k, ue.rand);
      var auts := new byte[AUTS_LEN];
      var macS := mil.f1Star(ue.opc, ue.k, ue.rand, SQN_MS, AMF_RESYNC);
      forall j | 0 <= j < MAC_S_LEN {
        auts[SQN_LEN + j] := macS[j];
      }
      var i := 0;
      while i < SQN_LEN
        invariant 0 <= i <= SQN_LEN
        invariant forall j :: 0 <= j < i ==> auts[j] == SQN_MS[j] ^ ak[j]
        invariant forall j :: 0 <= j < MAC_S_LEN ==> auts[SQN_LEN + j] == macS[j]
      {
        auts[i] := SQN_MS[i] ^ ak[i];
        i := i + 1;
      }

      assert auts[..SQN_LEN] == Xor(SQN_MS, ak);
      assert auts[SQN_LEN..] == macS;
      assert auts[..] == auts[..SQN_LEN] + auts[SQN_LEN..];
      r := r.(failureParameter := FailureParameter(AUTS_LEN, auts[..]));
    }

    b := Built(Plain, AuthenticationFailure(r));
  }

  /** Security Mode Complete: always the IMEISV, and the caller's NAS message in a
      container when one is given; sent with the new security context. */
  method BuildSecurityModeComplete(ue: TestUe, nasbuf: Option<seq<byte>>) returns (b: Built)
    ensures b.msg.SecurityModeComplete? && WellFormed(b.msg)
    ensures MessageType(b.msg) == SECURITY_MODE_COMPLETE
    ensures b.envelope == SelectEnvelope(b.msg, false) && b.envelope == ProtectedNewContext
    ensures b.envelope.SecurityHeaderType() == SECURITY_HEADER_INTEGRITY_PROTECTED_AND_CIPHERED_WITH_NEW_CONTEXT
    ensures b.envelope.OuterDiscriminator() == EPD_5GMM
    ensures var r := b.msg.securityModeComplete;
            && r.present == (if nasbuf.Some? then {ImeisvIe, NasMessageContainerIe} else {ImeisvIe})
            && r.imeisv.length == IMEISV_IDENTITY_LEN && r.imeisv.value.ImeisvIdentity?
            && r.imeisv.value.imeisv.typeOfIdentity == MOBILE_IDENTITY_IMEISV
            && r.imeisv.value.imeisv.oddEven == ODD_EVEN_EVEN
            && r.imeisv.value.imeisv.digits[..3] == [1, 1, 1]
            && (forall d :: 3 <= d < IMEISV_DIGITS ==> r.imeisv.value.imeisv.digits[d] == 0)
    ensures nasbuf.Some? ==>
              b.msg.securityModeComplete.nasMessageContainer == Container(|nasbuf.value| % 0x1_0000, nasbuf.value)
  {
    var r := ZERO_SECURITY_MODE_COMPLETE;

    r := r.(present := r.present + {ImeisvIe});
    var imeisv := Imeisv(0, 0, seq(IMEISV_DIGITS, _ => 0));
    imeisv := imeisv.(typeOfIdentity := MOBILE_IDENTITY_IMEISV);
    imeisv := imeisv.(oddEven := ODD_EVEN_EVEN);
    imeisv := imeisv.(digits := imeisv.digits[0 := 1][1 := 1][2 := 1]);
    r := r.(imeisv := MobileIdentity(IMEISV_IDENTITY_LEN, ImeisvIdentity(imeisv)));

    if nasbuf.Some? {
      r := r.(present := r.present + {NasMessageContainerIe});
      r := r.(nasMessageContainer := Container(|nasbuf.value| % 0x1_0000, nasbuf.value));
    }

    b := Built(ProtectedNewContext, SecurityModeComplete(r));
  }

  /** Registration Complete: no fields, protected. */
  method BuildRegistrationComplete(ue: TestUe) returns (b: Built)
    ensures b.msg == RegistrationComplete && WellFormed(b.msg)
    ensures MessageType(b.msg) == REGISTRATION_COMPLETE
    ensures b.envelope == SelectEnvelope(b.msg, false) && b.envelope == Protected
    ensures b.envelope.SecurityHeaderType() == SECURITY_HEADER_INTEGRITY_PROTECTED_AND_CIPHERED
    ensures b.envelope.OuterDiscriminator() == EPD_5GMM
  {
    b := Built(Protected, RegistrationComplete);
  }

  /** Service Request: data service with the UE's key set, the S-TMSI taken from its
      GUTI, and the uplink data status of its session; protected. */
  method BuildServiceRequest(ue: TestUe) returns (b: Built)
    requires ue.sess != null && ue.sess.psi < PSI_SHIFT_LIMIT
    requires ue.nasGuti.mTmsi != 0
    ensures b.msg.ServiceRequest? && WellFormed(b.msg)
    ensures MessageType(b.msg) == SERVICE_REQUEST
    ensures b.envelope == SelectEnvelope(b.msg, false) && b.envelope == Protected
    ensures b.envelope.SecurityHeaderType() == SECURITY_HEADER_INTEGRITY_PROTECTED_AND_CIPHERED
    ensures b.envelope.OuterDiscriminator() == EPD_5GMM
    ensures var r := b.msg.serviceRequest;
            && r.ngksi == Ngksi(SERVICE_TYPE_DATA, ue.nas.tsc, ue.nas.ksi)
            && r.sTmsi.length == S_TMSI_IDENTITY_LEN && r.sTmsi.value.STmsiIdentity?
            && r.present == {UplinkDataStatusIe}
            && r.uplinkDataStatus == UplinkDataStatus(2, UplinkDataStatusBits(ue.sess.psi))
    ensures var s := b.msg.serviceRequest.sTmsi.value.sTmsi;
            && s.set1 == ue.nasGuti.amfId.set1 && s.set2 == ue.nasGuti.amfId.set2
            && s.pointer == ue.nasGuti.amfId.pointer
            && s.mTmsi == BigEndian32(ue.nasGuti.mTmsi)
            && s.mTmsi[0] as int == ue.nasGuti.mTmsi / 0x100_0000
            && FromBigEndian32(s.mTmsi) == ue.nasGuti.mTmsi
  {
    var sess := ue.sess;
    var r := ZERO_SERVICE_REQUEST;

    r := r.(ngksi := r.ngksi.(serviceType := SERVICE_TYPE_DATA));
    r := r.(ngksi := r.ngksi.(tsc := ue.nas.tsc));
    r := r.(ngksi := r.ngksi.(value := ue.nas.ksi));

    var sTmsi := STmsi(0, 0, 0, 0, [0, 0, 0, 0]);
    sTmsi := sTmsi.(typeOfIdentity := MOBILE_IDENTITY_S_TMSI);
    sTmsi := sTmsi.(mTmsi := BigEndian32(ue.nasGuti.mTmsi));
    sTmsi := sTmsi.(set1 := ue.nasGuti.amfId.set1);
    sTmsi := sTmsi.(set2 := ue.nasGuti.amfId.set2);
    sTmsi := sTmsi.(pointer := ue.nasGuti.amfId.pointer);
    r := r.(sTmsi := MobileIdentity(S_TMSI_IDENTITY_LEN, STmsiIdentity(sTmsi)));
    BigEndian32RoundTrip(ue.nasGuti.mTmsi);

    r := r.(present := r.present + {UplinkDataStatusIe});
    var psimask := PsiMask(sess.psi);
    var status := r.uplinkDataStatus.(length := 2);
    status := status.(psi := status.psi | (psimask << 8));
    status := status.(psi := status.psi | (psimask >> 8));
    r := r.(uplinkDataStatus := status);

    b := Built(Protected, ServiceRequest(r));
  }

  /** Configuration Update Complete: mobile originating control plane service; protected. */
  method BuildConfigurationUpdateComplete(ue: TestUe) returns (b: Built)
    ensures b.msg == ConfigurationUpdateComplete(CONTROL_PLANE_SERVICE_TYPE_MO) && WellFormed(b.msg)
    ensures MessageType(b.msg) == CONFIGURATION_UPDATE_COMPLETE
    ensures b.envelope == SelectEnvelope(b.msg, false) && b.envelope == Protected
    ensures b.envelope.SecurityHeaderType() == SECURITY_HEADER_INTEGRITY_PROTECTED_AND_CIPHERED
    ensures b.envelope.OuterDiscriminator() == EPD_5GMM
  {
    b := Built(Protected, ConfigurationUpdateComplete(CONTROL_PLANE_SERVICE_TYPE_MO));
  }

  /** UL NAS Transport: the caller's payload for a session, with the session identity,
      an initial request type, the configured S-NSSAI (`sst`, `sd`) and the session's
      DNN; protected. */
  method BuildUlNasTransport(sess: TestSess, payloadType: uint8, payload: seq<byte>, sst: uint8, sd: uint24)
    returns (b: Built)
    requires sess.testUe != null
    requires payloadType != 0
    ensures b.msg.UlNasTransport? && WellFormed(b.msg)
    ensures MessageType(b.msg) == UL_NAS_TRANSPORT
    ensures b.envelope == SelectEnvelope(b.msg, false) && b.envelope == Protected
    ensures b.envelope.SecurityHeaderType() == SECURITY_HEADER_INTEGRITY_PROTECTED_AND_CIPHERED
    ensures b.envelope.OuterDiscriminator() == EPD_5GMM
    ensures var r := b.msg.ulNasTransport;
            && r.present == {PduSessionIdIe, RequestTypeIe, SNssaiIe, DnnIe}
            && r.payloadContainerType == payloadType
            && r.payloadContainer == Container(|payload| % 0x1_0000, payload)
            && r.pduSessionId == sess.psi
            && r.requestType == REQUEST_TYPE_INITIAL
            && r.sNssai == SNssai(S_NSSAI_LEN, sst, sd)
            && r.dnn == Dnn(|sess.dnn| % 0x100, sess.dnn)
  {
    var r := ZERO_UL_NAS_TRANSPORT;

    r := r.(payloadContainerType := payloadType);
    r := r.(payloadContainer := Container(|payload| % 0x1_0000, payload));

    r := r.(present := r.present + {PduSessionIdIe});
    r := r.(pduSessionId := sess.psi);

    r := r.(present := r.present + {RequestTypeIe});
    r := r.(requestType := REQUEST_TYPE_INITIAL);

    r := r.(present := r.present + {SNssaiIe});
    r := r.(sNssai := SNssai(S_NSSAI_LEN, sst, sd));

    r := r.(present := r.present + {DnnIe});
    r := r.(dnn := Dnn(|sess.dnn| % 0x100, sess.dnn));

    b := Built(Protected, UlNasTransport(r));
  }

  /** De-registration Request: the UE's key set, switch-off flag and access type, and its
      GUTI when one is assigned, otherwise its SUCI; protected. */
  method BuildDeregistrationRequest(ue: TestUe, switchOff: bool) returns (b: Built)
    ensures b.msg.DeregistrationRequest? && WellFormed(b.msg)
    ensures MessageType(b.msg) == DEREGISTRATION_REQUEST_FROM_UE
    ensures b.envelope == SelectEnvelope(b.msg, false) && b.envelope == Protected
    ensures b.envelope.SecurityHeaderType() == SECURITY_HEADER_INTEGRITY_PROTECTED_AND_CIPHERED
    ensures b.envelope.OuterDiscriminator() == EPD_5GMM
    ensures var r := b.msg.deregistrationRequest;
            && r.deRegistrationType == DeRegistrationType(ue.nas.ksi, switchOff, ue.nas.accessType)
            && (r.mobileIdentity.value.GutiIdentity? <==> ue.nasGuti.mTmsi != 0)
            && (ue.nasGuti.mTmsi != 0 ==>
                  r.mobileIdentity == GutiMobileIdentity(ue.nasGuti) && r.mobileIdentity.length == GUTI_IDENTITY_LEN)
            && (ue.nasGuti.mTmsi == 0 ==>
                  r.mobileIdentity == SuciMobileIdentity(ue.mobileIdentitySuci, ue.mobileIdentitySuciLength))
  {
    var r := ZERO_DEREGISTRATION_REQUEST;

    r := r.(deRegistrationType := r.deRegistrationType.(ksi := ue.nas.ksi));
    r := r.(deRegistrationType := r.deRegistrationType.(switchOff := switchOff));
    r := r.(deRegistrationType := r.deRegistrationType.(accessType := ue.nas.accessType));

    if ue.nasGuti.mTmsi != 0 {
      r := r.(mobileIdentity := GutiMobileIdentity(ue.nasGuti));
    } else {
      r := r.(mobileIdentity := SuciMobileIdentity(ue.mobileIdentitySuci, ue.mobileIdentitySuciLength));
    }

    b := Built(Protected, DeregistrationRequest(r));
  }

  /** 5GMM Status: the cause, in a plain message. */
  method BuildGmmStatus(ue: TestUe, gmmCause: uint8) returns (b: Built)
    ensures b.msg == GmmStatus(gmmCause) && WellFormed(b.msg)
    ensures MessageType(b.msg) == GMM_STATUS
    ensures b.envelope == SelectEnvelope(b.msg, false) && b.envelope == Plain
    ensures b.envelope.SecurityHeaderType() == SECURITY_HEADER_PLAIN && b.envelope.OuterDiscriminator() == 0
  {
    b := Built(Plain, GmmStatus(gmmCause));
  }
}
