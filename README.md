# Uplink 5GMM message builders of the open5gs test UE

This project models the eleven `testgmm_build_*` functions of open5gs'
`tests/common/gmm-build.c`. With them a simulated UE builds the uplink 5G mobility
management messages of 3GPP TS 24.501:

- Registration Request and Registration Complete;
- Identity Response;
- Authentication Response and Authentication Failure;
- Security Mode Complete;
- Service Request;
- Configuration Update Complete;
- UL NAS Transport;
- De-registration Request;
- 5GMM Status.

Every builder works the same way. It zeroes a message record, sets the 5GMM header, fills the
fields of its message, sets presence-mask bits for the optional IEs it fills, and hands
the record either to the plain encoder or to the security encoder.

In the model each builder is a method that returns `Built(envelope, msg)`:

- `envelope` says which encoder the record goes to, and with which security header type: `Plain`, `Protected` (integrity protected and ciphered), or `ProtectedNewContext` (the same, with a new security context).
- `msg` is a `Message` value with one variant per message type. Each variant holds a record of that message's fields.

The UE and its PDU session are classes. The builders read the UE and its session. Only the
Authentication Response builder writes to the UE, and it writes only the UE's `kamf`.

Modules:

- `NasTypes` (`nas_types.dfy`):
  - the integer and byte types;
  - the TS 24.501 constants the builders use;
  - the IE values and the message records;
  - `Message` and `Envelope`;
  - the envelope table `SelectEnvelope`;
  - `WellFormed`, which holds when every presence bit names an IE of the message and every IE whose bit is clear still holds its zeroed value.
- `UplinkStatus` (`uplink_status.dfy`): the uplink data status bitmask (TS 24.501, section 9.11.3.57), computed as `(m << 8) | (m >> 8)` with `m = 1 << psi` in 16 bits. It also gives the bitmask's meaning on the wire, assuming the encoder (not part of this model) writes the 16-bit field most significant byte first.
- `Aka` (`aka.dfy`):
  - the 5G AKA derivations of 3GPP TS 33.501 Annex A: RES*, KAUSF, KSEAF and KAMF;
  - the re-synchronisation token AUTS of 3GPP TS 33.102, section 6.3.3;
  - the home network's reading of AUTS.
  MILENAGE and the key derivation functions are parameters: total functions with fixed result lengths.
- `Identity` (`identity.dfy`):
  - the GUTI and SUCI mobile identities, as abstract values;
  - the `htobe32` byte order of the 5G-TMSI in the S-TMSI identity, with both round trips.
- `TestContext` (`test_context.dfy`): the `TestUe` and `TestSess` classes.
- `GmmBuild` (`gmm_build.dfy`): the eleven builders.

## Model

| member | source | states |
|---|---|---|
| GmmBuild.BuildRegistrationRequest | tests/common/gmm-build.c:22-100 | A registration update is protected and carries the GUTI. It also carries the uplink data status: length 2, the byte-swapped `1 << psi`. An initial registration is plain (header type 0) and carries the SUCI with its stored length. Both carry the 5GMM capability (length 1, LPP, HO attach and S1 mode set) and the UE security capability (length 8, all four algorithm octets 0xff). The presence set is exactly those IEs. The record is well formed. |
| GmmBuild.BuildIdentityResponse | tests/common/gmm-build.c:102-122 | Plain; carries the SUCI with the UE's stored length. |
| GmmBuild.BuildAuthenticationResponse | tests/common/gmm-build.c:124-174 | Plain. Exactly the response parameter is present, with length 16 and RES* = KDF(CK, IK, SN name, RAND, RES[..8]). The UE's KAMF becomes KDF_kamf(SUPI, ABBA, KDF_kseaf(SN name, KDF_kausf(CK, IK, SN name, AUTN))). Nothing else in the UE changes. |
| GmmBuild.BuildAuthenticationFailure | tests/common/gmm-build.c:176-222 | Plain, and carries the given cause. The failure parameter is present iff the cause is #21 (synch failure). It then has length 14 and holds AUTS = (SQN_MS xor AK*) followed by MAC-S. Otherwise the presence set is empty and the length is 0. The UE is not changed. |
| GmmBuild.BuildSecurityModeComplete | tests/common/gmm-build.c:224-271 | Sent with the new-context header. The IMEISV is always present: length 9, type IMEISV, even, digits 1 1 1 and the rest 0. The NAS message container is present iff a buffer is given. It then holds that buffer, with its length as a 16-bit field. |
| GmmBuild.BuildRegistrationComplete | tests/common/gmm-build.c:273-293 | Protected; no fields. |
| GmmBuild.BuildServiceRequest | tests/common/gmm-build.c:295-346 | Protected. The ngKSI is service type data, with the UE's tsc and ksi. The S-TMSI has length 7. Its set1, set2 and pointer come from the GUTI's AMF id. Its 5G-TMSI is in network byte order, and reading it back gives the GUTI's 5G-TMSI. Exactly the uplink data status is present, with the PSI bit of the UE's session. |
| GmmBuild.BuildConfigurationUpdateComplete | tests/common/gmm-build.c:348-375 | Protected; control plane service type "mobile originating". |
| GmmBuild.BuildUlNasTransport | tests/common/gmm-build.c:377-444 | Protected. The presence set is exactly PDU session id, request type, S-NSSAI and DNN. The container type and payload are the caller's, with the payload length as a 16-bit field. The PDU session id is the session's psi and the request type is initial. The S-NSSAI has length 4 with the given SST and SD. The DNN has length `strlen(dnn)` as an 8-bit field and holds the session's DNN. |
| GmmBuild.BuildDeregistrationRequest | tests/common/gmm-build.c:446-489 | Protected. Carries the UE's ksi, the switch-off flag and the access type. The identity is the GUTI (length 11) iff the 5G-TMSI is non-zero, else the SUCI. |
| GmmBuild.BuildGmmStatus | tests/common/gmm-build.c:491-509 | Plain; carries the given cause. |
| NasTypes.Envelope.SecurityHeaderType | tests/common/gmm-build.c:47-52 | The security header type is 0 exactly for the plain encoder. |
| NasTypes.OuterHeaderSetTogether | tests/common/gmm-build.c:47-52 | The two outer-header fields are set together: the security header type is plain exactly when the outer discriminator is 0, and otherwise the discriminator is the 5GMM value. |
| NasTypes.PlainExactlyBeforeSecurity | tests/common/gmm-build.c:96-99 | A record goes plain iff it is an initial Registration Request, Identity Response, Authentication Response or Failure, or 5GMM Status. The new-context header is used iff it is Security Mode Complete. |
| UplinkStatus.PsiMask | tests/common/gmm-build.c:69 | The 16-bit `1 << psi` has exactly one bit for psi below 16 and is 0 from 16 on. |
| UplinkStatus.ByteSwap | tests/common/gmm-build.c:71-72 | The low byte of the result is the high byte of the input, and the other way round. |
| UplinkStatus.WireOctets | tests/common/gmm-build.c:71-72 | The octets an encoder writing the field filled here most significant byte first (`htobe16`) puts on the wire; they read back as the 16-bit field. The byte order is the encoder's assumption, not these lines'. |
| UplinkStatus.StatusIsByteSwappedMask | tests/common/gmm-build.c:71-72 | The two ORed shifts are the byte swap of the mask. |
| UplinkStatus.StatusHasOneBit | tests/common/gmm-build.c:69-72 | For psi below 16, exactly one bit of the field is set. |
| UplinkStatus.StatusHighByte | tests/common/gmm-build.c:69-72 | For psi 0 to 7 the right shift adds nothing and the bit sits in the high byte at psi + 8. |
| UplinkStatus.StatusLowByte | tests/common/gmm-build.c:340-343 | For psi 8 to 15 the left shift adds nothing and the bit sits in the low byte at psi - 8. |
| UplinkStatus.StatusEmptyBeyond15 | tests/common/gmm-build.c:340-343 | For psi 16 to 30 the field is 0. |
| UplinkStatus.StatusFlagsExactlyPsi | tests/common/gmm-build.c:71-72 | If the encoder writes the field most significant byte first, then with the TS 24.501 section 9.11.3.57 layout PSI(p) is raised iff p is the session's psi. |
| Aka.Xor | tests/common/gmm-build.c:213-214 | The result has the inputs' length and octet i is `a[i] ^ b[i]`; the AUTS loop of the Authentication Failure builder is proved to compute it. |
| Aka.XorTwice | tests/common/gmm-build.c:213-214 | XOR with the same key twice is the identity. |
| Aka.AutsRoundTrip | tests/common/gmm-build.c:204-218 | A network holding the same OPc, K and RAND recovers SQN_MS from the UE's AUTS, and the token's MAC-S checks out. |
| Identity.BigEndian32RoundTrip | tests/common/gmm-build.c:331 | Reading back the `htobe32` octets gives the 5G-TMSI. |
| Identity.FromBigEndian32RoundTrip | tests/common/gmm-build.c:331 | Every four octets are the network-order form of the value they read as. |

## Left out

- The plain and security encoders are left out. These are the NAS wire encoding, NAS COUNT, the MAC and ciphering. The model stops at the record and the envelope handed to them.
- MILENAGE (f1*, f2, f3, f4, f5*) and the TS 33.501 key derivation functions are cryptographic primitives, so they are parameters with fixed result lengths and no definitions. The Authentication Response builder also asks `milenage_f2345` for AK (f5) but never uses it, so the model has no f5.
- The serving network name is a parameter. It is built from the configured PLMN, allocated and freed in the source. The configured S-NSSAI (SST and SD) is a parameter too.
- Buffer ownership is left out (`ogs_pkbuf_free` of the NAS message container buffer and the UL NAS Transport payload). The Security Mode Complete builder frees `nasbuf` at gmm-build.c:267. The encode at gmm-build.c:270 then reads the container that points into it. The model keeps the buffer's contents, as if the free came after the encode.
- Bit-level layouts are abstract values, not bytes: the 5G-GUTI (`ogs_nas_5gs_nas_guti_to_mobilty_identity_guti`), the SUCI, the IMEISV bit-fields and the S-NSSAI. The builders make two byte-order decisions themselves. The S-TMSI's `htobe32` (gmm-build.c:331) is modelled. The SD's `ogs_htobe24` (gmm-build.c:432) is not: the model stores the configured SD value unchanged.
- The `ogs_cpystrn` copy bound on the DNN value is left out: the value is the whole DNN. The DNN is a C string, modelled as its octets before the terminating NUL (no octet is zero), so its length is `strlen`; the one-octet length field keeps it modulo 256.
- The Authentication Failure builder sets its presence bit through the Authentication Response parameter constant. The model records it as "AUTS present", the bit the encoder of this message reads.
- The `nas` field of the UE is a union. The model keeps only the four views the builders read: the registration type value, tsc, ksi and access type. In the source `tsc` and `ksi` are bit-fields that overlap the octet `data`; the model keeps the four as independent fields, so it does not capture that overlap.
- UplinkStatus.WireOctets: assumes the uplink data status encoder writes the 16-bit `psi` field with `htobe16`, most significant byte first; that encoder is not part of this model, and gmm-build.c:70-72 only store a host-order value.
- UplinkStatus.StatusFlagsExactlyPsi: holds only under that same most-significant-first assumption; written least significant byte first, the field of psi 5 would raise PSI(13).
- GmmBuild.BuildRegistrationRequest: requires psi below 31 when `update` is set, because `1 << psi` on a C int is undefined from 31 on.
- GmmBuild.BuildServiceRequest: requires psi below 31, for the same reason.
- The message type, security header, identity and cause codes are the values of 3GPP TS 24.501. The header files that define them are not part of this model.
- The null-pointer assertions on the UE, the session and the payload become non-null parameter types or `requires` clauses. Non-null parameter types are used where the source dereferences unconditionally.
