# CA key update announcement handler

A model of the handler in a lightweight CMP registration authority that
answers a general message (an info-type request identified by an OID) with a
pre-configured CA key update announcement, without contacting the CA.

The handler has two parts:

- **Loading a certificate slot** (`MsgProcessing.LoadCertificate`). An
  optional file name is handed to the certificate loader. No file name, or a
  file with no certificate, gives an absent slot. A file with one certificate
  gives that certificate converted to its CMP form. A file with two or more
  certificates is an error ("only one certificate allowed in <file>"). An
  exception from the loader or from the conversion is passed on unchanged.
- **The handler** (`MsgProcessing.New`, `MsgProcessing.Apply`). Construction
  loads `oldWithNew`, `newWithOld` and `newWithNew` in that order, each from
  its own configuration entry, and stops at the first failure. The stored
  slots never change afterwards. `Apply(response, oid)` answers any OID with a
  general response (`genp`, tag 22) holding one `InfoTypeAndValue`. That entry
  echoes the OID and carries a `CAKeyUpdAnnContent` built from the three
  stored slots.

Modules:

- `Wrappers` (wrappers.dfy): `Option` for Java's nullable references and
  `Result` for exceptions.
- `CmpTypes` (cmp_types.dfy): the structural shape of `PKIBody`,
  `GenRepContent`, `InfoTypeAndValue` and `CAKeyUpdAnnContent`, following
  sections 5.3.13, 5.3.19 and 5.3.20 of RFC 4210.
- `CryptoServices` (crypto_services.dfy): the two certificate utilities the
  handler calls, `loadCertificatesFromFile` and `cmpCertificateFromCertificate`.
  They are passed in as functions, because their bodies are not part of this model.
- `MsgProcessing` (ca_key_upd_ann_content_response.dfy): the handler itself.
  It also holds `ReadAnnouncement`, which is how a receiver reads the answer back,
  and `Consulted`, which lists the file names construction hands to the loader.
- `KeyUpdAnnProperties` (key_upd_ann_properties.dfy): the lemmas.

The handler's doc comment (lines 40-45) describes the answer as
`RootCaKeyUpdate`, with `newWithNew` mandatory. Section 5.3.13 of RFC 4210
makes all three fields of `CAKeyUpdAnnContent` mandatory. The code enforces
neither rule: every slot is loaded the same way and may be absent. The model
follows the code. `EveryPresenceCombinationCarried` shows that all eight
presence combinations reach the answer, including an absent `newWithNew`.

## Model

| member | source | states |
|---|---|---|
| MsgProcessing.LoadCertificate | src/main/com/siemens/pki/lightweightcmpra/msgprocessing/CAKeyUpdAnnContentResponse.java:52-68 | no file name gives an absent slot; a loader exception is passed on unchanged; otherwise the load succeeds exactly when the file holds no certificate, or one whose conversion succeeds, and the slot then holds exactly the file's certificates converted; two or more give TooManyCertificates for that file, and a failing conversion is passed on as ConversionFailed |
| MsgProcessing.New | src/main/com/siemens/pki/lightweightcmpra/msgprocessing/CAKeyUpdAnnContentResponse.java:81-86 | construction succeeds exactly when all three slot loads succeed, and then each slot holds the load of its own configuration entry; otherwise the error is that of the first failing slot, in the order oldWithNew, newWithOld, newWithNew |
| MsgProcessing.Apply | src/main/com/siemens/pki/lightweightcmpra/msgprocessing/CAKeyUpdAnnContentResponse.java:92-97 | the answer is a well-tagged general response with exactly one entry; reading it back gives the requested OID and an announcement whose three slots are the stored oldWithNew, newWithOld and newWithNew, in place |
| KeyUpdAnnProperties.AbsentFileNameNotLoaded | src/main/com/siemens/pki/lightweightcmpra/msgprocessing/CAKeyUpdAnnContentResponse.java:54-56 | an absent file name gives an absent slot whatever the loader would return, so the loader is not consulted |
| KeyUpdAnnProperties.NoCertificateGivesAbsentSlot | src/main/com/siemens/pki/lightweightcmpra/msgprocessing/CAKeyUpdAnnContentResponse.java:59-61 | a file with no certificate gives an absent slot, not an error |
| KeyUpdAnnProperties.OneCertificateIsConverted | src/main/com/siemens/pki/lightweightcmpra/msgprocessing/CAKeyUpdAnnContentResponse.java:62-63 | a file with exactly one certificate gives the conversion of that certificate, or the conversion's exception |
| KeyUpdAnnProperties.SeveralCertificatesAreRejected | src/main/com/siemens/pki/lightweightcmpra/msgprocessing/CAKeyUpdAnnContentResponse.java:64-66 | a file with two or more certificates gives TooManyCertificates naming the file, with the message "only one certificate allowed in " followed by the file name, and no certificate |
| KeyUpdAnnProperties.LoadCertificateReadsOnlyItsFile | src/main/com/siemens/pki/lightweightcmpra/msgprocessing/CAKeyUpdAnnContentResponse.java:54-63 | a slot's load depends on the loader only at that slot's own file name |
| KeyUpdAnnProperties.FailureStopsLoading | src/main/com/siemens/pki/lightweightcmpra/msgprocessing/CAKeyUpdAnnContentResponse.java:81-86 | if oldWithNew fails, construction fails with its error and only its file is loaded; if oldWithNew loads and newWithOld fails, construction fails with newWithOld's error and newWithNew's file is not loaded |
| KeyUpdAnnProperties.ConstructionReadsOnlyConsulted | src/main/com/siemens/pki/lightweightcmpra/msgprocessing/CAKeyUpdAnnContentResponse.java:83-85 | construction depends on the loader only at the consulted files: the given names of oldWithNew, then newWithOld, then newWithNew, cut off after the first slot whose load fails; two loaders that agree there give the same handler or the same error and consult the same files |
| KeyUpdAnnProperties.SlotPresenceDecidedPerSlot | src/main/com/siemens/pki/lightweightcmpra/msgprocessing/CAKeyUpdAnnContentResponse.java:83-96 | in the answer of a constructed handler, each slot is present exactly when its own file name is given and that file holds exactly one certificate |
| KeyUpdAnnProperties.EveryPresenceCombinationCarried | src/main/com/siemens/pki/lightweightcmpra/msgprocessing/CAKeyUpdAnnContentResponse.java:81-97 | each of the eight presence combinations of the three slots is produced by some configuration and carried unchanged into the answer, an absent newWithNew included |
| KeyUpdAnnProperties.AnswerDiffersOnlyInOid | src/main/com/siemens/pki/lightweightcmpra/msgprocessing/CAKeyUpdAnnContentResponse.java:92-97 | two answers of one handler are equal exactly when the OIDs are equal, and they carry the same announcement |
| KeyUpdAnnProperties.AnswerDeterminesSlots | src/main/com/siemens/pki/lightweightcmpra/msgprocessing/CAKeyUpdAnnContentResponse.java:93-96 | two handlers give the same answer to an OID exactly when their stored slots are equal, so no slot is dropped or swapped |

## Left out

- File and key store parsing inside `CertUtility.loadCertificatesFromFile`, and the X.509-to-CMP conversion in `cmpCertificateFromCertificate`: these bodies are not part of this model. Both are parameters. The loader is a function of the file name, so reading the same file twice gives the same result here.
- MsgProcessing.LoadCertificate: the conversion to CMP form is an opaque parameter, so the model does not claim that the stored certificate keeps the file's encoding byte for byte; it claims only that the slot holds what the conversion returned.
- A null list from the loader: the model's loader always returns a list or an error.
- ASN.1 encoding of `PKIBody` and the types inside it (a foreign library): only their structure is modelled. Whether an encoder accepts absent `CAKeyUpdAnnContent` fields is not modelled.
- The XML configuration binding: the configuration subtree is a record of three optional file names.
- Exception types: the loader's exceptions are kept as their message. The thrown `IOException` is `TooManyCertificates`.
- Registration of the handler as a `Function<ASN1ObjectIdentifier, PKIBody>` in a dispatcher: the dispatcher is not part of this model.
- The HTTP upstream transport, polling, nested wrapping and the test harness: they are not part of the handler.
