/** Properties of the CA key update announcement handler: how one slot is
    loaded, what construction consults and in which order, and what the answer
    carries. */
module KeyUpdAnnProperties {
  import opened Wrappers
  import opened CmpTypes
  import opened CryptoServices
  import opened MsgProcessing

  /** An absent file name gives an absent slot whatever the loader would say:
      the loader is not consulted. */
  lemma AbsentFileNameNotLoaded(util: CertUtility, util': CertUtility)
    ensures LoadCertificate(None, util) == LoadCertificate(None, util') == Ok(None)
  {
  }

  /** A file holding no certificate gives an absent slot, not an error. */
  lemma NoCertificateGivesAbsentSlot(filename: string, util: CertUtility)
    requires util.loadCertificatesFromFile(filename) == Ok([])
    ensures LoadCertificate(Some(filename), util) == Ok(None)
  {
  }

  /** A file holding one certificate gives that certificate, converted; if
      the conversion throws, its exception is passed on. */
  lemma OneCertificateIsConverted(filename: string, util: CertUtility, cert: X509Certificate)
    requires util.loadCertificatesFromFile(filename) == Ok([cert])
    ensures LoadCertificate(Some(filename), util)
      == match util.cmpCertificateFromCertificate(cert)
         case Ok(c) => Ok(Some(c))
         case Err(cause) => Err(ConversionFailed(cause))
  {
  }

  /** A file holding two or more certificates is an error naming the file; it
      yields none of them, in particular not the first. */
  lemma SeveralCertificatesAreRejected(filename: string, util: CertUtility)
    requires util.loadCertificatesFromFile(filename).Ok?
    requires |util.loadCertificatesFromFile(filename).value| >= 2
    ensures LoadCertificate(Some(filename), util) == Err(TooManyCertificates(filename))
    ensures Message(LoadCertificate(Some(filename), util).error)
              == "only one certificate allowed in " + filename
  {
  }

  /** One slot's load depends on the loader only at its own file name. */
  lemma LoadCertificateReadsOnlyItsFile(filename: Option<string>, util: CertUtility, util': CertUtility)
    requires util'.cmpCertificateFromCertificate == util.cmpCertificateFromCertificate
    requires filename.Some? ==>
      util'.loadCertificatesFromFile(filename.value) == util.loadCertificatesFromFile(filename.value)
    ensures LoadCertificate(filename, util') == LoadCertificate(filename, util)
  {
  }

  /** If the first slot fails, construction fails with its error and only its
      file is consulted; if the first succeeds and the second fails, only the
      first two slots' files are consulted. */
  lemma FailureStopsLoading(config: Config, util: CertUtility)
    ensures LoadCertificate(config.oldWithNew, util).Err? ==>
      && New(config, util) == Err(LoadCertificate(config.oldWithNew, util).error)
      && Consulted(config, util) == [config.oldWithNew.value]
    ensures LoadCertificate(config.oldWithNew, util).Ok? && LoadCertificate(config.newWithOld, util).Err? ==>
      && New(config, util) == Err(LoadCertificate(config.newWithOld, util).error)
      && Consulted(config, util)
           == (if config.oldWithNew.Some? then [config.oldWithNew.value] else [])
              + [config.newWithOld.value]
  {
  }

  /** Construction depends on the loader only at the files it consults: a
      loader that agrees there (and converts alike) yields the same handler or
      the same error, and the same consulted files. Files of slots after a
      failing one are therefore never loaded. */
  lemma ConstructionReadsOnlyConsulted(config: Config, util: CertUtility, util': CertUtility)
    requires AgreeOn(util, util', Consulted(config, util))
    ensures New(config, util') == New(config, util)
    ensures Consulted(config, util') == Consulted(config, util)
  {
  }

  /** Each slot of the answer is filled exactly when its own file name is
      given and that file holds one certificate; the other slots play no part. */
  lemma SlotPresenceDecidedPerSlot(config: Config, util: CertUtility, oid: Oid)
    requires New(config, util).Ok?
    ensures ReadAnnouncement(Apply(New(config, util).value, oid)).Some?
    ensures PresenceOf(ReadAnnouncement(Apply(New(config, util).value, oid)).value.1)
      == Presence(
           HoldsOneCertificate(config.oldWithNew, util),
           HoldsOneCertificate(config.newWithOld, util),
           HoldsOneCertificate(config.newWithNew, util))
  {
  }

  /** A utility whose every file holds the same single certificate. */
  function OneCertificateEverywhere(): CertUtility {
    CertUtility(
      (f: string) => Ok([X509Certificate([])]),
      (c: X509Certificate) => Ok(X509v3PKCert(c.encoded)))
  }

  /** Each of the eight combinations of present and absent slots is carried
      through to an answer: slot presence is independent, and `newWithNew` is
      not required. */
  lemma EveryPresenceCombinationCarried(p: Presence, oid: Oid)
    ensures exists config: Config, util: CertUtility ::
      && New(config, util).Ok?
      && PresenceOf(ReadAnnouncement(Apply(New(config, util).value, oid)).value.1) == p
  {
    var util := OneCertificateEverywhere();
    var config := Config(
      if p.oldWithNew then Some("oldWithNew.pem") else None,
      if p.newWithOld then Some("newWithOld.pem") else None,
      if p.newWithNew then Some("newWithNew.pem") else None);
    SlotPresenceDecidedPerSlot(config, util, oid);
  }

  /** Two answers from one handler are equal exactly when the OIDs are, and
      they carry the same announcement: only the echoed identifier differs. */
  lemma AnswerDiffersOnlyInOid(response: CAKeyUpdAnnContentResponse, oid: Oid, oid': Oid)
    ensures Apply(response, oid) == Apply(response, oid') <==> oid == oid'
    ensures ReadAnnouncement(Apply(response, oid)).value.1
         == ReadAnnouncement(Apply(response, oid')).value.1
  {
  }

  /** The answer determines the three stored slots: no two handlers with
      different slots give the same answer, so no slot is dropped or swapped. */
  lemma AnswerDeterminesSlots(response: CAKeyUpdAnnContentResponse, response': CAKeyUpdAnnContentResponse, oid: Oid)
    ensures Apply(response, oid) == Apply(response', oid) <==> response == response'
  {
  }
}
