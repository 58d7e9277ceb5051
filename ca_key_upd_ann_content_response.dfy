/** A handler that answers a general message for a given info type with a
    pre-configured CA key update announcement. Its three certificate slots are
    loaded once, at configuration time, and only read afterwards. */
module MsgProcessing {
  import opened Wrappers
  import opened CmpTypes
  import opened CryptoServices

  /** The exceptions construction can end with. */
  datatype ConfigError =
      /** whatever `loadCertificatesFromFile` threw, passed on unchanged */
    | LoaderFailed(cause: string)
      /** whatever `cmpCertificateFromCertificate` threw, passed on unchanged */
    | ConversionFailed(cause: string)
      /** the `IOException` thrown when a file holds two or more certificates */
    | TooManyCertificates(filename: string)

  /** The text of the exception. */
  function Message(e: ConfigError): string {
    match e
    case LoaderFailed(cause) => cause
    case ConversionFailed(cause) => cause
    case TooManyCertificates(filename) => "only one certificate allowed in " + filename
  }

  /** The configuration subtree: one optional file name per slot. */
  datatype Config = Config(
    oldWithNew: Option<string>,
    newWithOld: Option<string>,
    newWithNew: Option<string>)

  /** The handler's three final fields. */
  datatype CAKeyUpdAnnContentResponse = CAKeyUpdAnnContentResponse(
    oldWithNew: Option<CMPCertificate>,
    newWithOld: Option<CMPCertificate>,
    newWithNew: Option<CMPCertificate>)

  /** A slot as a list of at most one certificate. */
  function SlotAsSeq(slot: Option<CMPCertificate>): (s: seq<CMPCertificate>)
    ensures |s| <= 1
  {
    match slot
    case None => []
    case Some(c) => [c]
  }

  /** `cmp` is `certs` converted to CMP form one by one, in order, with no
      conversion failing. */
  ghost predicate ConvertsTo(util: CertUtility, certs: seq<X509Certificate>, cmp: seq<CMPCertificate>) {
    && |cmp| == |certs|
    && forall i :: 0 <= i < |certs| ==> util.cmpCertificateFromCertificate(certs[i]) == Ok(cmp[i])
  }

  /** Loads one slot. No file name gives an empty slot without consulting the
      loader; otherwise the slot holds exactly the certificates of the file,
      converted, which succeeds only for zero certificates, or for one whose
      conversion succeeds. Two or more are an error and never cut down to the
      first; a failing conversion is passed on. */
  function LoadCertificate(filename: Option<string>, util: CertUtility)
    : (r: Result<Option<CMPCertificate>, ConfigError>)
    ensures filename.None? ==> r == Ok(None)
    ensures filename.Some? ==>
      var loaded := util.loadCertificatesFromFile(filename.value);
      && (loaded.Err? ==> r == Err(LoaderFailed(loaded.error)))
      && (loaded.Ok? ==>
            (r.Ok? <==> |loaded.value| == 0
                        || (|loaded.value| == 1 && util.cmpCertificateFromCertificate(loaded.value[0]).Ok?)))
      && (loaded.Ok? && r.Ok? ==> ConvertsTo(util, loaded.value, SlotAsSeq(r.value)))
      && (loaded.Ok? && r.Err? ==>
            r.error == if |loaded.value| >= 2 then TooManyCertificates(filename.value)
                       else ConversionFailed(util.cmpCertificateFromCertificate(loaded.value[0]).error))
  {
    if filename.None? then
      Ok(None)
    else
      match util.loadCertificatesFromFile(filename.value)
      case Err(cause) => Err(LoaderFailed(cause))
      case Ok(certs) =>
        if |certs| == 0 then
          Ok(None)
        else if |certs| == 1 then
          match util.cmpCertificateFromCertificate(certs[0])
          case Err(cause) => Err(ConversionFailed(cause))
          case Ok(cert) => Ok(Some(cert))
        else
          Err(TooManyCertificates(filename.value))
  }

  /** The first error among three slot loads, in load order. */
  function FirstError(
    a: Result<Option<CMPCertificate>, ConfigError>,
    b: Result<Option<CMPCertificate>, ConfigError>,
    c: Result<Option<CMPCertificate>, ConfigError>): ConfigError
    requires a.Err? || b.Err? || c.Err?
  {
    if a.Err? then a.error else if b.Err? then b.error else c.error
  }

  /** The constructor: loads `oldWithNew`, then `newWithOld`, then
      `newWithNew`, each from its own configuration entry. It succeeds exactly
      when all three loads do, and then stores each load in its own slot;
      otherwise it ends with the first load's error. */
  function New(config: Config, util: CertUtility)
    : (r: Result<CAKeyUpdAnnContentResponse, ConfigError>)
    ensures
      var a := LoadCertificate(config.oldWithNew, util);
      var b := LoadCertificate(config.newWithOld, util);
      var c := LoadCertificate(config.newWithNew, util);
      && (r.Ok? <==> a.Ok? && b.Ok? && c.Ok?)
      && (r.Ok? ==>
            && r.value.oldWithNew == a.value
            && r.value.newWithOld == b.value
            && r.value.newWithNew == c.value)
      && (r.Err? ==> r.error == FirstError(a, b, c))
  {
    var oldWithNew :- LoadCertificate(config.oldWithNew, util);
    var newWithOld :- LoadCertificate(config.newWithOld, util);
    var newWithNew :- LoadCertificate(config.newWithNew, util);
    Ok(CAKeyUpdAnnContentResponse(oldWithNew, newWithOld, newWithNew))
  }

  /** The file name of a slot, as a list of zero or one name. */
  function NameAsSeq(filename: Option<string>): seq<string> {
    if filename.Some? then [filename.value] else []
  }

  /** The file names construction hands to `loadCertificatesFromFile`, in
      order: absent names are skipped, and loading stops after the first slot
      that fails. */
  ghost function Consulted(config: Config, util: CertUtility): seq<string> {
    NameAsSeq(config.oldWithNew)
    + if LoadCertificate(config.oldWithNew, util).Err? then []
      else NameAsSeq(config.newWithOld)
           + if LoadCertificate(config.newWithOld, util).Err? then []
             else NameAsSeq(config.newWithNew)
  }

  /** Two utilities that agree on the conversion and on every file name in
      `names`. */
  ghost predicate AgreeOn(util: CertUtility, util': CertUtility, names: seq<string>) {
    && util'.cmpCertificateFromCertificate == util.cmpCertificateFromCertificate
    && forall f :: f in names ==> util'.loadCertificatesFromFile(f) == util.loadCertificatesFromFile(f)
  }

  /** The answer to a request for `oid`: a general response holding one
      `InfoTypeAndValue` that echoes `oid` and carries the stored slots. */
  function Apply(response: CAKeyUpdAnnContentResponse, oid: Oid): (body: PKIBody)
    ensures WellTagged(body) && body.tagNo == TYPE_GEN_REP
    ensures body.content.Genp? && |body.content.genp.items| == 1
    ensures
      var read := ReadAnnouncement(body);
      && read.Some?
      && read.value.0 == oid
      && read.value.1.oldWithNew == response.oldWithNew
      && read.value.1.newWithOld == response.newWithOld
      && read.value.1.newWithNew == response.newWithNew
  {
    PKIBody(TYPE_GEN_REP,
      Genp(GenRepContent([InfoTypeAndValue(oid,
        Some(KeyUpdAnnValue(CAKeyUpdAnnContent(
          response.oldWithNew, response.newWithOld, response.newWithNew))))])))
  }

  /** How a receiver reads a key update announcement out of a body: a well
      tagged general response with exactly one entry, whose value is an
      announcement. Gives the entry's info type and the announcement. */
  function ReadAnnouncement(body: PKIBody): Option<(Oid, CAKeyUpdAnnContent)> {
    if WellTagged(body) && body.content.Genp? && |body.content.genp.items| == 1 then
      var itav := body.content.genp.items[0];
      if itav.infoValue.Some? && itav.infoValue.value.KeyUpdAnnValue? then
        Some((itav.infoType, itav.infoValue.value.ann))
      else None
    else None
  }

  /** Which of the three slots are present. */
  datatype Presence = Presence(oldWithNew: bool, newWithOld: bool, newWithNew: bool)

  function PresenceOf(ann: CAKeyUpdAnnContent): Presence {
    Presence(ann.oldWithNew.Some?, ann.newWithOld.Some?, ann.newWithNew.Some?)
  }

  /** A slot is filled when its file name is given and the file holds exactly
      one certificate. */
  ghost predicate HoldsOneCertificate(filename: Option<string>, util: CertUtility) {
    && filename.Some?
    && util.loadCertificatesFromFile(filename.value).Ok?
    && |util.loadCertificatesFromFile(filename.value).value| == 1
  }
}
