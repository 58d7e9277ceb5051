/** The structural shape of the certificate-management protocol types the
    handler builds (section 5.3.13, 5.3.19 and 5.3.20 of RFC 4210). Only the
    fields the handler fills are modelled; ASN.1 encoding is not. The handler
    builds only `genp` bodies carrying an announcement; `Genm`, `TYPE_GEN_MSG`
    and `OtherValue` are here only so that `PKIBody` and `InfoTypeAndValue`
    keep their choice shape, against which a reader of the answer checks. */
module CmpTypes {
  import opened Wrappers

  /** An ASN.1 object identifier, as its sequence of arcs. */
  datatype Oid = Oid(arcs: seq<nat>)

  /** An X.509 certificate as read from a file, by its DER encoding. */
  datatype X509Certificate = X509Certificate(encoded: seq<bv8>)

  /** `CMPCertificate ::= CHOICE { x509v3PKCert Certificate, ... }` */
  datatype CMPCertificate = X509v3PKCert(encoded: seq<bv8>)

  /** The CA key update announcement (section 5.3.13 of RFC 4210). Each slot
      is a nullable reference in the handler, so each is an `Option` here. */
  datatype CAKeyUpdAnnContent = CAKeyUpdAnnContent(
    oldWithNew: Option<CMPCertificate>,
    newWithOld: Option<CMPCertificate>,
    newWithNew: Option<CMPCertificate>)

  /** The value carried by an `InfoTypeAndValue`: a key update announcement,
      or any other ASN.1 value, kept as its encoding. */
  datatype InfoValue =
    | KeyUpdAnnValue(ann: CAKeyUpdAnnContent)
    | OtherValue(encoded: seq<bv8>)

  /** `InfoTypeAndValue ::= SEQUENCE { infoType OBJECT IDENTIFIER, infoValue ANY OPTIONAL }` */
  datatype InfoTypeAndValue = InfoTypeAndValue(infoType: Oid, infoValue: Option<InfoValue>)

  /** `GenMsgContent ::= SEQUENCE OF InfoTypeAndValue` (section 5.3.19 of RFC 4210) */
  datatype GenMsgContent = GenMsgContent(items: seq<InfoTypeAndValue>)

  /** `GenRepContent ::= SEQUENCE OF InfoTypeAndValue` (section 5.3.20 of RFC 4210) */
  datatype GenRepContent = GenRepContent(items: seq<InfoTypeAndValue>)

  /** The two `PKIBody` choices of a general message exchange. */
  datatype PKIBodyContent =
    | Genm(genm: GenMsgContent)
    | Genp(genp: GenRepContent)

  /** A `PKIBody`: the choice tag and the content it selects. */
  datatype PKIBody = PKIBody(tagNo: nat, content: PKIBodyContent)

  /** `genm [21] GenMsgContent` */
  const TYPE_GEN_MSG: nat := 21
  /** `genp [22] GenRepContent` */
  const TYPE_GEN_REP: nat := 22

  /** The tag of a body agrees with the kind of content it carries. */
  predicate WellTagged(body: PKIBody) {
    match body.content
    case Genm(_) => body.tagNo == TYPE_GEN_MSG
    case Genp(_) => body.tagNo == TYPE_GEN_REP
  }
}
