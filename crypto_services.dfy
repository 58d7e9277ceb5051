/** The certificate utilities the handler calls. Their implementations (file
    and key store parsing, conversion of an X.509 certificate to its CMP form)
    are not part of this model, so they are supplied as functions. */
module CryptoServices {
  import opened Wrappers
  import opened CmpTypes

  /** `loadCertificatesFromFile` returns the certificates a named resource
      holds, or the exception it threw (kept as its message);
      `cmpCertificateFromCertificate` converts one certificate, or gives the
      exception it threw (kept as its message). */
  datatype CertUtility = CertUtility(
    loadCertificatesFromFile: string -> Result<seq<X509Certificate>, string>,
    cmpCertificateFromCertificate: X509Certificate -> Result<CMPCertificate, string>)
}
