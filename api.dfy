/**
 * The shapes of the cert-manager v1alpha1 resources that the modelled code reads.
 * Only the fields the core looks at are kept.
 */
module Api {
  import opened Outcomes
  import opened GoTime

  /** Values of `KeyAlgorithm` and `KeyEncoding` (string types in the API). */
  const RSAKeyAlgorithm: string := "rsa"
  const ECDSAKeyAlgorithm: string := "ecdsa"
  const PKCS1: string := "pkcs1"
  const PKCS8: string := "pkcs8"

  datatype CertificateSpec = CertificateSpec(
    secretName: string,
    organization: seq<string>,
    duration: Option<Duration>,     // Spec.Duration, nil when unset
    renewBefore: Option<Duration>,  // Spec.RenewBefore, nil when unset
    keySize: int,
    keyAlgorithm: string,
    keyEncoding: string)

  datatype Certificate = Certificate(namespace: string, name: string, spec: CertificateSpec)

  /**
   * A `GenericIssuer` by its dynamic type: `*Issuer`, `*ClusterIssuer`, or any other
   * implementation of the interface; each carries its object metadata's namespace.
   */
  datatype GenericIssuer =
    | Issuer(namespace: string)
    | ClusterIssuer(namespace: string)
    | OtherIssuer(namespace: string)
}
