/**
 * Private-key generation, encoding and public-key matching (pkg/util/pki/generate.go).
 * Key material is abstract: an RSA key is its size and modulus, an ECDSA key its curve
 * and public point; the random numbers that the crypto library would draw come in as
 * `KeyMaterial`, and a PEM block is its type together with the key its DER payload marshals.
 */
module Pki {
  import opened Outcomes
  import opened GoTime
  import opened Api

  const MinRSAKeySize: int := 2048
  const MaxRSAKeySize: int := 8192
  const ECCurve256: int := 256
  const ECCurve384: int := 384
  const ECCurve521: int := 521

  datatype Curve = P256 | P384 | P521

  datatype PrivateKey =
    | RSAPrivateKey(bits: int, modulus: int)
    | ECDSAPrivateKey(curve: Curve, x: int, y: int)
    | OtherPrivateKey   // any other crypto.PrivateKey

  datatype PublicKey =
    | RSAPublicKey(modulus: int)
    | ECDSAPublicKey(curve: Curve, x: int, y: int)
    | OtherPublicKey    // any other crypto.PublicKey

  /**
   * What `rsa.GenerateKey` / `ecdsa.GenerateKey` would draw from `rand.Reader`, and whether
   * reading it fails (the generator then returns that error).
   */
  datatype KeyMaterial = KeyMaterial(rsaModulus: int, ecX: int, ecY: int, readerFails: bool)

  /** A PEM block: its type header and, standing for the DER bytes, the key they encode. */
  datatype PemBlock = PemBlock(blockType: string, payload: PrivateKey)

  datatype X509Certificate = X509Certificate(notBefore: Instant, notAfter: Instant, publicKey: PublicKey)
  datatype X509CertificateRequest = X509CertificateRequest(publicKey: PublicKey)

  datatype PkiError =
    | UnsupportedKeyAlgorithm(algorithm: string)
    | WeakRSAKeySize(size: int)
    | RSAKeySizeTooBig(size: int)
    | UnsupportedECDSAKeySize(size: int)
    | UnknownKeyType
    | UnknownKeyEncoding(encoding: string)
    | PKCS8MarshalFailure
    | UnknownPrivateKeyType
    | UnrecognisedPublicKeyType
    | RandomSourceFailure   // the error `rand.Reader` gave the key generator

  predicate IsRSAOrECDSA(k: PrivateKey) { k.RSAPrivateKey? || k.ECDSAPrivateKey? }

  /**
   * GenerateRSAPrivateKey: sizes below 2048 are weak, above 8192 too big, the rest are generated
   * as asked unless the random source fails.
   */
  function GenerateRSAPrivateKey(keySize: int, m: KeyMaterial): (r: Result<PrivateKey, PkiError>)
    ensures r == Err(WeakRSAKeySize(keySize)) <==> keySize < MinRSAKeySize
    ensures r == Err(RSAKeySizeTooBig(keySize)) <==> keySize > MaxRSAKeySize
    ensures r == Err(RandomSourceFailure) <==> MinRSAKeySize <= keySize <= MaxRSAKeySize && m.readerFails
    ensures r.Ok? <==> MinRSAKeySize <= keySize <= MaxRSAKeySize && !m.readerFails
    ensures r.Ok? ==> r.value.RSAPrivateKey? && r.value.bits == keySize
  {
    if keySize < MinRSAKeySize then Err(WeakRSAKeySize(keySize))
    else if keySize > MaxRSAKeySize then Err(RSAKeySizeTooBig(keySize))
    else if m.readerFails then Err(RandomSourceFailure)
    else Ok(RSAPrivateKey(keySize, m.rsaModulus))
  }

  /** The curve of each supported ECDSA size. */
  function CurveBits(c: Curve): int {
    match c
    case P256 => ECCurve256
    case P384 => ECCurve384
    case P521 => ECCurve521
  }

  /**
   * GenerateECPrivateKey: exactly the sizes 256, 384 and 521, on the curve of that size,
   * unless the random source fails.
   */
  function GenerateECPrivateKey(keySize: int, m: KeyMaterial): (r: Result<PrivateKey, PkiError>)
    ensures r.Ok? <==> keySize in {ECCurve256, ECCurve384, ECCurve521} && !m.readerFails
    ensures r.Ok? ==> r.value.ECDSAPrivateKey? && CurveBits(r.value.curve) == keySize
    ensures keySize !in {ECCurve256, ECCurve384, ECCurve521} ==> r == Err(UnsupportedECDSAKeySize(keySize))
    ensures keySize in {ECCurve256, ECCurve384, ECCurve521} && m.readerFails ==> r == Err(RandomSourceFailure)
  {
    var curve :=
      if keySize == ECCurve256 then Some(P256)
      else if keySize == ECCurve384 then Some(P384)
      else if keySize == ECCurve521 then Some(P521)
      else None;
    if curve.None? then Err(UnsupportedECDSAKeySize(keySize))
    else if m.readerFails then Err(RandomSourceFailure)
    else Ok(ECDSAPrivateKey(curve.value, m.ecX, m.ecY))
  }

  /** The size asked for, or the algorithm's default when the spec's size is not positive. */
  function SizeOrDefault(keySize: int, default: int): (s: int)
    ensures keySize > 0 ==> s == keySize
    ensures keySize <= 0 ==> s == default
  {
    if keySize > 0 then keySize else default
  }

  /** GeneratePrivateKeyForCertificate: dispatch on the spec's algorithm ("" means RSA). */
  function GeneratePrivateKeyForCertificate(spec: CertificateSpec, m: KeyMaterial): (r: Result<PrivateKey, PkiError>)
    ensures spec.keyAlgorithm in {"", RSAKeyAlgorithm} ==> r == GenerateRSAPrivateKey(SizeOrDefault(spec.keySize, MinRSAKeySize), m)
    ensures spec.keyAlgorithm == ECDSAKeyAlgorithm ==> r == GenerateECPrivateKey(SizeOrDefault(spec.keySize, ECCurve256), m)
    ensures spec.keyAlgorithm !in {"", RSAKeyAlgorithm, ECDSAKeyAlgorithm} ==> r == Err(UnsupportedKeyAlgorithm(spec.keyAlgorithm))
  {
    if spec.keyAlgorithm == "" || spec.keyAlgorithm == RSAKeyAlgorithm then
      GenerateRSAPrivateKey(SizeOrDefault(spec.keySize, MinRSAKeySize), m)
    else if spec.keyAlgorithm == ECDSAKeyAlgorithm then
      GenerateECPrivateKey(SizeOrDefault(spec.keySize, ECCurve256), m)
    else
      Err(UnsupportedKeyAlgorithm(spec.keyAlgorithm))
  }

  /** Every key the generator returns is an RSA key of an allowed size or an ECDSA key on a supported curve. */
  lemma GeneratedKeysAreWithinPolicy(spec: CertificateSpec, m: KeyMaterial)
    ensures var r := GeneratePrivateKeyForCertificate(spec, m);
      r.Ok? ==> match r.value
        case RSAPrivateKey(bits, _) => MinRSAKeySize <= bits <= MaxRSAKeySize
        case ECDSAPrivateKey(curve, _, _) => CurveBits(curve) in {256, 384, 521}
        case OtherPrivateKey => false
  {
  }

  /**
   * `x509.MarshalPKCS8PrivateKey` followed by PEM encoding; the library marshals RSA and
   * ECDSA keys and fails for the other key types.
   */
  function EncodePKCS8PrivateKey(pk: PrivateKey): (r: Result<PemBlock, PkiError>)
    ensures r.Ok? <==> IsRSAOrECDSA(pk)
    ensures r.Ok? ==> r.value == PemBlock("PRIVATE KEY", pk)
  {
    if IsRSAOrECDSA(pk) then Ok(PemBlock("PRIVATE KEY", pk)) else Err(PKCS8MarshalFailure)
  }

  /** EncodePrivateKey: the encoding picks the form, then PKCS#1 picks the block type by key type. */
  function EncodePrivateKey(pk: PrivateKey, keyEncoding: string): (r: Result<PemBlock, PkiError>)
    ensures r.Ok? <==> keyEncoding in {"", PKCS1, PKCS8} && IsRSAOrECDSA(pk)
    ensures r.Ok? ==> r.value.payload == pk
    ensures keyEncoding !in {"", PKCS1, PKCS8} ==> r == Err(UnknownKeyEncoding(keyEncoding))
    ensures keyEncoding in {"", PKCS1} && pk.OtherPrivateKey? ==> r == Err(UnknownKeyType)
  {
    if keyEncoding == "" || keyEncoding == PKCS1 then
      match pk
      case RSAPrivateKey(_, _) => Ok(PemBlock("RSA PRIVATE KEY", pk))
      case ECDSAPrivateKey(_, _, _) => Ok(PemBlock("EC PRIVATE KEY", pk))
      case OtherPrivateKey => Err(UnknownKeyType)
    else if keyEncoding == PKCS8 then
      EncodePKCS8PrivateKey(pk)
    else
      Err(UnknownKeyEncoding(keyEncoding))
  }

  /** The PEM block type of every encoding/key-type pair that encodes. */
  lemma EncodedBlockTypes(pk: PrivateKey, keyEncoding: string)
    requires keyEncoding in {"", PKCS1, PKCS8} && IsRSAOrECDSA(pk)
    ensures EncodePrivateKey(pk, keyEncoding).value.blockType ==
      if keyEncoding == PKCS8 then "PRIVATE KEY"
      else if pk.RSAPrivateKey? then "RSA PRIVATE KEY"
      else "EC PRIVATE KEY"
  {
  }

  /** PublicKeyForPrivateKey: the public half of an RSA or ECDSA key; any other key type is an error. */
  function PublicKeyForPrivateKey(pk: PrivateKey): (r: Result<PublicKey, PkiError>)
    ensures r.Ok? <==> IsRSAOrECDSA(pk)
    ensures pk.RSAPrivateKey? ==> r == Ok(RSAPublicKey(pk.modulus))
    ensures pk.ECDSAPrivateKey? ==> r == Ok(ECDSAPublicKey(pk.curve, pk.x, pk.y))
    ensures r.Err? ==> r.error == UnknownPrivateKeyType
  {
    match pk
    case RSAPrivateKey(_, n) => Ok(RSAPublicKey(n))
    case ECDSAPrivateKey(c, x, y) => Ok(ECDSAPublicKey(c, x, y))
    case OtherPrivateKey => Err(UnknownPrivateKeyType)
  }

  /**
   * The reference meaning of "check is the counterpart of pub": same RSA modulus, or
   * same ECDSA point. The curve of an ECDSA key is not compared.
   */
  predicate KeysAgree(check: PublicKey, pub: PublicKey) {
    || (pub.RSAPublicKey? && check.RSAPublicKey? && check.modulus == pub.modulus)
    || (pub.ECDSAPublicKey? && check.ECDSAPublicKey? && check.x == pub.x && check.y == pub.y)
  }

  /**
   * The type switch shared by PublicKeyMatchesCertificate and PublicKeyMatchesCSR:
   * `pub` is the key in the certificate or CSR, `check` the key to test against it.
   * A check key of the wrong type is a mismatch, not an error.
   */
  function PublicKeysMatch(check: PublicKey, pub: PublicKey): (r: Result<bool, PkiError>)
    ensures r == if pub.OtherPublicKey? then Err(UnrecognisedPublicKeyType) else Ok(KeysAgree(check, pub))
  {
    match pub
    case RSAPublicKey(n) =>
      if !check.RSAPublicKey? then Ok(false)
      else if n != check.modulus then Ok(false)
      else Ok(true)
    case ECDSAPublicKey(_, x, y) =>
      if !check.ECDSAPublicKey? then Ok(false)
      else if x != check.x || y != check.y then Ok(false)
      else Ok(true)
    case OtherPublicKey => Err(UnrecognisedPublicKeyType)
  }

  function PublicKeyMatchesCertificate(check: PublicKey, crt: X509Certificate): (r: Result<bool, PkiError>)
    ensures r == if crt.publicKey.OtherPublicKey? then Err(UnrecognisedPublicKeyType) else Ok(KeysAgree(check, crt.publicKey))
  {
    PublicKeysMatch(check, crt.publicKey)
  }

  function PublicKeyMatchesCSR(check: PublicKey, csr: X509CertificateRequest): (r: Result<bool, PkiError>)
    ensures r == if csr.publicKey.OtherPublicKey? then Err(UnrecognisedPublicKeyType) else Ok(KeysAgree(check, csr.publicKey))
  {
    PublicKeysMatch(check, csr.publicKey)
  }

  /**
   * Only the embedded key's type can give an error: a check key of an unrecognised type is a
   * plain mismatch, although the doc comments of both functions promise an error for it.
   */
  lemma UnrecognisedCheckKeyIsAMismatch(crt: X509Certificate, csr: X509CertificateRequest)
    requires !crt.publicKey.OtherPublicKey? && !csr.publicKey.OtherPublicKey?
    ensures PublicKeyMatchesCertificate(OtherPublicKey, crt) == Ok(false)
    ensures PublicKeyMatchesCSR(OtherPublicKey, csr) == Ok(false)
  {
  }

  /** A certificate and a CSR that carry the same public key give the same verdict for every check key. */
  lemma MatchesCSRAgreesWithCertificate(check: PublicKey, crt: X509Certificate, csr: X509CertificateRequest)
    requires crt.publicKey == csr.publicKey
    ensures PublicKeyMatchesCSR(check, csr) == PublicKeyMatchesCertificate(check, crt)
  {
  }

  /** Matching is reflexive: the public half of a key matches a certificate and a CSR made for that key. */
  lemma PublicKeyMatchesItself(pk: PrivateKey, crt: X509Certificate, csr: X509CertificateRequest)
    requires PublicKeyForPrivateKey(pk).Ok?
    requires crt.publicKey == PublicKeyForPrivateKey(pk).value
    requires csr.publicKey == crt.publicKey
    ensures PublicKeyMatchesCertificate(PublicKeyForPrivateKey(pk).value, crt) == Ok(true)
    ensures PublicKeyMatchesCSR(PublicKeyForPrivateKey(pk).value, csr) == Ok(true)
  {
  }

  /**
   * A generated key always has a public half, which matches a certificate issued for it,
   * and it encodes under every known encoding.
   */
  lemma GeneratedKeyIsUsable(spec: CertificateSpec, m: KeyMaterial, crt: X509Certificate, keyEncoding: string)
    requires GeneratePrivateKeyForCertificate(spec, m).Ok?
    requires keyEncoding in {"", PKCS1, PKCS8}
    ensures var pk := GeneratePrivateKeyForCertificate(spec, m).value;
      && PublicKeyForPrivateKey(pk).Ok?
      && PublicKeyMatchesCertificate(PublicKeyForPrivateKey(pk).value, crt.(publicKey := PublicKeyForPrivateKey(pk).value)) == Ok(true)
      && EncodePrivateKey(pk, keyEncoding).Ok?
  {
    GeneratedKeysAreWithinPolicy(spec, m);
  }
}
