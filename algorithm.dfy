/**
 * Key algorithms of the older API (src/algorithm.rs): the same closed enum
 * under the name `SecKeyAlgorithm`, with its own copy of the table.
 */
module SecKeyAlgorithms {
  import opened Ffi
  import K = KeyAlgorithms

  /** `SecKeyAlgorithm`: one variant per `kSecKeyAlgorithm*` constant, named by its suffix. */
  datatype SecKeyAlgorithm =
    ECIESEncryptionStandardX963SHA1AESGCM
    | ECIESEncryptionStandardX963SHA224AESGCM
    | ECIESEncryptionStandardX963SHA256AESGCM
    | ECIESEncryptionStandardX963SHA384AESGCM
    | ECIESEncryptionStandardX963SHA512AESGCM
    | ECIESEncryptionStandardVariableIVX963SHA224AESGCM
    | ECIESEncryptionStandardVariableIVX963SHA256AESGCM
    | ECIESEncryptionStandardVariableIVX963SHA384AESGCM
    | ECIESEncryptionStandardVariableIVX963SHA512AESGCM
    | ECIESEncryptionCofactorVariableIVX963SHA224AESGCM
    | ECIESEncryptionCofactorVariableIVX963SHA256AESGCM
    | ECIESEncryptionCofactorVariableIVX963SHA384AESGCM
    | ECIESEncryptionCofactorVariableIVX963SHA512AESGCM
    | ECIESEncryptionCofactorX963SHA1AESGCM
    | ECIESEncryptionCofactorX963SHA224AESGCM
    | ECIESEncryptionCofactorX963SHA256AESGCM
    | ECIESEncryptionCofactorX963SHA384AESGCM
    | ECIESEncryptionCofactorX963SHA512AESGCM
    | ECDSASignatureRFC4754
    | ECDSASignatureDigestX962
    | ECDSASignatureDigestX962SHA1
    | ECDSASignatureDigestX962SHA224
    | ECDSASignatureDigestX962SHA256
    | ECDSASignatureDigestX962SHA384
    | ECDSASignatureDigestX962SHA512
    | ECDSASignatureMessageX962SHA1
    | ECDSASignatureMessageX962SHA224
    | ECDSASignatureMessageX962SHA256
    | ECDSASignatureMessageX962SHA384
    | ECDSASignatureMessageX962SHA512
    | ECDHKeyExchangeCofactor
    | ECDHKeyExchangeStandard
    | ECDHKeyExchangeCofactorX963SHA1
    | ECDHKeyExchangeStandardX963SHA1
    | ECDHKeyExchangeCofactorX963SHA224
    | ECDHKeyExchangeCofactorX963SHA256
    | ECDHKeyExchangeCofactorX963SHA384
    | ECDHKeyExchangeCofactorX963SHA512
    | ECDHKeyExchangeStandardX963SHA224
    | ECDHKeyExchangeStandardX963SHA256
    | ECDHKeyExchangeStandardX963SHA384
    | ECDHKeyExchangeStandardX963SHA512
    | RSAEncryptionRaw
    | RSAEncryptionPKCS1
    | RSAEncryptionOAEPSHA1
    | RSAEncryptionOAEPSHA224
    | RSAEncryptionOAEPSHA256
    | RSAEncryptionOAEPSHA384
    | RSAEncryptionOAEPSHA512
    | RSAEncryptionOAEPSHA1AESGCM
    | RSAEncryptionOAEPSHA224AESGCM
    | RSAEncryptionOAEPSHA256AESGCM
    | RSAEncryptionOAEPSHA384AESGCM
    | RSAEncryptionOAEPSHA512AESGCM
    | RSASignatureRaw
    | RSASignatureDigestPKCS1v15Raw
    | RSASignatureDigestPKCS1v15SHA1
    | RSASignatureDigestPKCS1v15SHA224
    | RSASignatureDigestPKCS1v15SHA256
    | RSASignatureDigestPKCS1v15SHA384
    | RSASignatureDigestPKCS1v15SHA512
    | RSASignatureMessagePKCS1v15SHA1
    | RSASignatureMessagePKCS1v15SHA224
    | RSASignatureMessagePKCS1v15SHA256
    | RSASignatureMessagePKCS1v15SHA384
    | RSASignatureMessagePKCS1v15SHA512
    | RSASignatureDigestPSSSHA1
    | RSASignatureDigestPSSSHA224
    | RSASignatureDigestPSSSHA256
    | RSASignatureDigestPSSSHA384
    | RSASignatureDigestPSSSHA512
    | RSASignatureMessagePSSSHA1
    | RSASignatureMessagePSSSHA224
    | RSASignatureMessagePSSSHA256
    | RSASignatureMessagePSSSHA384
    | RSASignatureMessagePSSSHA512

  /** `SecKeyAlgorithm::as_CFString`: each variant's namesake constant. */
  function AsCFString(a: SecKeyAlgorithm): AlgorithmConst
  {
    match a
    case ECIESEncryptionStandardX963SHA1AESGCM => kSecKeyAlgorithmECIESEncryptionStandardX963SHA1AESGCM
    case ECIESEncryptionStandardX963SHA224AESGCM => kSecKeyAlgorithmECIESEncryptionStandardX963SHA224AESGCM
    case ECIESEncryptionStandardX963SHA256AESGCM => kSecKeyAlgorithmECIESEncryptionStandardX963SHA256AESGCM
    case ECIESEncryptionStandardX963SHA384AESGCM => kSecKeyAlgorithmECIESEncryptionStandardX963SHA384AESGCM
    case ECIESEncryptionStandardX963SHA512AESGCM => kSecKeyAlgorithmECIESEncryptionStandardX963SHA512AESGCM
    case ECIESEncryptionStandardVariableIVX963SHA224AESGCM => kSecKeyAlgorithmECIESEncryptionStandardVariableIVX963SHA224AESGCM
    case ECIESEncryptionStandardVariableIVX963SHA256AESGCM => kSecKeyAlgorithmECIESEncryptionStandardVariableIVX963SHA256AESGCM
    case ECIESEncryptionStandardVariableIVX963SHA384AESGCM => kSecKeyAlgorithmECIESEncryptionStandardVariableIVX963SHA384AESGCM
    case ECIESEncryptionStandardVariableIVX963SHA512AESGCM => kSecKeyAlgorithmECIESEncryptionStandardVariableIVX963SHA512AESGCM
    case ECIESEncryptionCofactorVariableIVX963SHA224AESGCM => kSecKeyAlgorithmECIESEncryptionCofactorVariableIVX963SHA224AESGCM
    case ECIESEncryptionCofactorVariableIVX963SHA256AESGCM => kSecKeyAlgorithmECIESEncryptionCofactorVariableIVX963SHA256AESGCM
    case ECIESEncryptionCofactorVariableIVX963SHA384AESGCM => kSecKeyAlgorithmECIESEncryptionCofactorVariableIVX963SHA384AESGCM
    case ECIESEncryptionCofactorVariableIVX963SHA512AESGCM => kSecKeyAlgorithmECIESEncryptionCofactorVariableIVX963SHA512AESGCM
    case ECIESEncryptionCofactorX963SHA1AESGCM => kSecKeyAlgorithmECIESEncryptionCofactorX963SHA1AESGCM
    case ECIESEncryptionCofactorX963SHA224AESGCM => kSecKeyAlgorithmECIESEncryptionCofactorX963SHA224AESGCM
    case ECIESEncryptionCofactorX963SHA256AESGCM => kSecKeyAlgorithmECIESEncryptionCofactorX963SHA256AESGCM
    case ECIESEncryptionCofactorX963SHA384AESGCM => kSecKeyAlgorithmECIESEncryptionCofactorX963SHA384AESGCM
    case ECIESEncryptionCofactorX963SHA512AESGCM => kSecKeyAlgorithmECIESEncryptionCofactorX963SHA512AESGCM
    case ECDSASignatureRFC4754 => kSecKeyAlgorithmECDSASignatureRFC4754
    case ECDSASignatureDigestX962 => kSecKeyAlgorithmECDSASignatureDigestX962
    case ECDSASignatureDigestX962SHA1 => kSecKeyAlgorithmECDSASignatureDigestX962SHA1
    case ECDSASignatureDigestX962SHA224 => kSecKeyAlgorithmECDSASignatureDigestX962SHA224
    case ECDSASignatureDigestX962SHA256 => kSecKeyAlgorithmECDSASignatureDigestX962SHA256
    case ECDSASignatureDigestX962SHA384 => kSecKeyAlgorithmECDSASignatureDigestX962SHA384
    case ECDSASignatureDigestX962SHA512 => kSecKeyAlgorithmECDSASignatureDigestX962SHA512
    case ECDSASignatureMessageX962SHA1 => kSecKeyAlgorithmECDSASignatureMessageX962SHA1
    case ECDSASignatureMessageX962SHA224 => kSecKeyAlgorithmECDSASignatureMessageX962SHA224
    case ECDSASignatureMessageX962SHA256 => kSecKeyAlgorithmECDSASignatureMessageX962SHA256
    case ECDSASignatureMessageX962SHA384 => kSecKeyAlgorithmECDSASignatureMessageX962SHA384
    case ECDSASignatureMessageX962SHA512 => kSecKeyAlgorithmECDSASignatureMessageX962SHA512
    case ECDHKeyExchangeCofactor => kSecKeyAlgorithmECDHKeyExchangeCofactor
    case ECDHKeyExchangeStandard => kSecKeyAlgorithmECDHKeyExchangeStandard
    case ECDHKeyExchangeCofactorX963SHA1 => kSecKeyAlgorithmECDHKeyExchangeCofactorX963SHA1
    case ECDHKeyExchangeStandardX963SHA1 => kSecKeyAlgorithmECDHKeyExchangeStandardX963SHA1
    case ECDHKeyExchangeCofactorX963SHA224 => kSecKeyAlgorithmECDHKeyExchangeCofactorX963SHA224
    case ECDHKeyExchangeCofactorX963SHA256 => kSecKeyAlgorithmECDHKeyExchangeCofactorX963SHA256
    case ECDHKeyExchangeCofactorX963SHA384 => kSecKeyAlgorithmECDHKeyExchangeCofactorX963SHA384
    case ECDHKeyExchangeCofactorX963SHA512 => kSecKeyAlgorithmECDHKeyExchangeCofactorX963SHA512
    case ECDHKeyExchangeStandardX963SHA224 => kSecKeyAlgorithmECDHKeyExchangeStandardX963SHA224
    case ECDHKeyExchangeStandardX963SHA256 => kSecKeyAlgorithmECDHKeyExchangeStandardX963SHA256
    case ECDHKeyExchangeStandardX963SHA384 => kSecKeyAlgorithmECDHKeyExchangeStandardX963SHA384
    case ECDHKeyExchangeStandardX963SHA512 => kSecKeyAlgorithmECDHKeyExchangeStandardX963SHA512
    case RSAEncryptionRaw => kSecKeyAlgorithmRSAEncryptionRaw
    case RSAEncryptionPKCS1 => kSecKeyAlgorithmRSAEncryptionPKCS1
    case RSAEncryptionOAEPSHA1 => kSecKeyAlgorithmRSAEncryptionOAEPSHA1
    case RSAEncryptionOAEPSHA224 => kSecKeyAlgorithmRSAEncryptionOAEPSHA224
    case RSAEncryptionOAEPSHA256 => kSecKeyAlgorithmRSAEncryptionOAEPSHA256
    case RSAEncryptionOAEPSHA384 => kSecKeyAlgorithmRSAEncryptionOAEPSHA384
    case RSAEncryptionOAEPSHA512 => kSecKeyAlgorithmRSAEncryptionOAEPSHA512
    case RSAEncryptionOAEPSHA1AESGCM => kSecKeyAlgorithmRSAEncryptionOAEPSHA1AESGCM
    case RSAEncryptionOAEPSHA224AESGCM => kSecKeyAlgorithmRSAEncryptionOAEPSHA224AESGCM
    case RSAEncryptionOAEPSHA256AESGCM => kSecKeyAlgorithmRSAEncryptionOAEPSHA256AESGCM
    case RSAEncryptionOAEPSHA384AESGCM => kSecKeyAlgorithmRSAEncryptionOAEPSHA384AESGCM
    case RSAEncryptionOAEPSHA512AESGCM => kSecKeyAlgorithmRSAEncryptionOAEPSHA512AESGCM
    case RSASignatureRaw => kSecKeyAlgorithmRSASignatureRaw
    case RSASignatureDigestPKCS1v15Raw => kSecKeyAlgorithmRSASignatureDigestPKCS1v15Raw
    case RSASignatureDigestPKCS1v15SHA1 => kSecKeyAlgorithmRSASignatureDigestPKCS1v15SHA1
    case RSASignatureDigestPKCS1v15SHA224 => kSecKeyAlgorithmRSASignatureDigestPKCS1v15SHA224
    case RSASignatureDigestPKCS1v15SHA256 => kSecKeyAlgorithmRSASignatureDigestPKCS1v15SHA256
    case RSASignatureDigestPKCS1v15SHA384 => kSecKeyAlgorithmRSASignatureDigestPKCS1v15SHA384
    case RSASignatureDigestPKCS1v15SHA512 => kSecKeyAlgorithmRSASignatureDigestPKCS1v15SHA512
    case RSASignatureMessagePKCS1v15SHA1 => kSecKeyAlgorithmRSASignatureMessagePKCS1v15SHA1
    case RSASignatureMessagePKCS1v15SHA224 => kSecKeyAlgorithmRSASignatureMessagePKCS1v15SHA224
    case RSASignatureMessagePKCS1v15SHA256 => kSecKeyAlgorithmRSASignatureMessagePKCS1v15SHA256
    case RSASignatureMessagePKCS1v15SHA384 => kSecKeyAlgorithmRSASignatureMessagePKCS1v15SHA384
    case RSASignatureMessagePKCS1v15SHA512 => kSecKeyAlgorithmRSASignatureMessagePKCS1v15SHA512
    case RSASignatureDigestPSSSHA1 => kSecKeyAlgorithmRSASignatureDigestPSSSHA1
    case RSASignatureDigestPSSSHA224 => kSecKeyAlgorithmRSASignatureDigestPSSSHA224
    case RSASignatureDigestPSSSHA256 => kSecKeyAlgorithmRSASignatureDigestPSSSHA256
    case RSASignatureDigestPSSSHA384 => kSecKeyAlgorithmRSASignatureDigestPSSSHA384
    case RSASignatureDigestPSSSHA512 => kSecKeyAlgorithmRSASignatureDigestPSSSHA512
    case RSASignatureMessagePSSSHA1 => kSecKeyAlgorithmRSASignatureMessagePSSSHA1
    case RSASignatureMessagePSSSHA224 => kSecKeyAlgorithmRSASignatureMessagePSSSHA224
    case RSASignatureMessagePSSSHA256 => kSecKeyAlgorithmRSASignatureMessagePSSSHA256
    case RSASignatureMessagePSSSHA384 => kSecKeyAlgorithmRSASignatureMessagePSSSHA384
    case RSASignatureMessagePSSSHA512 => kSecKeyAlgorithmRSASignatureMessagePSSSHA512
  }

  /** The variant of the newer enum with the same name. */
  function Namesake(a: SecKeyAlgorithm): K.KeyAlgorithm
  {
    match a
    case ECIESEncryptionStandardX963SHA1AESGCM => K.ECIESEncryptionStandardX963SHA1AESGCM
    case ECIESEncryptionStandardX963SHA224AESGCM => K.ECIESEncryptionStandardX963SHA224AESGCM
    case ECIESEncryptionStandardX963SHA256AESGCM => K.ECIESEncryptionStandardX963SHA256AESGCM
    case ECIESEncryptionStandardX963SHA384AESGCM => K.ECIESEncryptionStandardX963SHA384AESGCM
    case ECIESEncryptionStandardX963SHA512AESGCM => K.ECIESEncryptionStandardX963SHA512AESGCM
    case ECIESEncryptionStandardVariableIVX963SHA224AESGCM => K.ECIESEncryptionStandardVariableIVX963SHA224AESGCM
    case ECIESEncryptionStandardVariableIVX963SHA256AESGCM => K.ECIESEncryptionStandardVariableIVX963SHA256AESGCM
    case ECIESEncryptionStandardVariableIVX963SHA384AESGCM => K.ECIESEncryptionStandardVariableIVX963SHA384AESGCM
    case ECIESEncryptionStandardVariableIVX963SHA512AESGCM => K.ECIESEncryptionStandardVariableIVX963SHA512AESGCM
    case ECIESEncryptionCofactorVariableIVX963SHA224AESGCM => K.ECIESEncryptionCofactorVariableIVX963SHA224AESGCM
    case ECIESEncryptionCofactorVariableIVX963SHA256AESGCM => K.ECIESEncryptionCofactorVariableIVX963SHA256AESGCM
    case ECIESEncryptionCofactorVariableIVX963SHA384AESGCM => K.ECIESEncryptionCofactorVariableIVX963SHA384AESGCM
    case ECIESEncryptionCofactorVariableIVX963SHA512AESGCM => K.ECIESEncryptionCofactorVariableIVX963SHA512AESGCM
    case ECIESEncryptionCofactorX963SHA1AESGCM => K.ECIESEncryptionCofactorX963SHA1AESGCM
    case ECIESEncryptionCofactorX963SHA224AESGCM => K.ECIESEncryptionCofactorX963SHA224AESGCM
    case ECIESEncryptionCofactorX963SHA256AESGCM => K.ECIESEncryptionCofactorX963SHA256AESGCM
    case ECIESEncryptionCofactorX963SHA384AESGCM => K.ECIESEncryptionCofactorX963SHA384AESGCM
    case ECIESEncryptionCofactorX963SHA512AESGCM => K.ECIESEncryptionCofactorX963SHA512AESGCM
    case ECDSASignatureRFC4754 => K.ECDSASignatureRFC4754
    case ECDSASignatureDigestX962 => K.ECDSASignatureDigestX962
    case ECDSASignatureDigestX962SHA1 => K.ECDSASignatureDigestX962SHA1
    case ECDSASignatureDigestX962SHA224 => K.ECDSASignatureDigestX962SHA224
    case ECDSASignatureDigestX962SHA256 => K.ECDSASignatureDigestX962SHA256
    case ECDSASignatureDigestX962SHA384 => K.ECDSASignatureDigestX962SHA384
    case ECDSASignatureDigestX962SHA512 => K.ECDSASignatureDigestX962SHA512
    case ECDSASignatureMessageX962SHA1 => K.ECDSASignatureMessageX962SHA1
    case ECDSASignatureMessageX962SHA224 => K.ECDSASignatureMessageX962SHA224
    case ECDSASignatureMessageX962SHA256 => K.ECDSASignatureMessageX962SHA256
    case ECDSASignatureMessageX962SHA384 => K.ECDSASignatureMessageX962SHA384
    case ECDSASignatureMessageX962SHA512 => K.ECDSASignatureMessageX962SHA512
    case ECDHKeyExchangeCofactor => K.ECDHKeyExchangeCofactor
    case ECDHKeyExchangeStandard => K.ECDHKeyExchangeStandard
    case ECDHKeyExchangeCofactorX963SHA1 => K.ECDHKeyExchangeCofactorX963SHA1
    case ECDHKeyExchangeStandardX963SHA1 => K.ECDHKeyExchangeStandardX963SHA1
    case ECDHKeyExchangeCofactorX963SHA224 => K.ECDHKeyExchangeCofactorX963SHA224
    case ECDHKeyExchangeCofactorX963SHA256 => K.ECDHKeyExchangeCofactorX963SHA256
    case ECDHKeyExchangeCofactorX963SHA384 => K.ECDHKeyExchangeCofactorX963SHA384
    case ECDHKeyExchangeCofactorX963SHA512 => K.ECDHKeyExchangeCofactorX963SHA512
    case ECDHKeyExchangeStandardX963SHA224 => K.ECDHKeyExchangeStandardX963SHA224
    case ECDHKeyExchangeStandardX963SHA256 => K.ECDHKeyExchangeStandardX963SHA256
    case ECDHKeyExchangeStandardX963SHA384 => K.ECDHKeyExchangeStandardX963SHA384
    case ECDHKeyExchangeStandardX963SHA512 => K.ECDHKeyExchangeStandardX963SHA512
    case RSAEncryptionRaw => K.RSAEncryptionRaw
    case RSAEncryptionPKCS1 => K.RSAEncryptionPKCS1
    case RSAEncryptionOAEPSHA1 => K.RSAEncryptionOAEPSHA1
    case RSAEncryptionOAEPSHA224 => K.RSAEncryptionOAEPSHA224
    case RSAEncryptionOAEPSHA256 => K.RSAEncryptionOAEPSHA256
    case RSAEncryptionOAEPSHA384 => K.RSAEncryptionOAEPSHA384
    case RSAEncryptionOAEPSHA512 => K.RSAEncryptionOAEPSHA512
    case RSAEncryptionOAEPSHA1AESGCM => K.RSAEncryptionOAEPSHA1AESGCM
    case RSAEncryptionOAEPSHA224AESGCM => K.RSAEncryptionOAEPSHA224AESGCM
    case RSAEncryptionOAEPSHA256AESGCM => K.RSAEncryptionOAEPSHA256AESGCM
    case RSAEncryptionOAEPSHA384AESGCM => K.RSAEncryptionOAEPSHA384AESGCM
    case RSAEncryptionOAEPSHA512AESGCM => K.RSAEncryptionOAEPSHA512AESGCM
    case RSASignatureRaw => K.RSASignatureRaw
    case RSASignatureDigestPKCS1v15Raw => K.RSASignatureDigestPKCS1v15Raw
    case RSASignatureDigestPKCS1v15SHA1 => K.RSASignatureDigestPKCS1v15SHA1
    case RSASignatureDigestPKCS1v15SHA224 => K.RSASignatureDigestPKCS1v15SHA224
    case RSASignatureDigestPKCS1v15SHA256 => K.RSASignatureDigestPKCS1v15SHA256
    case RSASignatureDigestPKCS1v15SHA384 => K.RSASignatureDigestPKCS1v15SHA384
    case RSASignatureDigestPKCS1v15SHA512 => K.RSASignatureDigestPKCS1v15SHA512
    case RSASignatureMessagePKCS1v15SHA1 => K.RSASignatureMessagePKCS1v15SHA1
    case RSASignatureMessagePKCS1v15SHA224 => K.RSASignatureMessagePKCS1v15SHA224
    case RSASignatureMessagePKCS1v15SHA256 => K.RSASignatureMessagePKCS1v15SHA256
    case RSASignatureMessagePKCS1v15SHA384 => K.RSASignatureMessagePKCS1v15SHA384
    case RSASignatureMessagePKCS1v15SHA512 => K.RSASignatureMessagePKCS1v15SHA512
    case RSASignatureDigestPSSSHA1 => K.RSASignatureDigestPSSSHA1
    case RSASignatureDigestPSSSHA224 => K.RSASignatureDigestPSSSHA224
    case RSASignatureDigestPSSSHA256 => K.RSASignatureDigestPSSSHA256
    case RSASignatureDigestPSSSHA384 => K.RSASignatureDigestPSSSHA384
    case RSASignatureDigestPSSSHA512 => K.RSASignatureDigestPSSSHA512
    case RSASignatureMessagePSSSHA1 => K.RSASignatureMessagePSSSHA1
    case RSASignatureMessagePSSSHA224 => K.RSASignatureMessagePSSSHA224
    case RSASignatureMessagePSSSHA256 => K.RSASignatureMessagePSSSHA256
    case RSASignatureMessagePSSSHA384 => K.RSASignatureMessagePSSSHA384
    case RSASignatureMessagePSSSHA512 => K.RSASignatureMessagePSSSHA512
  }

  /** The variant a `kSecKeyAlgorithm*` constant names: the inverse of this table. */
  function VariantOf(c: AlgorithmConst): SecKeyAlgorithm
  {
    match c
    case kSecKeyAlgorithmECIESEncryptionStandardX963SHA1AESGCM => ECIESEncryptionStandardX963SHA1AESGCM
    case kSecKeyAlgorithmECIESEncryptionStandardX963SHA224AESGCM => ECIESEncryptionStandardX963SHA224AESGCM
    case kSecKeyAlgorithmECIESEncryptionStandardX963SHA256AESGCM => ECIESEncryptionStandardX963SHA256AESGCM
    case kSecKeyAlgorithmECIESEncryptionStandardX963SHA384AESGCM => ECIESEncryptionStandardX963SHA384AESGCM
    case kSecKeyAlgorithmECIESEncryptionStandardX963SHA512AESGCM => ECIESEncryptionStandardX963SHA512AESGCM
    case kSecKeyAlgorithmECIESEncryptionStandardVariableIVX963SHA224AESGCM => ECIESEncryptionStandardVariableIVX963SHA224AESGCM
    case kSecKeyAlgorithmECIESEncryptionStandardVariableIVX963SHA256AESGCM => ECIESEncryptionStandardVariableIVX963SHA256AESGCM
    case kSecKeyAlgorithmECIESEncryptionStandardVariableIVX963SHA384AESGCM => ECIESEncryptionStandardVariableIVX963SHA384AESGCM
    case kSecKeyAlgorithmECIESEncryptionStandardVariableIVX963SHA512AESGCM => ECIESEncryptionStandardVariableIVX963SHA512AESGCM
    case kSecKeyAlgorithmECIESEncryptionCofactorVariableIVX963SHA224AESGCM => ECIESEncryptionCofactorVariableIVX963SHA224AESGCM
    case kSecKeyAlgorithmECIESEncryptionCofactorVariableIVX963SHA256AESGCM => ECIESEncryptionCofactorVariableIVX963SHA256AESGCM
    case kSecKeyAlgorithmECIESEncryptionCofactorVariableIVX963SHA384AESGCM => ECIESEncryptionCofactorVariableIVX963SHA384AESGCM
    case kSecKeyAlgorithmECIESEncryptionCofactorVariableIVX963SHA512AESGCM => ECIESEncryptionCofactorVariableIVX963SHA512AESGCM
    case kSecKeyAlgorithmECIESEncryptionCofactorX963SHA1AESGCM => ECIESEncryptionCofactorX963SHA1AESGCM
    case kSecKeyAlgorithmECIESEncryptionCofactorX963SHA224AESGCM => ECIESEncryptionCofactorX963SHA224AESGCM
    case kSecKeyAlgorithmECIESEncryptionCofactorX963SHA256AESGCM => ECIESEncryptionCofactorX963SHA256AESGCM
    case kSecKeyAlgorithmECIESEncryptionCofactorX963SHA384AESGCM => ECIESEncryptionCofactorX963SHA384AESGCM
    case kSecKeyAlgorithmECIESEncryptionCofactorX963SHA512AESGCM => ECIESEncryptionCofactorX963SHA512AESGCM
    case kSecKeyAlgorithmECDSASignatureRFC4754 => ECDSASignatureRFC4754
    case kSecKeyAlgorithmECDSASignatureDigestX962 => ECDSASignatureDigestX962
    case kSecKeyAlgorithmECDSASignatureDigestX962SHA1 => ECDSASignatureDigestX962SHA1
    case kSecKeyAlgorithmECDSASignatureDigestX962SHA224 => ECDSASignatureDigestX962SHA224
    case kSecKeyAlgorithmECDSASignatureDigestX962SHA256 => ECDSASignatureDigestX962SHA256
    case kSecKeyAlgorithmECDSASignatureDigestX962SHA384 => ECDSASignatureDigestX962SHA384
    case kSecKeyAlgorithmECDSASignatureDigestX962SHA512 => ECDSASignatureDigestX962SHA512
    case kSecKeyAlgorithmECDSASignatureMessageX962SHA1 => ECDSASignatureMessageX962SHA1
    case kSecKeyAlgorithmECDSASignatureMessageX962SHA224 => ECDSASignatureMessageX962SHA224
    case kSecKeyAlgorithmECDSASignatureMessageX962SHA256 => ECDSASignatureMessageX962SHA256
    case kSecKeyAlgorithmECDSASignatureMessageX962SHA384 => ECDSASignatureMessageX962SHA384
    case kSecKeyAlgorithmECDSASignatureMessageX962SHA512 => ECDSASignatureMessageX962SHA512
    case kSecKeyAlgorithmECDHKeyExchangeCofactor => ECDHKeyExchangeCofactor
    case kSecKeyAlgorithmECDHKeyExchangeStandard => ECDHKeyExchangeStandard
    case kSecKeyAlgorithmECDHKeyExchangeCofactorX963SHA1 => ECDHKeyExchangeCofactorX963SHA1
    case kSecKeyAlgorithmECDHKeyExchangeStandardX963SHA1 => ECDHKeyExchangeStandardX963SHA1
    case kSecKeyAlgorithmECDHKeyExchangeCofactorX963SHA224 => ECDHKeyExchangeCofactorX963SHA224
    case kSecKeyAlgorithmECDHKeyExchangeCofactorX963SHA256 => ECDHKeyExchangeCofactorX963SHA256
    case kSecKeyAlgorithmECDHKeyExchangeCofactorX963SHA384 => ECDHKeyExchangeCofactorX963SHA384
    case kSecKeyAlgorithmECDHKeyExchangeCofactorX963SHA512 => ECDHKeyExchangeCofactorX963SHA512
    case kSecKeyAlgorithmECDHKeyExchangeStandardX963SHA224 => ECDHKeyExchangeStandardX963SHA224
    case kSecKeyAlgorithmECDHKeyExchangeStandardX963SHA256 => ECDHKeyExchangeStandardX963SHA256
    case kSecKeyAlgorithmECDHKeyExchangeStandardX963SHA384 => ECDHKeyExchangeStandardX963SHA384
    case kSecKeyAlgorithmECDHKeyExchangeStandardX963SHA512 => ECDHKeyExchangeStandardX963SHA512
    case kSecKeyAlgorithmRSAEncryptionRaw => RSAEncryptionRaw
    case kSecKeyAlgorithmRSAEncryptionPKCS1 => RSAEncryptionPKCS1
    case kSecKeyAlgorithmRSAEncryptionOAEPSHA1 => RSAEncryptionOAEPSHA1
    case kSecKeyAlgorithmRSAEncryptionOAEPSHA224 => RSAEncryptionOAEPSHA224
    case kSecKeyAlgorithmRSAEncryptionOAEPSHA256 => RSAEncryptionOAEPSHA256
    case kSecKeyAlgorithmRSAEncryptionOAEPSHA384 => RSAEncryptionOAEPSHA384
    case kSecKeyAlgorithmRSAEncryptionOAEPSHA512 => RSAEncryptionOAEPSHA512
    case kSecKeyAlgorithmRSAEncryptionOAEPSHA1AESGCM => RSAEncryptionOAEPSHA1AESGCM
    case kSecKeyAlgorithmRSAEncryptionOAEPSHA224AESGCM => RSAEncryptionOAEPSHA224AESGCM
    case kSecKeyAlgorithmRSAEncryptionOAEPSHA256AESGCM => RSAEncryptionOAEPSHA256AESGCM
    case kSecKeyAlgorithmRSAEncryptionOAEPSHA384AESGCM => RSAEncryptionOAEPSHA384AESGCM
    case kSecKeyAlgorithmRSAEncryptionOAEPSHA512AESGCM => RSAEncryptionOAEPSHA512AESGCM
    case kSecKeyAlgorithmRSASignatureRaw => RSASignatureRaw
    case kSecKeyAlgorithmRSASignatureDigestPKCS1v15Raw => RSASignatureDigestPKCS1v15Raw
    case kSecKeyAlgorithmRSASignatureDigestPKCS1v15SHA1 => RSASignatureDigestPKCS1v15SHA1
    case kSecKeyAlgorithmRSASignatureDigestPKCS1v15SHA224 => RSASignatureDigestPKCS1v15SHA224
    case kSecKeyAlgorithmRSASignatureDigestPKCS1v15SHA256 => RSASignatureDigestPKCS1v15SHA256
    case kSecKeyAlgorithmRSASignatureDigestPKCS1v15SHA384 => RSASignatureDigestPKCS1v15SHA384
    case kSecKeyAlgorithmRSASignatureDigestPKCS1v15SHA512 => RSASignatureDigestPKCS1v15SHA512
    case kSecKeyAlgorithmRSASignatureMessagePKCS1v15SHA1 => RSASignatureMessagePKCS1v15SHA1
    case kSecKeyAlgorithmRSASignatureMessagePKCS1v15SHA224 => RSASignatureMessagePKCS1v15SHA224
    case kSecKeyAlgorithmRSASignatureMessagePKCS1v15SHA256 => RSASignatureMessagePKCS1v15SHA256
    case kSecKeyAlgorithmRSASignatureMessagePKCS1v15SHA384 => RSASignatureMessagePKCS1v15SHA384
    case kSecKeyAlgorithmRSASignatureMessagePKCS1v15SHA512 => RSASignatureMessagePKCS1v15SHA512
    case kSecKeyAlgorithmRSASignatureDigestPSSSHA1 => RSASignatureDigestPSSSHA1
    case kSecKeyAlgorithmRSASignatureDigestPSSSHA224 => RSASignatureDigestPSSSHA224
    case kSecKeyAlgorithmRSASignatureDigestPSSSHA256 => RSASignatureDigestPSSSHA256
    case kSecKeyAlgorithmRSASignatureDigestPSSSHA384 => RSASignatureDigestPSSSHA384
    case kSecKeyAlgorithmRSASignatureDigestPSSSHA512 => RSASignatureDigestPSSSHA512
    case kSecKeyAlgorithmRSASignatureMessagePSSSHA1 => RSASignatureMessagePSSSHA1
    case kSecKeyAlgorithmRSASignatureMessagePSSSHA224 => RSASignatureMessagePSSSHA224
    case kSecKeyAlgorithmRSASignatureMessagePSSSHA256 => RSASignatureMessagePSSSHA256
    case kSecKeyAlgorithmRSASignatureMessagePSSSHA384 => RSASignatureMessagePSSSHA384
    case kSecKeyAlgorithmRSASignatureMessagePSSSHA512 => RSASignatureMessagePSSSHA512
  }

  /*
   * One row of the tables per lemma: the constant a variant maps to, the
   * variant that constant names, and apart from those the namesake in the
   * newer enum with the agreement of the two tables on it. Every
   * universal property below goes case by case through these rows; each
   * row is its own small proof.
   */

  lemma Row0()
    ensures AsCFString(ECIESEncryptionStandardX963SHA1AESGCM) == kSecKeyAlgorithmECIESEncryptionStandardX963SHA1AESGCM && VariantOf(kSecKeyAlgorithmECIESEncryptionStandardX963SHA1AESGCM) == ECIESEncryptionStandardX963SHA1AESGCM
  {
  }

  lemma NamesakeRow0()
    ensures Namesake(ECIESEncryptionStandardX963SHA1AESGCM) == K.ECIESEncryptionStandardX963SHA1AESGCM && AsCFString(ECIESEncryptionStandardX963SHA1AESGCM) == K.AsCFString(K.ECIESEncryptionStandardX963SHA1AESGCM)
  {
  }

  lemma Row1()
    ensures AsCFString(ECIESEncryptionStandardX963SHA224AESGCM) == kSecKeyAlgorithmECIESEncryptionStandardX963SHA224AESGCM && VariantOf(kSecKeyAlgorithmECIESEncryptionStandardX963SHA224AESGCM) == ECIESEncryptionStandardX963SHA224AESGCM
  {
  }

  lemma NamesakeRow1()
    ensures Namesake(ECIESEncryptionStandardX963SHA224AESGCM) == K.ECIESEncryptionStandardX963SHA224AESGCM && AsCFString(ECIESEncryptionStandardX963SHA224AESGCM) == K.AsCFString(K.ECIESEncryptionStandardX963SHA224AESGCM)
  {
  }

  lemma Row2()
    ensures AsCFString(ECIESEncryptionStandardX963SHA256AESGCM) == kSecKeyAlgorithmECIESEncryptionStandardX963SHA256AESGCM && VariantOf(kSecKeyAlgorithmECIESEncryptionStandardX963SHA256AESGCM) == ECIESEncryptionStandardX963SHA256AESGCM
  {
  }

  lemma NamesakeRow2()
    ensures Namesake(ECIESEncryptionStandardX963SHA256AESGCM) == K.ECIESEncryptionStandardX963SHA256AESGCM && AsCFString(ECIESEncryptionStandardX963SHA256AESGCM) == K.AsCFString(K.ECIESEncryptionStandardX963SHA256AESGCM)
  {
  }

  lemma Row3()
    ensures AsCFString(ECIESEncryptionStandardX963SHA384AESGCM) == kSecKeyAlgorithmECIESEncryptionStandardX963SHA384AESGCM && VariantOf(kSecKeyAlgorithmECIESEncryptionStandardX963SHA384AESGCM) == ECIESEncryptionStandardX963SHA384AESGCM
  {
  }

  lemma NamesakeRow3()
    ensures Namesake(ECIESEncryptionStandardX963SHA384AESGCM) == K.ECIESEncryptionStandardX963SHA384AESGCM && AsCFString(ECIESEncryptionStandardX963SHA384AESGCM) == K.AsCFString(K.ECIESEncryptionStandardX963SHA384AESGCM)
  {
  }

  lemma Row4()
    ensures AsCFString(ECIESEncryptionStandardX963SHA512AESGCM) == kSecKeyAlgorithmECIESEncryptionStandardX963SHA512AESGCM && VariantOf(kSecKeyAlgorithmECIESEncryptionStandardX963SHA512AESGCM) == ECIESEncryptionStandardX963SHA512AESGCM
  {
  }

  lemma NamesakeRow4()
    ensures Namesake(ECIESEncryptionStandardX963SHA512AESGCM) == K.ECIESEncryptionStandardX963SHA512AESGCM && AsCFString(ECIESEncryptionStandardX963SHA512AESGCM) == K.AsCFString(K.ECIESEncryptionStandardX963SHA512AESGCM)
  {
  }

  lemma Row5()
    ensures AsCFString(ECIESEncryptionStandardVariableIVX963SHA224AESGCM) == kSecKeyAlgorithmECIESEncryptionStandardVariableIVX963SHA224AESGCM && VariantOf(kSecKeyAlgorithmECIESEncryptionStandardVariableIVX963SHA224AESGCM) == ECIESEncryptionStandardVariableIVX963SHA224AESGCM
  {
  }

  lemma NamesakeRow5()
    ensures Namesake(ECIESEncryptionStandardVariableIVX963SHA224AESGCM) == K.ECIESEncryptionStandardVariableIVX963SHA224AESGCM && AsCFString(ECIESEncryptionStandardVariableIVX963SHA224AESGCM) == K.AsCFString(K.ECIESEncryptionStandardVariableIVX963SHA224AESGCM)
  {
  }

  lemma Row6()
    ensures AsCFString(ECIESEncryptionStandardVariableIVX963SHA256AESGCM) == kSecKeyAlgorithmECIESEncryptionStandardVariableIVX963SHA256AESGCM && VariantOf(kSecKeyAlgorithmECIESEncryptionStandardVariableIVX963SHA256AESGCM) == ECIESEncryptionStandardVariableIVX963SHA256AESGCM
  {
  }

  lemma NamesakeRow6()
    ensures Namesake(ECIESEncryptionStandardVariableIVX963SHA256AESGCM) == K.ECIESEncryptionStandardVariableIVX963SHA256AESGCM && AsCFString(ECIESEncryptionStandardVariableIVX963SHA256AESGCM) == K.AsCFString(K.ECIESEncryptionStandardVariableIVX963SHA256AESGCM)
  {
  }

  lemma Row7()
    ensures AsCFString(ECIESEncryptionStandardVariableIVX963SHA384AESGCM) == kSecKeyAlgorithmECIESEncryptionStandardVariableIVX963SHA384AESGCM && VariantOf(kSecKeyAlgorithmECIESEncryptionStandardVariableIVX963SHA384AESGCM) == ECIESEncryptionStandardVariableIVX963SHA384AESGCM
  {
  }

  lemma NamesakeRow7()
    ensures Namesake(ECIESEncryptionStandardVariableIVX963SHA384AESGCM) == K.ECIESEncryptionStandardVariableIVX963SHA384AESGCM && AsCFString(ECIESEncryptionStandardVariableIVX963SHA384AESGCM) == K.AsCFString(K.ECIESEncryptionStandardVariableIVX963SHA384AESGCM)
  {
  }

  lemma Row8()
    ensures AsCFString(ECIESEncryptionStandardVariableIVX963SHA512AESGCM) == kSecKeyAlgorithmECIESEncryptionStandardVariableIVX963SHA512AESGCM && VariantOf(kSecKeyAlgorithmECIESEncryptionStandardVariableIVX963SHA512AESGCM) == ECIESEncryptionStandardVariableIVX963SHA512AESGCM
  {
  }

  lemma NamesakeRow8()
    ensures Namesake(ECIESEncryptionStandardVariableIVX963SHA512AESGCM) == K.ECIESEncryptionStandardVariableIVX963SHA512AESGCM && AsCFString(ECIESEncryptionStandardVariableIVX963SHA512AESGCM) == K.AsCFString(K.ECIESEncryptionStandardVariableIVX963SHA512AESGCM)
  {
  }

  lemma Row9()
    ensures AsCFString(ECIESEncryptionCofactorVariableIVX963SHA224AESGCM) == kSecKeyAlgorithmECIESEncryptionCofactorVariableIVX963SHA224AESGCM && VariantOf(kSecKeyAlgorithmECIESEncryptionCofactorVariableIVX963SHA224AESGCM) == ECIESEncryptionCofactorVariableIVX963SHA224AESGCM
  {
  }

  lemma NamesakeRow9()
    ensures Namesake(ECIESEncryptionCofactorVariableIVX963SHA224AESGCM) == K.ECIESEncryptionCofactorVariableIVX963SHA224AESGCM && AsCFString(ECIESEncryptionCofactorVariableIVX963SHA224AESGCM) == K.AsCFString(K.ECIESEncryptionCofactorVariableIVX963SHA224AESGCM)
  {
  }

  lemma Row10()
    ensures AsCFString(ECIESEncryptionCofactorVariableIVX963SHA256AESGCM) == kSecKeyAlgorithmECIESEncryptionCofactorVariableIVX963SHA256AESGCM && VariantOf(kSecKeyAlgorithmECIESEncryptionCofactorVariableIVX963SHA256AESGCM) == ECIESEncryptionCofactorVariableIVX963SHA256AESGCM
  {
  }

  lemma NamesakeRow10()
    ensures Namesake(ECIESEncryptionCofactorVariableIVX963SHA256AESGCM) == K.ECIESEncryptionCofactorVariableIVX963SHA256AESGCM && AsCFString(ECIESEncryptionCofactorVariableIVX963SHA256AESGCM) == K.AsCFString(K.ECIESEncryptionCofactorVariableIVX963SHA256AESGCM)
  {
  }

  lemma Row11()
    ensures AsCFString(ECIESEncryptionCofactorVariableIVX963SHA384AESGCM) == kSecKeyAlgorithmECIESEncryptionCofactorVariableIVX963SHA384AESGCM && VariantOf(kSecKeyAlgorithmECIESEncryptionCofactorVariableIVX963SHA384AESGCM) == ECIESEncryptionCofactorVariableIVX963SHA384AESGCM
  {
  }

  lemma NamesakeRow11()
    ensures Namesake(ECIESEncryptionCofactorVariableIVX963SHA384AESGCM) == K.ECIESEncryptionCofactorVariableIVX963SHA384AESGCM && AsCFString(ECIESEncryptionCofactorVariableIVX963SHA384AESGCM) == K.AsCFString(K.ECIESEncryptionCofactorVariableIVX963SHA384AESGCM)
  {
  }

  lemma Row12()
    ensures AsCFString(ECIESEncryptionCofactorVariableIVX963SHA512AESGCM) == kSecKeyAlgorithmECIESEncryptionCofactorVariableIVX963SHA512AESGCM && VariantOf(kSecKeyAlgorithmECIESEncryptionCofactorVariableIVX963SHA512AESGCM) == ECIESEncryptionCofactorVariableIVX963SHA512AESGCM
  {
  }

  lemma NamesakeRow12()
    ensures Namesake(ECIESEncryptionCofactorVariableIVX963SHA512AESGCM) == K.ECIESEncryptionCofactorVariableIVX963SHA512AESGCM && AsCFString(ECIESEncryptionCofactorVariableIVX963SHA512AESGCM) == K.AsCFString(K.ECIESEncryptionCofactorVariableIVX963SHA512AESGCM)
  {
  }

  lemma Row13()
    ensures AsCFString(ECIESEncryptionCofactorX963SHA1AESGCM) == kSecKeyAlgorithmECIESEncryptionCofactorX963SHA1AESGCM && VariantOf(kSecKeyAlgorithmECIESEncryptionCofactorX963SHA1AESGCM) == ECIESEncryptionCofactorX963SHA1AESGCM
  {
  }

  lemma NamesakeRow13()
    ensures Namesake(ECIESEncryptionCofactorX963SHA1AESGCM) == K.ECIESEncryptionCofactorX963SHA1AESGCM && AsCFString(ECIESEncryptionCofactorX963SHA1AESGCM) == K.AsCFString(K.ECIESEncryptionCofactorX963SHA1AESGCM)
  {
  }

  lemma Row14()
    ensures AsCFString(ECIESEncryptionCofactorX963SHA224AESGCM) == kSecKeyAlgorithmECIESEncryptionCofactorX963SHA224AESGCM && VariantOf(kSecKeyAlgorithmECIESEncryptionCofactorX963SHA224AESGCM) == ECIESEncryptionCofactorX963SHA224AESGCM
  {
  }

  lemma NamesakeRow14()
    ensures Namesake(ECIESEncryptionCofactorX963SHA224AESGCM) == K.ECIESEncryptionCofactorX963SHA224AESGCM && AsCFString(ECIESEncryptionCofactorX963SHA224AESGCM) == K.AsCFString(K.ECIESEncryptionCofactorX963SHA224AESGCM)
  {
  }

  lemma Row15()
    ensures AsCFString(ECIESEncryptionCofactorX963SHA256AESGCM) == kSecKeyAlgorithmECIESEncryptionCofactorX963SHA256AESGCM && VariantOf(kSecKeyAlgorithmECIESEncryptionCofactorX963SHA256AESGCM) == ECIESEncryptionCofactorX963SHA256AESGCM
  {
  }

  lemma NamesakeRow15()
    ensures Namesake(ECIESEncryptionCofactorX963SHA256AESGCM) == K.ECIESEncryptionCofactorX963SHA256AESGCM && AsCFString(ECIESEncryptionCofactorX963SHA256AESGCM) == K.AsCFString(K.ECIESEncryptionCofactorX963SHA256AESGCM)
  {
  }

  lemma Row16()
    ensures AsCFString(ECIESEncryptionCofactorX963SHA384AESGCM) == kSecKeyAlgorithmECIESEncryptionCofactorX963SHA384AESGCM && VariantOf(kSecKeyAlgorithmECIESEncryptionCofactorX963SHA384AESGCM) == ECIESEncryptionCofactorX963SHA384AESGCM
  {
  }

  lemma NamesakeRow16()
    ensures Namesake(ECIESEncryptionCofactorX963SHA384AESGCM) == K.ECIESEncryptionCofactorX963SHA384AESGCM && AsCFString(ECIESEncryptionCofactorX963SHA384AESGCM) == K.AsCFString(K.ECIESEncryptionCofactorX963SHA384AESGCM)
  {
  }

  lemma Row17()
    ensures AsCFString(ECIESEncryptionCofactorX963SHA512AESGCM) == kSecKeyAlgorithmECIESEncryptionCofactorX963SHA512AESGCM && VariantOf(kSecKeyAlgorithmECIESEncryptionCofactorX963SHA512AESGCM) == ECIESEncryptionCofactorX963SHA512AESGCM
  {
  }

  lemma NamesakeRow17()
    ensures Namesake(ECIESEncryptionCofactorX963SHA512AESGCM) == K.ECIESEncryptionCofactorX963SHA512AESGCM && AsCFString(ECIESEncryptionCofactorX963SHA512AESGCM) == K.AsCFString(K.ECIESEncryptionCofactorX963SHA512AESGCM)
  {
  }

  lemma Row18()
    ensures AsCFString(ECDSASignatureRFC4754) == kSecKeyAlgorithmECDSASignatureRFC4754 && VariantOf(kSecKeyAlgorithmECDSASignatureRFC4754) == ECDSASignatureRFC4754
  {
  }

  lemma NamesakeRow18()
    ensures Namesake(ECDSASignatureRFC4754) == K.ECDSASignatureRFC4754 && AsCFString(ECDSASignatureRFC4754) == K.AsCFString(K.ECDSASignatureRFC4754)
  {
  }

  lemma Row19()
    ensures AsCFString(ECDSASignatureDigestX962) == kSecKeyAlgorithmECDSASignatureDigestX962 && VariantOf(kSecKeyAlgorithmECDSASignatureDigestX962) == ECDSASignatureDigestX962
  {
  }

  lemma NamesakeRow19()
    ensures Namesake(ECDSASignatureDigestX962) == K.ECDSASignatureDigestX962 && AsCFString(ECDSASignatureDigestX962) == K.AsCFString(K.ECDSASignatureDigestX962)
  {
  }

  lemma Row20()
    ensures AsCFString(ECDSASignatureDigestX962SHA1) == kSecKeyAlgorithmECDSASignatureDigestX962SHA1 && VariantOf(kSecKeyAlgorithmECDSASignatureDigestX962SHA1) == ECDSASignatureDigestX962SHA1
  {
  }

  lemma NamesakeRow20()
    ensures Namesake(ECDSASignatureDigestX962SHA1) == K.ECDSASignatureDigestX962SHA1 && AsCFString(ECDSASignatureDigestX962SHA1) == K.AsCFString(K.ECDSASignatureDigestX962SHA1)
  {
  }

  lemma Row21()
    ensures AsCFString(ECDSASignatureDigestX962SHA224) == kSecKeyAlgorithmECDSASignatureDigestX962SHA224 && VariantOf(kSecKeyAlgorithmECDSASignatureDigestX962SHA224) == ECDSASignatureDigestX962SHA224
  {
  }

  lemma NamesakeRow21()
    ensures Namesake(ECDSASignatureDigestX962SHA224) == K.ECDSASignatureDigestX962SHA224 && AsCFString(ECDSASignatureDigestX962SHA224) == K.AsCFString(K.ECDSASignatureDigestX962SHA224)
  {
  }

  lemma Row22()
    ensures AsCFString(ECDSASignatureDigestX962SHA256) == kSecKeyAlgorithmECDSASignatureDigestX962SHA256 && VariantOf(kSecKeyAlgorithmECDSASignatureDigestX962SHA256) == ECDSASignatureDigestX962SHA256
  {
  }

  lemma NamesakeRow22()
    ensures Namesake(ECDSASignatureDigestX962SHA256) == K.ECDSASignatureDigestX962SHA256 && AsCFString(ECDSASignatureDigestX962SHA256) == K.AsCFString(K.ECDSASignatureDigestX962SHA256)
  {
  }

  lemma Row23()
    ensures AsCFString(ECDSASignatureDigestX962SHA384) == kSecKeyAlgorithmECDSASignatureDigestX962SHA384 && VariantOf(kSecKeyAlgorithmECDSASignatureDigestX962SHA384) == ECDSASignatureDigestX962SHA384
  {
  }

  lemma NamesakeRow23()
    ensures Namesake(ECDSASignatureDigestX962SHA384) == K.ECDSASignatureDigestX962SHA384 && AsCFString(ECDSASignatureDigestX962SHA384) == K.AsCFString(K.ECDSASignatureDigestX962SHA384)
  {
  }

  lemma Row24()
    ensures AsCFString(ECDSASignatureDigestX962SHA512) == kSecKeyAlgorithmECDSASignatureDigestX962SHA512 && VariantOf(kSecKeyAlgorithmECDSASignatureDigestX962SHA512) == ECDSASignatureDigestX962SHA512
  {
  }

  lemma NamesakeRow24()
    ensures Namesake(ECDSASignatureDigestX962SHA512) == K.ECDSASignatureDigestX962SHA512 && AsCFString(ECDSASignatureDigestX962SHA512) == K.AsCFString(K.ECDSASignatureDigestX962SHA512)
  {
  }

  lemma Row25()
    ensures AsCFString(ECDSASignatureMessageX962SHA1) == kSecKeyAlgorithmECDSASignatureMessageX962SHA1 && VariantOf(kSecKeyAlgorithmECDSASignatureMessageX962SHA1) == ECDSASignatureMessageX962SHA1
  {
  }

  lemma NamesakeRow25()
    ensures Namesake(ECDSASignatureMessageX962SHA1) == K.ECDSASignatureMessageX962SHA1 && AsCFString(ECDSASignatureMessageX962SHA1) == K.AsCFString(K.ECDSASignatureMessageX962SHA1)
  {
  }

  lemma Row26()
    ensures AsCFString(ECDSASignatureMessageX962SHA224) == kSecKeyAlgorithmECDSASignatureMessageX962SHA224 && VariantOf(kSecKeyAlgorithmECDSASignatureMessageX962SHA224) == ECDSASignatureMessageX962SHA224
  {
  }

  lemma NamesakeRow26()
    ensures Namesake(ECDSASignatureMessageX962SHA224) == K.ECDSASignatureMessageX962SHA224 && AsCFString(ECDSASignatureMessageX962SHA224) == K.AsCFString(K.ECDSASignatureMessageX962SHA224)
  {
  }

  lemma Row27()
    ensures AsCFString(ECDSASignatureMessageX962SHA256) == kSecKeyAlgorithmECDSASignatureMessageX962SHA256 && VariantOf(kSecKeyAlgorithmECDSASignatureMessageX962SHA256) == ECDSASignatureMessageX962SHA256
  {
  }

  lemma NamesakeRow27()
    ensures Namesake(ECDSASignatureMessageX962SHA256) == K.ECDSASignatureMessageX962SHA256 && AsCFString(ECDSASignatureMessageX962SHA256) == K.AsCFString(K.ECDSASignatureMessageX962SHA256)
  {
  }

  lemma Row28()
    ensures AsCFString(ECDSASignatureMessageX962SHA384) == kSecKeyAlgorithmECDSASignatureMessageX962SHA384 && VariantOf(kSecKeyAlgorithmECDSASignatureMessageX962SHA384) == ECDSASignatureMessageX962SHA384
  {
  }

  lemma NamesakeRow28()
    ensures Namesake(ECDSASignatureMessageX962SHA384) == K.ECDSASignatureMessageX962SHA384 && AsCFString(ECDSASignatureMessageX962SHA384) == K.AsCFString(K.ECDSASignatureMessageX962SHA384)
  {
  }

  lemma Row29()
    ensures AsCFString(ECDSASignatureMessageX962SHA512) == kSecKeyAlgorithmECDSASignatureMessageX962SHA512 && VariantOf(kSecKeyAlgorithmECDSASignatureMessageX962SHA512) == ECDSASignatureMessageX962SHA512
  {
  }

  lemma NamesakeRow29()
    ensures Namesake(ECDSASignatureMessageX962SHA512) == K.ECDSASignatureMessageX962SHA512 && AsCFString(ECDSASignatureMessageX962SHA512) == K.AsCFString(K.ECDSASignatureMessageX962SHA512)
  {
  }

  lemma Row30()
    ensures AsCFString(ECDHKeyExchangeCofactor) == kSecKeyAlgorithmECDHKeyExchangeCofactor && VariantOf(kSecKeyAlgorithmECDHKeyExchangeCofactor) == ECDHKeyExchangeCofactor
  {
  }

  lemma NamesakeRow30()
    ensures Namesake(ECDHKeyExchangeCofactor) == K.ECDHKeyExchangeCofactor && AsCFString(ECDHKeyExchangeCofactor) == K.AsCFString(K.ECDHKeyExchangeCofactor)
  {
  }

  lemma Row31()
    ensures AsCFString(ECDHKeyExchangeStandard) == kSecKeyAlgorithmECDHKeyExchangeStandard && VariantOf(kSecKeyAlgorithmECDHKeyExchangeStandard) == ECDHKeyExchangeStandard
  {
  }

  lemma NamesakeRow31()
    ensures Namesake(ECDHKeyExchangeStandard) == K.ECDHKeyExchangeStandard && AsCFString(ECDHKeyExchangeStandard) == K.AsCFString(K.ECDHKeyExchangeStandard)
  {
  }

  lemma Row32()
    ensures AsCFString(ECDHKeyExchangeCofactorX963SHA1) == kSecKeyAlgorithmECDHKeyExchangeCofactorX963SHA1 && VariantOf(kSecKeyAlgorithmECDHKeyExchangeCofactorX963SHA1) == ECDHKeyExchangeCofactorX963SHA1
  {
  }

  lemma NamesakeRow32()
    ensures Namesake(ECDHKeyExchangeCofactorX963SHA1) == K.ECDHKeyExchangeCofactorX963SHA1 && AsCFString(ECDHKeyExchangeCofactorX963SHA1) == K.AsCFString(K.ECDHKeyExchangeCofactorX963SHA1)
  {
  }

  lemma Row33()
    ensures AsCFString(ECDHKeyExchangeStandardX963SHA1) == kSecKeyAlgorithmECDHKeyExchangeStandardX963SHA1 && VariantOf(kSecKeyAlgorithmECDHKeyExchangeStandardX963SHA1) == ECDHKeyExchangeStandardX963SHA1
  {
  }

  lemma NamesakeRow33()
    ensures Namesake(ECDHKeyExchangeStandardX963SHA1) == K.ECDHKeyExchangeStandardX963SHA1 && AsCFString(ECDHKeyExchangeStandardX963SHA1) == K.AsCFString(K.ECDHKeyExchangeStandardX963SHA1)
  {
  }

  lemma Row34()
    ensures AsCFString(ECDHKeyExchangeCofactorX963SHA224) == kSecKeyAlgorithmECDHKeyExchangeCofactorX963SHA224 && VariantOf(kSecKeyAlgorithmECDHKeyExchangeCofactorX963SHA224) == ECDHKeyExchangeCofactorX963SHA224
  {
  }

  lemma NamesakeRow34()
    ensures Namesake(ECDHKeyExchangeCofactorX963SHA224) == K.ECDHKeyExchangeCofactorX963SHA224 && AsCFString(ECDHKeyExchangeCofactorX963SHA224) == K.AsCFString(K.ECDHKeyExchangeCofactorX963SHA224)
  {
  }

  lemma Row35()
    ensures AsCFString(ECDHKeyExchangeCofactorX963SHA256) == kSecKeyAlgorithmECDHKeyExchangeCofactorX963SHA256 && VariantOf(kSecKeyAlgorithmECDHKeyExchangeCofactorX963SHA256) == ECDHKeyExchangeCofactorX963SHA256
  {
  }

  lemma NamesakeRow35()
    ensures Namesake(ECDHKeyExchangeCofactorX963SHA256) == K.ECDHKeyExchangeCofactorX963SHA256 && AsCFString(ECDHKeyExchangeCofactorX963SHA256) == K.AsCFString(K.ECDHKeyExchangeCofactorX963SHA256)
  {
  }

  lemma Row36()
    ensures AsCFString(ECDHKeyExchangeCofactorX963SHA384) == kSecKeyAlgorithmECDHKeyExchangeCofactorX963SHA384 && VariantOf(kSecKeyAlgorithmECDHKeyExchangeCofactorX963SHA384) == ECDHKeyExchangeCofactorX963SHA384
  {
  }

  lemma NamesakeRow36()
    ensures Namesake(ECDHKeyExchangeCofactorX963SHA384) == K.ECDHKeyExchangeCofactorX963SHA384 && AsCFString(ECDHKeyExchangeCofactorX963SHA384) == K.AsCFString(K.ECDHKeyExchangeCofactorX963SHA384)
  {
  }

  lemma Row37()
    ensures AsCFString(ECDHKeyExchangeCofactorX963SHA512) == kSecKeyAlgorithmECDHKeyExchangeCofactorX963SHA512 && VariantOf(kSecKeyAlgorithmECDHKeyExchangeCofactorX963SHA512) == ECDHKeyExchangeCofactorX963SHA512
  {
  }

  lemma NamesakeRow37()
    ensures Namesake(ECDHKeyExchangeCofactorX963SHA512) == K.ECDHKeyExchangeCofactorX963SHA512 && AsCFString(ECDHKeyExchangeCofactorX963SHA512) == K.AsCFString(K.ECDHKeyExchangeCofactorX963SHA512)
  {
  }

  lemma Row38()
    ensures AsCFString(ECDHKeyExchangeStandardX963SHA224) == kSecKeyAlgorithmECDHKeyExchangeStandardX963SHA224 && VariantOf(kSecKeyAlgorithmECDHKeyExchangeStandardX963SHA224) == ECDHKeyExchangeStandardX963SHA224
  {
  }

  lemma NamesakeRow38()
    ensures Namesake(ECDHKeyExchangeStandardX963SHA224) == K.ECDHKeyExchangeStandardX963SHA224 && AsCFString(ECDHKeyExchangeStandardX963SHA224) == K.AsCFString(K.ECDHKeyExchangeStandardX963SHA224)
  {
  }

  lemma Row39()
    ensures AsCFString(ECDHKeyExchangeStandardX963SHA256) == kSecKeyAlgorithmECDHKeyExchangeStandardX963SHA256 && VariantOf(kSecKeyAlgorithmECDHKeyExchangeStandardX963SHA256) == ECDHKeyExchangeStandardX963SHA256
  {
  }

  lemma NamesakeRow39()
    ensures Namesake(ECDHKeyExchangeStandardX963SHA256) == K.ECDHKeyExchangeStandardX963SHA256 && AsCFString(ECDHKeyExchangeStandardX963SHA256) == K.AsCFString(K.ECDHKeyExchangeStandardX963SHA256)
  {
  }

  lemma Row40()
    ensures AsCFString(ECDHKeyExchangeStandardX963SHA384) == kSecKeyAlgorithmECDHKeyExchangeStandardX963SHA384 && VariantOf(kSecKeyAlgorithmECDHKeyExchangeStandardX963SHA384) == ECDHKeyExchangeStandardX963SHA384
  {
  }

  lemma NamesakeRow40()
    ensures Namesake(ECDHKeyExchangeStandardX963SHA384) == K.ECDHKeyExchangeStandardX963SHA384 && AsCFString(ECDHKeyExchangeStandardX963SHA384) == K.AsCFString(K.ECDHKeyExchangeStandardX963SHA384)
  {
  }

  lemma Row41()
    ensures AsCFString(ECDHKeyExchangeStandardX963SHA512) == kSecKeyAlgorithmECDHKeyExchangeStandardX963SHA512 && VariantOf(kSecKeyAlgorithmECDHKeyExchangeStandardX963SHA512) == ECDHKeyExchangeStandardX963SHA512
  {
  }

  lemma NamesakeRow41()
    ensures Namesake(ECDHKeyExchangeStandardX963SHA512) == K.ECDHKeyExchangeStandardX963SHA512 && AsCFString(ECDHKeyExchangeStandardX963SHA512) == K.AsCFString(K.ECDHKeyExchangeStandardX963SHA512)
  {
  }

  lemma Row42()
    ensures AsCFString(RSAEncryptionRaw) == kSecKeyAlgorithmRSAEncryptionRaw && VariantOf(kSecKeyAlgorithmRSAEncryptionRaw) == RSAEncryptionRaw
  {
  }

  lemma NamesakeRow42()
    ensures Namesake(RSAEncryptionRaw) == K.RSAEncryptionRaw && AsCFString(RSAEncryptionRaw) == K.AsCFString(K.RSAEncryptionRaw)
  {
  }

  lemma Row43()
    ensures AsCFString(RSAEncryptionPKCS1) == kSecKeyAlgorithmRSAEncryptionPKCS1 && VariantOf(kSecKeyAlgorithmRSAEncryptionPKCS1) == RSAEncryptionPKCS1
  {
  }

  lemma NamesakeRow43()
    ensures Namesake(RSAEncryptionPKCS1) == K.RSAEncryptionPKCS1 && AsCFString(RSAEncryptionPKCS1) == K.AsCFString(K.RSAEncryptionPKCS1)
  {
  }

  lemma Row44()
    ensures AsCFString(RSAEncryptionOAEPSHA1) == kSecKeyAlgorithmRSAEncryptionOAEPSHA1 && VariantOf(kSecKeyAlgorithmRSAEncryptionOAEPSHA1) == RSAEncryptionOAEPSHA1
  {
  }

  lemma NamesakeRow44()
    ensures Namesake(RSAEncryptionOAEPSHA1) == K.RSAEncryptionOAEPSHA1 && AsCFString(RSAEncryptionOAEPSHA1) == K.AsCFString(K.RSAEncryptionOAEPSHA1)
  {
  }

  lemma Row45()
    ensures AsCFString(RSAEncryptionOAEPSHA224) == kSecKeyAlgorithmRSAEncryptionOAEPSHA224 && VariantOf(kSecKeyAlgorithmRSAEncryptionOAEPSHA224) == RSAEncryptionOAEPSHA224
  {
  }

  lemma NamesakeRow45()
    ensures Namesake(RSAEncryptionOAEPSHA224) == K.RSAEncryptionOAEPSHA224 && AsCFString(RSAEncryptionOAEPSHA224) == K.AsCFString(K.RSAEncryptionOAEPSHA224)
  {
  }

  lemma Row46()
    ensures AsCFString(RSAEncryptionOAEPSHA256) == kSecKeyAlgorithmRSAEncryptionOAEPSHA256 && VariantOf(kSecKeyAlgorithmRSAEncryptionOAEPSHA256) == RSAEncryptionOAEPSHA256
  {
  }

  lemma NamesakeRow46()
    ensures Namesake(RSAEncryptionOAEPSHA256) == K.RSAEncryptionOAEPSHA256 && AsCFString(RSAEncryptionOAEPSHA256) == K.AsCFString(K.RSAEncryptionOAEPSHA256)
  {
  }

  lemma Row47()
    ensures AsCFString(RSAEncryptionOAEPSHA384) == kSecKeyAlgorithmRSAEncryptionOAEPSHA384 && VariantOf(kSecKeyAlgorithmRSAEncryptionOAEPSHA384) == RSAEncryptionOAEPSHA384
  {
  }

  lemma NamesakeRow47()
    ensures Namesake(RSAEncryptionOAEPSHA384) == K.RSAEncryptionOAEPSHA384 && AsCFString(RSAEncryptionOAEPSHA384) == K.AsCFString(K.RSAEncryptionOAEPSHA384)
  {
  }

  lemma Row48()
    ensures AsCFString(RSAEncryptionOAEPSHA512) == kSecKeyAlgorithmRSAEncryptionOAEPSHA512 && VariantOf(kSecKeyAlgorithmRSAEncryptionOAEPSHA512) == RSAEncryptionOAEPSHA512
  {
  }

  lemma NamesakeRow48()
    ensures Namesake(RSAEncryptionOAEPSHA512) == K.RSAEncryptionOAEPSHA512 && AsCFString(RSAEncryptionOAEPSHA512) == K.AsCFString(K.RSAEncryptionOAEPSHA512)
  {
  }

  lemma Row49()
    ensures AsCFString(RSAEncryptionOAEPSHA1AESGCM) == kSecKeyAlgorithmRSAEncryptionOAEPSHA1AESGCM && VariantOf(kSecKeyAlgorithmRSAEncryptionOAEPSHA1AESGCM) == RSAEncryptionOAEPSHA1AESGCM
  {
  }

  lemma NamesakeRow49()
    ensures Namesake(RSAEncryptionOAEPSHA1AESGCM) == K.RSAEncryptionOAEPSHA1AESGCM && AsCFString(RSAEncryptionOAEPSHA1AESGCM) == K.AsCFString(K.RSAEncryptionOAEPSHA1AESGCM)
  {
  }

  lemma Row50()
    ensures AsCFString(RSAEncryptionOAEPSHA224AESGCM) == kSecKeyAlgorithmRSAEncryptionOAEPSHA224AESGCM && VariantOf(kSecKeyAlgorithmRSAEncryptionOAEPSHA224AESGCM) == RSAEncryptionOAEPSHA224AESGCM
  {
  }

  lemma NamesakeRow50()
    ensures Namesake(RSAEncryptionOAEPSHA224AESGCM) == K.RSAEncryptionOAEPSHA224AESGCM && AsCFString(RSAEncryptionOAEPSHA224AESGCM) == K.AsCFString(K.RSAEncryptionOAEPSHA224AESGCM)
  {
  }

  lemma Row51()
    ensures AsCFString(RSAEncryptionOAEPSHA256AESGCM) == kSecKeyAlgorithmRSAEncryptionOAEPSHA256AESGCM && VariantOf(kSecKeyAlgorithmRSAEncryptionOAEPSHA256AESGCM) == RSAEncryptionOAEPSHA256AESGCM
  {
  }

  lemma NamesakeRow51()
    ensures Namesake(RSAEncryptionOAEPSHA256AESGCM) == K.RSAEncryptionOAEPSHA256AESGCM && AsCFString(RSAEncryptionOAEPSHA256AESGCM) == K.AsCFString(K.RSAEncryptionOAEPSHA256AESGCM)
  {
  }

  lemma Row52()
    ensures AsCFString(RSAEncryptionOAEPSHA384AESGCM) == kSecKeyAlgorithmRSAEncryptionOAEPSHA384AESGCM && VariantOf(kSecKeyAlgorithmRSAEncryptionOAEPSHA384AESGCM) == RSAEncryptionOAEPSHA384AESGCM
  {
  }

  lemma NamesakeRow52()
    ensures Namesake(RSAEncryptionOAEPSHA384AESGCM) == K.RSAEncryptionOAEPSHA384AESGCM && AsCFString(RSAEncryptionOAEPSHA384AESGCM) == K.AsCFString(K.RSAEncryptionOAEPSHA384AESGCM)
  {
  }

  lemma Row53()
    ensures AsCFString(RSAEncryptionOAEPSHA512AESGCM) == kSecKeyAlgorithmRSAEncryptionOAEPSHA512AESGCM && VariantOf(kSecKeyAlgorithmRSAEncryptionOAEPSHA512AESGCM) == RSAEncryptionOAEPSHA512AESGCM
  {
  }

  lemma NamesakeRow53()
    ensures Namesake(RSAEncryptionOAEPSHA512AESGCM) == K.RSAEncryptionOAEPSHA512AESGCM && AsCFString(RSAEncryptionOAEPSHA512AESGCM) == K.AsCFString(K.RSAEncryptionOAEPSHA512AESGCM)
  {
  }

  lemma Row54()
    ensures AsCFString(RSASignatureRaw) == kSecKeyAlgorithmRSASignatureRaw && VariantOf(kSecKeyAlgorithmRSASignatureRaw) == RSASignatureRaw
  {
  }

  lemma NamesakeRow54()
    ensures Namesake(RSASignatureRaw) == K.RSASignatureRaw && AsCFString(RSASignatureRaw) == K.AsCFString(K.RSASignatureRaw)
  {
  }

  lemma Row55()
    ensures AsCFString(RSASignatureDigestPKCS1v15Raw) == kSecKeyAlgorithmRSASignatureDigestPKCS1v15Raw && VariantOf(kSecKeyAlgorithmRSASignatureDigestPKCS1v15Raw) == RSASignatureDigestPKCS1v15Raw
  {
  }

  lemma NamesakeRow55()
    ensures Namesake(RSASignatureDigestPKCS1v15Raw) == K.RSASignatureDigestPKCS1v15Raw && AsCFString(RSASignatureDigestPKCS1v15Raw) == K.AsCFString(K.RSASignatureDigestPKCS1v15Raw)
  {
  }

  lemma Row56()
    ensures AsCFString(RSASignatureDigestPKCS1v15SHA1) == kSecKeyAlgorithmRSASignatureDigestPKCS1v15SHA1 && VariantOf(kSecKeyAlgorithmRSASignatureDigestPKCS1v15SHA1) == RSASignatureDigestPKCS1v15SHA1
  {
  }

  lemma NamesakeRow56()
    ensures Namesake(RSASignatureDigestPKCS1v15SHA1) == K.RSASignatureDigestPKCS1v15SHA1 && AsCFString(RSASignatureDigestPKCS1v15SHA1) == K.AsCFString(K.RSASignatureDigestPKCS1v15SHA1)
  {
  }

  lemma Row57()
    ensures AsCFString(RSASignatureDigestPKCS1v15SHA224) == kSecKeyAlgorithmRSASignatureDigestPKCS1v15SHA224 && VariantOf(kSecKeyAlgorithmRSASignatureDigestPKCS1v15SHA224) == RSASignatureDigestPKCS1v15SHA224
  {
  }

  lemma NamesakeRow57()
    ensures Namesake(RSASignatureDigestPKCS1v15SHA224) == K.RSASignatureDigestPKCS1v15SHA224 && AsCFString(RSASignatureDigestPKCS1v15SHA224) == K.AsCFString(K.RSASignatureDigestPKCS1v15SHA224)
  {
  }

  lemma Row58()
    ensures AsCFString(RSASignatureDigestPKCS1v15SHA256) == kSecKeyAlgorithmRSASignatureDigestPKCS1v15SHA256 && VariantOf(kSecKeyAlgorithmRSASignatureDigestPKCS1v15SHA256) == RSASignatureDigestPKCS1v15SHA256
  {
  }

  lemma NamesakeRow58()
    ensures Namesake(RSASignatureDigestPKCS1v15SHA256) == K.RSASignatureDigestPKCS1v15SHA256 && AsCFString(RSASignatureDigestPKCS1v15SHA256) == K.AsCFString(K.RSASignatureDigestPKCS1v15SHA256)
  {
  }

  lemma Row59()
    ensures AsCFString(RSASignatureDigestPKCS1v15SHA384) == kSecKeyAlgorithmRSASignatureDigestPKCS1v15SHA384 && VariantOf(kSecKeyAlgorithmRSASignatureDigestPKCS1v15SHA384) == RSASignatureDigestPKCS1v15SHA384
  {
  }

  lemma NamesakeRow59()
    ensures Namesake(RSASignatureDigestPKCS1v15SHA384) == K.RSASignatureDigestPKCS1v15SHA384 && AsCFString(RSASignatureDigestPKCS1v15SHA384) == K.AsCFString(K.RSASignatureDigestPKCS1v15SHA384)
  {
  }

  lemma Row60()
    ensures AsCFString(RSASignatureDigestPKCS1v15SHA512) == kSecKeyAlgorithmRSASignatureDigestPKCS1v15SHA512 && VariantOf(kSecKeyAlgorithmRSASignatureDigestPKCS1v15SHA512) == RSASignatureDigestPKCS1v15SHA512
  {
  }

  lemma NamesakeRow60()
    ensures Namesake(RSASignatureDigestPKCS1v15SHA512) == K.RSASignatureDigestPKCS1v15SHA512 && AsCFString(RSASignatureDigestPKCS1v15SHA512) == K.AsCFString(K.RSASignatureDigestPKCS1v15SHA512)
  {
  }

  lemma Row61()
    ensures AsCFString(RSASignatureMessagePKCS1v15SHA1) == kSecKeyAlgorithmRSASignatureMessagePKCS1v15SHA1 && VariantOf(kSecKeyAlgorithmRSASignatureMessagePKCS1v15SHA1) == RSASignatureMessagePKCS1v15SHA1
  {
  }

  lemma NamesakeRow61()
    ensures Namesake(RSASignatureMessagePKCS1v15SHA1) == K.RSASignatureMessagePKCS1v15SHA1 && AsCFString(RSASignatureMessagePKCS1v15SHA1) == K.AsCFString(K.RSASignatureMessagePKCS1v15SHA1)
  {
  }

  lemma Row62()
    ensures AsCFString(RSASignatureMessagePKCS1v15SHA224) == kSecKeyAlgorithmRSASignatureMessagePKCS1v15SHA224 && VariantOf(kSecKeyAlgorithmRSASignatureMessagePKCS1v15SHA224) == RSASignatureMessagePKCS1v15SHA224
  {
  }

  lemma NamesakeRow62()
    ensures Namesake(RSASignatureMessagePKCS1v15SHA224) == K.RSASignatureMessagePKCS1v15SHA224 && AsCFString(RSASignatureMessagePKCS1v15SHA224) == K.AsCFString(K.RSASignatureMessagePKCS1v15SHA224)
  {
  }

  lemma Row63()
    ensures AsCFString(RSASignatureMessagePKCS1v15SHA256) == kSecKeyAlgorithmRSASignatureMessagePKCS1v15SHA256 && VariantOf(kSecKeyAlgorithmRSASignatureMessagePKCS1v15SHA256) == RSASignatureMessagePKCS1v15SHA256
  {
  }

  lemma NamesakeRow63()
    ensures Namesake(RSASignatureMessagePKCS1v15SHA256) == K.RSASignatureMessagePKCS1v15SHA256 && AsCFString(RSASignatureMessagePKCS1v15SHA256) == K.AsCFString(K.RSASignatureMessagePKCS1v15SHA256)
  {
  }

  lemma Row64()
    ensures AsCFString(RSASignatureMessagePKCS1v15SHA384) == kSecKeyAlgorithmRSASignatureMessagePKCS1v15SHA384 && VariantOf(kSecKeyAlgorithmRSASignatureMessagePKCS1v15SHA384) == RSASignatureMessagePKCS1v15SHA384
  {
  }

  lemma NamesakeRow64()
    ensures Namesake(RSASignatureMessagePKCS1v15SHA384) == K.RSASignatureMessagePKCS1v15SHA384 && AsCFString(RSASignatureMessagePKCS1v15SHA384) == K.AsCFString(K.RSASignatureMessagePKCS1v15SHA384)
  {
  }

  lemma Row65()
    ensures AsCFString(RSASignatureMessagePKCS1v15SHA512) == kSecKeyAlgorithmRSASignatureMessagePKCS1v15SHA512 && VariantOf(kSecKeyAlgorithmRSASignatureMessagePKCS1v15SHA512) == RSASignatureMessagePKCS1v15SHA512
  {
  }

  lemma NamesakeRow65()
    ensures Namesake(RSASignatureMessagePKCS1v15SHA512) == K.RSASignatureMessagePKCS1v15SHA512 && AsCFString(RSASignatureMessagePKCS1v15SHA512) == K.AsCFString(K.RSASignatureMessagePKCS1v15SHA512)
  {
  }

  lemma Row66()
    ensures AsCFString(RSASignatureDigestPSSSHA1) == kSecKeyAlgorithmRSASignatureDigestPSSSHA1 && VariantOf(kSecKeyAlgorithmRSASignatureDigestPSSSHA1) == RSASignatureDigestPSSSHA1
  {
  }

  lemma NamesakeRow66()
    ensures Namesake(RSASignatureDigestPSSSHA1) == K.RSASignatureDigestPSSSHA1 && AsCFString(RSASignatureDigestPSSSHA1) == K.AsCFString(K.RSASignatureDigestPSSSHA1)
  {
  }

  lemma Row67()
    ensures AsCFString(RSASignatureDigestPSSSHA224) == kSecKeyAlgorithmRSASignatureDigestPSSSHA224 && VariantOf(kSecKeyAlgorithmRSASignatureDigestPSSSHA224) == RSASignatureDigestPSSSHA224
  {
  }

  lemma NamesakeRow67()
    ensures Namesake(RSASignatureDigestPSSSHA224) == K.RSASignatureDigestPSSSHA224 && AsCFString(RSASignatureDigestPSSSHA224) == K.AsCFString(K.RSASignatureDigestPSSSHA224)
  {
  }

  lemma Row68()
    ensures AsCFString(RSASignatureDigestPSSSHA256) == kSecKeyAlgorithmRSASignatureDigestPSSSHA256 && VariantOf(kSecKeyAlgorithmRSASignatureDigestPSSSHA256) == RSASignatureDigestPSSSHA256
  {
  }

  lemma NamesakeRow68()
    ensures Namesake(RSASignatureDigestPSSSHA256) == K.RSASignatureDigestPSSSHA256 && AsCFString(RSASignatureDigestPSSSHA256) == K.AsCFString(K.RSASignatureDigestPSSSHA256)
  {
  }

  lemma Row69()
    ensures AsCFString(RSASignatureDigestPSSSHA384) == kSecKeyAlgorithmRSASignatureDigestPSSSHA384 && VariantOf(kSecKeyAlgorithmRSASignatureDigestPSSSHA384) == RSASignatureDigestPSSSHA384
  {
  }

  lemma NamesakeRow69()
    ensures Namesake(RSASignatureDigestPSSSHA384) == K.RSASignatureDigestPSSSHA384 && AsCFString(RSASignatureDigestPSSSHA384) == K.AsCFString(K.RSASignatureDigestPSSSHA384)
  {
  }

  lemma Row70()
    ensures AsCFString(RSASignatureDigestPSSSHA512) == kSecKeyAlgorithmRSASignatureDigestPSSSHA512 && VariantOf(kSecKeyAlgorithmRSASignatureDigestPSSSHA512) == RSASignatureDigestPSSSHA512
  {
  }

  lemma NamesakeRow70()
    ensures Namesake(RSASignatureDigestPSSSHA512) == K.RSASignatureDigestPSSSHA512 && AsCFString(RSASignatureDigestPSSSHA512) == K.AsCFString(K.RSASignatureDigestPSSSHA512)
  {
  }

  lemma Row71()
    ensures AsCFString(RSASignatureMessagePSSSHA1) == kSecKeyAlgorithmRSASignatureMessagePSSSHA1 && VariantOf(kSecKeyAlgorithmRSASignatureMessagePSSSHA1) == RSASignatureMessagePSSSHA1
  {
  }

  lemma NamesakeRow71()
    ensures Namesake(RSASignatureMessagePSSSHA1) == K.RSASignatureMessagePSSSHA1 && AsCFString(RSASignatureMessagePSSSHA1) == K.AsCFString(K.RSASignatureMessagePSSSHA1)
  {
  }

  lemma Row72()
    ensures AsCFString(RSASignatureMessagePSSSHA224) == kSecKeyAlgorithmRSASignatureMessagePSSSHA224 && VariantOf(kSecKeyAlgorithmRSASignatureMessagePSSSHA224) == RSASignatureMessagePSSSHA224
  {
  }

  lemma NamesakeRow72()
    ensures Namesake(RSASignatureMessagePSSSHA224) == K.RSASignatureMessagePSSSHA224 && AsCFString(RSASignatureMessagePSSSHA224) == K.AsCFString(K.RSASignatureMessagePSSSHA224)
  {
  }

  lemma Row73()
    ensures AsCFString(RSASignatureMessagePSSSHA256) == kSecKeyAlgorithmRSASignatureMessagePSSSHA256 && VariantOf(kSecKeyAlgorithmRSASignatureMessagePSSSHA256) == RSASignatureMessagePSSSHA256
  {
  }

  lemma NamesakeRow73()
    ensures Namesake(RSASignatureMessagePSSSHA256) == K.RSASignatureMessagePSSSHA256 && AsCFString(RSASignatureMessagePSSSHA256) == K.AsCFString(K.RSASignatureMessagePSSSHA256)
  {
  }

  lemma Row74()
    ensures AsCFString(RSASignatureMessagePSSSHA384) == kSecKeyAlgorithmRSASignatureMessagePSSSHA384 && VariantOf(kSecKeyAlgorithmRSASignatureMessagePSSSHA384) == RSASignatureMessagePSSSHA384
  {
  }

  lemma NamesakeRow74()
    ensures Namesake(RSASignatureMessagePSSSHA384) == K.RSASignatureMessagePSSSHA384 && AsCFString(RSASignatureMessagePSSSHA384) == K.AsCFString(K.RSASignatureMessagePSSSHA384)
  {
  }

  lemma Row75()
    ensures AsCFString(RSASignatureMessagePSSSHA512) == kSecKeyAlgorithmRSASignatureMessagePSSSHA512 && VariantOf(kSecKeyAlgorithmRSASignatureMessagePSSSHA512) == RSASignatureMessagePSSSHA512
  {
  }

  lemma NamesakeRow75()
    ensures Namesake(RSASignatureMessagePSSSHA512) == K.RSASignatureMessagePSSSHA512 && AsCFString(RSASignatureMessagePSSSHA512) == K.AsCFString(K.RSASignatureMessagePSSSHA512)
  {
  }

  /** The two tables agree: a variant and its namesake in the newer enum map to the same constant. */
  lemma TablesAgree(a: SecKeyAlgorithm)
    ensures AsCFString(a) == K.AsCFString(Namesake(a))
  {
    match a
    case ECIESEncryptionStandardX963SHA1AESGCM => NamesakeRow0();
    case ECIESEncryptionStandardX963SHA224AESGCM => NamesakeRow1();
    case ECIESEncryptionStandardX963SHA256AESGCM => NamesakeRow2();
    case ECIESEncryptionStandardX963SHA384AESGCM => NamesakeRow3();
    case ECIESEncryptionStandardX963SHA512AESGCM => NamesakeRow4();
    case ECIESEncryptionStandardVariableIVX963SHA224AESGCM => NamesakeRow5();
    case ECIESEncryptionStandardVariableIVX963SHA256AESGCM => NamesakeRow6();
    case ECIESEncryptionStandardVariableIVX963SHA384AESGCM => NamesakeRow7();
    case ECIESEncryptionStandardVariableIVX963SHA512AESGCM => NamesakeRow8();
    case ECIESEncryptionCofactorVariableIVX963SHA224AESGCM => NamesakeRow9();
    case ECIESEncryptionCofactorVariableIVX963SHA256AESGCM => NamesakeRow10();
    case ECIESEncryptionCofactorVariableIVX963SHA384AESGCM => NamesakeRow11();
    case ECIESEncryptionCofactorVariableIVX963SHA512AESGCM => NamesakeRow12();
    case ECIESEncryptionCofactorX963SHA1AESGCM => NamesakeRow13();
    case ECIESEncryptionCofactorX963SHA224AESGCM => NamesakeRow14();
    case ECIESEncryptionCofactorX963SHA256AESGCM => NamesakeRow15();
    case ECIESEncryptionCofactorX963SHA384AESGCM => NamesakeRow16();
    case ECIESEncryptionCofactorX963SHA512AESGCM => NamesakeRow17();
    case ECDSASignatureRFC4754 => NamesakeRow18();
    case ECDSASignatureDigestX962 => NamesakeRow19();
    case ECDSASignatureDigestX962SHA1 => NamesakeRow20();
    case ECDSASignatureDigestX962SHA224 => NamesakeRow21();
    case ECDSASignatureDigestX962SHA256 => NamesakeRow22();
    case ECDSASignatureDigestX962SHA384 => NamesakeRow23();
    case ECDSASignatureDigestX962SHA512 => NamesakeRow24();
    case ECDSASignatureMessageX962SHA1 => NamesakeRow25();
    case ECDSASignatureMessageX962SHA224 => NamesakeRow26();
    case ECDSASignatureMessageX962SHA256 => NamesakeRow27();
    case ECDSASignatureMessageX962SHA384 => NamesakeRow28();
    case ECDSASignatureMessageX962SHA512 => NamesakeRow29();
    case ECDHKeyExchangeCofactor => NamesakeRow30();
    case ECDHKeyExchangeStandard => NamesakeRow31();
    case ECDHKeyExchangeCofactorX963SHA1 => NamesakeRow32();
    case ECDHKeyExchangeStandardX963SHA1 => NamesakeRow33();
    case ECDHKeyExchangeCofactorX963SHA224 => NamesakeRow34();
    case ECDHKeyExchangeCofactorX963SHA256 => NamesakeRow35();
    case ECDHKeyExchangeCofactorX963SHA384 => NamesakeRow36();
    case ECDHKeyExchangeCofactorX963SHA512 => NamesakeRow37();
    case ECDHKeyExchangeStandardX963SHA224 => NamesakeRow38();
    case ECDHKeyExchangeStandardX963SHA256 => NamesakeRow39();
    case ECDHKeyExchangeStandardX963SHA384 => NamesakeRow40();
    case ECDHKeyExchangeStandardX963SHA512 => NamesakeRow41();
    case RSAEncryptionRaw => NamesakeRow42();
    case RSAEncryptionPKCS1 => NamesakeRow43();
    case RSAEncryptionOAEPSHA1 => NamesakeRow44();
    case RSAEncryptionOAEPSHA224 => NamesakeRow45();
    case RSAEncryptionOAEPSHA256 => NamesakeRow46();
    case RSAEncryptionOAEPSHA384 => NamesakeRow47();
    case RSAEncryptionOAEPSHA512 => NamesakeRow48();
    case RSAEncryptionOAEPSHA1AESGCM => NamesakeRow49();
    case RSAEncryptionOAEPSHA224AESGCM => NamesakeRow50();
    case RSAEncryptionOAEPSHA256AESGCM => NamesakeRow51();
    case RSAEncryptionOAEPSHA384AESGCM => NamesakeRow52();
    case RSAEncryptionOAEPSHA512AESGCM => NamesakeRow53();
    case RSASignatureRaw => NamesakeRow54();
    case RSASignatureDigestPKCS1v15Raw => NamesakeRow55();
    case RSASignatureDigestPKCS1v15SHA1 => NamesakeRow56();
    case RSASignatureDigestPKCS1v15SHA224 => NamesakeRow57();
    case RSASignatureDigestPKCS1v15SHA256 => NamesakeRow58();
    case RSASignatureDigestPKCS1v15SHA384 => NamesakeRow59();
    case RSASignatureDigestPKCS1v15SHA512 => NamesakeRow60();
    case RSASignatureMessagePKCS1v15SHA1 => NamesakeRow61();
    case RSASignatureMessagePKCS1v15SHA224 => NamesakeRow62();
    case RSASignatureMessagePKCS1v15SHA256 => NamesakeRow63();
    case RSASignatureMessagePKCS1v15SHA384 => NamesakeRow64();
    case RSASignatureMessagePKCS1v15SHA512 => NamesakeRow65();
    case RSASignatureDigestPSSSHA1 => NamesakeRow66();
    case RSASignatureDigestPSSSHA224 => NamesakeRow67();
    case RSASignatureDigestPSSSHA256 => NamesakeRow68();
    case RSASignatureDigestPSSSHA384 => NamesakeRow69();
    case RSASignatureDigestPSSSHA512 => NamesakeRow70();
    case RSASignatureMessagePSSSHA1 => NamesakeRow71();
    case RSASignatureMessagePSSSHA224 => NamesakeRow72();
    case RSASignatureMessagePSSSHA256 => NamesakeRow73();
    case RSASignatureMessagePSSSHA384 => NamesakeRow74();
    case RSASignatureMessagePSSSHA512 => NamesakeRow75();
  }

  /** `as_CFString` loses nothing: the variant is recovered from its constant. */
  lemma AsCFStringRoundTrip(a: SecKeyAlgorithm)
    ensures VariantOf(AsCFString(a)) == a
  {
    match a
    case ECIESEncryptionStandardX963SHA1AESGCM => Row0();
    case ECIESEncryptionStandardX963SHA224AESGCM => Row1();
    case ECIESEncryptionStandardX963SHA256AESGCM => Row2();
    case ECIESEncryptionStandardX963SHA384AESGCM => Row3();
    case ECIESEncryptionStandardX963SHA512AESGCM => Row4();
    case ECIESEncryptionStandardVariableIVX963SHA224AESGCM => Row5();
    case ECIESEncryptionStandardVariableIVX963SHA256AESGCM => Row6();
    case ECIESEncryptionStandardVariableIVX963SHA384AESGCM => Row7();
    case ECIESEncryptionStandardVariableIVX963SHA512AESGCM => Row8();
    case ECIESEncryptionCofactorVariableIVX963SHA224AESGCM => Row9();
    case ECIESEncryptionCofactorVariableIVX963SHA256AESGCM => Row10();
    case ECIESEncryptionCofactorVariableIVX963SHA384AESGCM => Row11();
    case ECIESEncryptionCofactorVariableIVX963SHA512AESGCM => Row12();
    case ECIESEncryptionCofactorX963SHA1AESGCM => Row13();
    case ECIESEncryptionCofactorX963SHA224AESGCM => Row14();
    case ECIESEncryptionCofactorX963SHA256AESGCM => Row15();
    case ECIESEncryptionCofactorX963SHA384AESGCM => Row16();
    case ECIESEncryptionCofactorX963SHA512AESGCM => Row17();
    case ECDSASignatureRFC4754 => Row18();
    case ECDSASignatureDigestX962 => Row19();
    case ECDSASignatureDigestX962SHA1 => Row20();
    case ECDSASignatureDigestX962SHA224 => Row21();
    case ECDSASignatureDigestX962SHA256 => Row22();
    case ECDSASignatureDigestX962SHA384 => Row23();
    case ECDSASignatureDigestX962SHA512 => Row24();
    case ECDSASignatureMessageX962SHA1 => Row25();
    case ECDSASignatureMessageX962SHA224 => Row26();
    case ECDSASignatureMessageX962SHA256 => Row27();
    case ECDSASignatureMessageX962SHA384 => Row28();
    case ECDSASignatureMessageX962SHA512 => Row29();
    case ECDHKeyExchangeCofactor => Row30();
    case ECDHKeyExchangeStandard => Row31();
    case ECDHKeyExchangeCofactorX963SHA1 => Row32();
    case ECDHKeyExchangeStandardX963SHA1 => Row33();
    case ECDHKeyExchangeCofactorX963SHA224 => Row34();
    case ECDHKeyExchangeCofactorX963SHA256 => Row35();
    case ECDHKeyExchangeCofactorX963SHA384 => Row36();
    case ECDHKeyExchangeCofactorX963SHA512 => Row37();
    case ECDHKeyExchangeStandardX963SHA224 => Row38();
    case ECDHKeyExchangeStandardX963SHA256 => Row39();
    case ECDHKeyExchangeStandardX963SHA384 => Row40();
    case ECDHKeyExchangeStandardX963SHA512 => Row41();
    case RSAEncryptionRaw => Row42();
    case RSAEncryptionPKCS1 => Row43();
    case RSAEncryptionOAEPSHA1 => Row44();
    case RSAEncryptionOAEPSHA224 => Row45();
    case RSAEncryptionOAEPSHA256 => Row46();
    case RSAEncryptionOAEPSHA384 => Row47();
    case RSAEncryptionOAEPSHA512 => Row48();
    case RSAEncryptionOAEPSHA1AESGCM => Row49();
    case RSAEncryptionOAEPSHA224AESGCM => Row50();
    case RSAEncryptionOAEPSHA256AESGCM => Row51();
    case RSAEncryptionOAEPSHA384AESGCM => Row52();
    case RSAEncryptionOAEPSHA512AESGCM => Row53();
    case RSASignatureRaw => Row54();
    case RSASignatureDigestPKCS1v15Raw => Row55();
    case RSASignatureDigestPKCS1v15SHA1 => Row56();
    case RSASignatureDigestPKCS1v15SHA224 => Row57();
    case RSASignatureDigestPKCS1v15SHA256 => Row58();
    case RSASignatureDigestPKCS1v15SHA384 => Row59();
    case RSASignatureDigestPKCS1v15SHA512 => Row60();
    case RSASignatureMessagePKCS1v15SHA1 => Row61();
    case RSASignatureMessagePKCS1v15SHA224 => Row62();
    case RSASignatureMessagePKCS1v15SHA256 => Row63();
    case RSASignatureMessagePKCS1v15SHA384 => Row64();
    case RSASignatureMessagePKCS1v15SHA512 => Row65();
    case RSASignatureDigestPSSSHA1 => Row66();
    case RSASignatureDigestPSSSHA224 => Row67();
    case RSASignatureDigestPSSSHA256 => Row68();
    case RSASignatureDigestPSSSHA384 => Row69();
    case RSASignatureDigestPSSSHA512 => Row70();
    case RSASignatureMessagePSSSHA1 => Row71();
    case RSASignatureMessagePSSSHA224 => Row72();
    case RSASignatureMessagePSSSHA256 => Row73();
    case RSASignatureMessagePSSSHA384 => Row74();
    case RSASignatureMessagePSSSHA512 => Row75();
  }

  /** Distinct variants name distinct constants. */
  lemma AsCFStringInjective(a: SecKeyAlgorithm, b: SecKeyAlgorithm)
    ensures AsCFString(a) == AsCFString(b) <==> a == b
  {
    AsCFStringRoundTrip(a);
    AsCFStringRoundTrip(b);
  }
}
