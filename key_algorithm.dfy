/**
 * Key algorithms of the keychain API (src/key/algorithm.rs): a closed enum
 * and its table of `kSecKeyAlgorithm*` constants.
 */
module KeyAlgorithms {
  import opened Ffi

  /** `KeyAlgorithm`: one variant per `kSecKeyAlgorithm*` constant, named by its suffix. */
  datatype KeyAlgorithm =
    ECIESEncryptionStandardX963SHA1AESGCM
    | ECIESEncryptionStandardX963SHA224AESGCM
    | ECIESEncryptionStandardX963SHA256AESGCM
    | ECIESEncryptionStandardX963SHA384AESGCM
    | ECIESEncryptionStandardX963SHA512AESGCM
    | ECIESEncryptionStandardVariableIVX963SHA224AESGCM
    | ECIESEncryptionStandardVariableIVX963SHA256AESGCM
    | ECIESEncryptionStandardVariableIVX963SHA384AESGCM
    | ECIESEncryptionStandardVariableIVX963SHA512AESGCM
    | ECIESEncryptionCofactorVariableIVX963SHA224AESGCM
    | ECIESEncryptionCofactorVariableIVX963SHA256AESGCM
    | ECIESEncryptionCofactorVariableIVX963SHA384AESGCM
    | ECIESEncryptionCofactorVariableIVX963SHA512AESGCM
    | ECIESEncryptionCofactorX963SHA1AESGCM
    | ECIESEncryptionCofactorX963SHA224AESGCM
    | ECIESEncryptionCofactorX963SHA256AESGCM
    | ECIESEncryptionCofactorX963SHA384AESGCM
    | ECIESEncryptionCofactorX963SHA512AESGCM
    | ECDSASignatureRFC4754
    | ECDSASignatureDigestX962
    | ECDSASignatureDigestX962SHA1
    | ECDSASignatureDigestX962SHA224
    | ECDSASignatureDigestX962SHA256
    | ECDSASignatureDigestX962SHA384
    | ECDSASignatureDigestX962SHA512
    | ECDSASignatureMessageX962SHA1
    | ECDSASignatureMessageX962SHA224
    | ECDSASignatureMessageX962SHA256
    | ECDSASignatureMessageX962SHA384
    | ECDSASignatureMessageX962SHA512
    | ECDHKeyExchangeCofactor
    | ECDHKeyExchangeStandard
    | ECDHKeyExchangeCofactorX963SHA1
    | ECDHKeyExchangeStandardX963SHA1
    | ECDHKeyExchangeCofactorX963SHA224
    | ECDHKeyExchangeCofactorX963SHA256
    | ECDHKeyExchangeCofactorX963SHA384
    | ECDHKeyExchangeCofactorX963SHA512
    | ECDHKeyExchangeStandardX963SHA224
    | ECDHKeyExchangeStandardX963SHA256
    | ECDHKeyExchangeStandardX963SHA384
    | ECDHKeyExchangeStandardX963SHA512
    | RSAEncryptionRaw
    | RSAEncryptionPKCS1
    | RSAEncryptionOAEPSHA1
    | RSAEncryptionOAEPSHA224
    | RSAEncryptionOAEPSHA256
    | RSAEncryptionOAEPSHA384
    | RSAEncryptionOAEPSHA512
    | RSAEncryptionOAEPSHA1AESGCM
    | RSAEncryptionOAEPSHA224AESGCM
    | RSAEncryptionOAEPSHA256AESGCM
    | RSAEncryptionOAEPSHA384AESGCM
    | RSAEncryptionOAEPSHA512AESGCM
    | RSASignatureRaw
    | RSASignatureDigestPKCS1v15Raw
    | RSASignatureDigestPKCS1v15SHA1
    | RSASignatureDigestPKCS1v15SHA224
    | RSASignatureDigestPKCS1v15SHA256
    | RSASignatureDigestPKCS1v15SHA384
    | RSASignatureDigestPKCS1v15SHA512
    | RSASignatureMessagePKCS1v15SHA1
    | RSASignatureMessagePKCS1v15SHA224
    | RSASignatureMessagePKCS1v15SHA256
    | RSASignatureMessagePKCS1v15SHA384
    | RSASignatureMessagePKCS1v15SHA512
    | RSASignatureDigestPSSSHA1
    | RSASignatureDigestPSSSHA224
    | RSASignatureDigestPSSSHA256
    | RSASignatureDigestPSSSHA384
    | RSASignatureDigestPSSSHA512
    | RSASignatureMessagePSSSHA1
    | RSASignatureMessagePSSSHA224
    | RSASignatureMessagePSSSHA256
    | RSASignatureMessagePSSSHA384
    | RSASignatureMessagePSSSHA512

  /** `KeyAlgorithm::as_CFString`: each variant's namesake constant. */
  function AsCFString(a: KeyAlgorithm): AlgorithmConst
  {
    match a
    case ECIESEncryptionStandardX963SHA1AESGCM => kSecKeyAlgorithmECIESEncryptionStandardX963SHA1AESGCM
    case ECIESEncryptionStandardX963SHA224AESGCM => kSecKeyAlgorithmECIESEncryptionStandardX963SHA224AESGCM
    case ECIESEncryptionStandardX963SHA256AESGCM => kSecKeyAlgorithmECIESEncryptionStandardX963SHA256AESGCM
    case ECIESEncryptionStandardX963SHA384AESGCM => kSecKeyAlgorithmECIESEncryptionStandardX963SHA384AESGCM
    case ECIESEncryptionStandardX963SHA512AESGCM => kSecKeyAlgorithmECIESEncryptionStandardX963SHA512AESGCM
    case ECIESEncryptionStandardVariableIVX963SHA224AESGCM => kSecKeyAlgorithmECIESEncryptionStandardVariableIVX963SHA224AESGCM
    case ECIESEncryptionStandardVariableIVX963SHA256AESGCM => kSecKeyAlgorithmECIESEncryptionStandardVariableIVX963SHA256AESGCM
    case ECIESEncryptionStandardVariableIVX963SHA384AESGCM => kSecKeyAlgorithmECIESEncryptionStandardVariableIVX963SHA384AESGCM
    case ECIESEncryptionStandardVariableIVX963SHA512AESGCM => kSecKeyAlgorithmECIESEncryptionStandardVariableIVX963SHA512AESGCM
    case ECIESEncryptionCofactorVariableIVX963SHA224AESGCM => kSecKeyAlgorithmECIESEncryptionCofactorVariableIVX963SHA224AESGCM
    case ECIESEncryptionCofactorVariableIVX963SHA256AESGCM => kSecKeyAlgorithmECIESEncryptionCofactorVariableIVX963SHA256AESGCM
    case ECIESEncryptionCofactorVariableIVX963SHA384AESGCM => kSecKeyAlgorithmECIESEncryptionCofactorVariableIVX963SHA384AESGCM
    case ECIESEncryptionCofactorVariableIVX963SHA512AESGCM => kSecKeyAlgorithmECIESEncryptionCofactorVariableIVX963SHA512AESGCM
    case ECIESEncryptionCofactorX963SHA1AESGCM => kSecKeyAlgorithmECIESEncryptionCofactorX963SHA1AESGCM
    case ECIESEncryptionCofactorX963SHA224AESGCM => kSecKeyAlgorithmECIESEncryptionCofactorX963SHA224AESGCM
    case ECIESEncryptionCofactorX963SHA256AESGCM => kSecKeyAlgorithmECIESEncryptionCofactorX963SHA256AESGCM
    case ECIESEncryptionCofactorX963SHA384AESGCM => kSecKeyAlgorithmECIESEncryptionCofactorX963SHA384AESGCM
    case ECIESEncryptionCofactorX963SHA512AESGCM => kSecKeyAlgorithmECIESEncryptionCofactorX963SHA512AESGCM
    case ECDSASignatureRFC4754 => kSecKeyAlgorithmECDSASignatureRFC4754
    case ECDSASignatureDigestX962 => kSecKeyAlgorithmECDSASignatureDigestX962
    case ECDSASignatureDigestX962SHA1 => kSecKeyAlgorithmECDSASignatureDigestX962SHA1
    case ECDSASignatureDigestX962SHA224 => kSecKeyAlgorithmECDSASignatureDigestX962SHA224
    case ECDSASignatureDigestX962SHA256 => kSecKeyAlgorithmECDSASignatureDigestX962SHA256
    case ECDSASignatureDigestX962SHA384 => kSecKeyAlgorithmECDSASignatureDigestX962SHA384
    case ECDSASignatureDigestX962SHA512 => kSecKeyAlgorithmECDSASignatureDigestX962SHA512
    case ECDSASignatureMessageX962SHA1 => kSecKeyAlgorithmECDSASignatureMessageX962SHA1
    case ECDSASignatureMessageX962SHA224 => kSecKeyAlgorithmECDSASignatureMessageX962SHA224
    case ECDSASignatureMessageX962SHA256 => kSecKeyAlgorithmECDSASignatureMessageX962SHA256
    case ECDSASignatureMessageX962SHA384 => kSecKeyAlgorithmECDSASignatureMessageX962SHA384
    case ECDSASignatureMessageX962SHA512 => kSecKeyAlgorithmECDSASignatureMessageX962SHA512
    case ECDHKeyExchangeCofactor => kSecKeyAlgorithmECDHKeyExchangeCofactor
    case ECDHKeyExchangeStandard => kSecKeyAlgorithmECDHKeyExchangeStandard
    case ECDHKeyExchangeCofactorX963SHA1 => kSecKeyAlgorithmECDHKeyExchangeCofactorX963SHA1
    case ECDHKeyExchangeStandardX963SHA1 => kSecKeyAlgorithmECDHKeyExchangeStandardX963SHA1
    case ECDHKeyExchangeCofactorX963SHA224 => kSecKeyAlgorithmECDHKeyExchangeCofactorX963SHA224
    case ECDHKeyExchangeCofactorX963SHA256 => kSecKeyAlgorithmECDHKeyExchangeCofactorX963SHA256
    case ECDHKeyExchangeCofactorX963SHA384 => kSecKeyAlgorithmECDHKeyExchangeCofactorX963SHA384
    case ECDHKeyExchangeCofactorX963SHA512 => kSecKeyAlgorithmECDHKeyExchangeCofactorX963SHA512
    case ECDHKeyExchangeStandardX963SHA224 => kSecKeyAlgorithmECDHKeyExchangeStandardX963SHA224
    case ECDHKeyExchangeStandardX963SHA256 => kSecKeyAlgorithmECDHKeyExchangeStandardX963SHA256
    case ECDHKeyExchangeStandardX963SHA384 => kSecKeyAlgorithmECDHKeyExchangeStandardX963SHA384
    case ECDHKeyExchangeStandardX963SHA512 => kSecKeyAlgorithmECDHKeyExchangeStandardX963SHA512
    case RSAEncryptionRaw => kSecKeyAlgorithmRSAEncryptionRaw
    case RSAEncryptionPKCS1 => kSecKeyAlgorithmRSAEncryptionPKCS1
    case RSAEncryptionOAEPSHA1 => kSecKeyAlgorithmRSAEncryptionOAEPSHA1
    case RSAEncryptionOAEPSHA224 => kSecKeyAlgorithmRSAEncryptionOAEPSHA224
    case RSAEncryptionOAEPSHA256 => kSecKeyAlgorithmRSAEncryptionOAEPSHA256
    case RSAEncryptionOAEPSHA384 => kSecKeyAlgorithmRSAEncryptionOAEPSHA384
    case RSAEncryptionOAEPSHA512 => kSecKeyAlgorithmRSAEncryptionOAEPSHA512
    case RSAEncryptionOAEPSHA1AESGCM => kSecKeyAlgorithmRSAEncryptionOAEPSHA1AESGCM
    case RSAEncryptionOAEPSHA224AESGCM => kSecKeyAlgorithmRSAEncryptionOAEPSHA224AESGCM
    case RSAEncryptionOAEPSHA256AESGCM => kSecKeyAlgorithmRSAEncryptionOAEPSHA256AESGCM
    case RSAEncryptionOAEPSHA384AESGCM => kSecKeyAlgorithmRSAEncryptionOAEPSHA384AESGCM
    case RSAEncryptionOAEPSHA512AESGCM => kSecKeyAlgorithmRSAEncryptionOAEPSHA512AESGCM
    case RSASignatureRaw => kSecKeyAlgorithmRSASignatureRaw
    case RSASignatureDigestPKCS1v15Raw => kSecKeyAlgorithmRSASignatureDigestPKCS1v15Raw
    case RSASignatureDigestPKCS1v15SHA1 => kSecKeyAlgorithmRSASignatureDigestPKCS1v15SHA1
    case RSASignatureDigestPKCS1v15SHA224 => kSecKeyAlgorithmRSASignatureDigestPKCS1v15SHA224
    case RSASignatureDigestPKCS1v15SHA256 => kSecKeyAlgorithmRSASignatureDigestPKCS1v15SHA256
    case RSASignatureDigestPKCS1v15SHA384 => kSecKeyAlgorithmRSASignatureDigestPKCS1v15SHA384
    case RSASignatureDigestPKCS1v15SHA512 => kSecKeyAlgorithmRSASignatureDigestPKCS1v15SHA512
    case RSASignatureMessagePKCS1v15SHA1 => kSecKeyAlgorithmRSASignatureMessagePKCS1v15SHA1
    case RSASignatureMessagePKCS1v15SHA224 => kSecKeyAlgorithmRSASignatureMessagePKCS1v15SHA224
    case RSASignatureMessagePKCS1v15SHA256 => kSecKeyAlgorithmRSASignatureMessagePKCS1v15SHA256
    case RSASignatureMessagePKCS1v15SHA384 => kSecKeyAlgorithmRSASignatureMessagePKCS1v15SHA384
    case RSASignatureMessagePKCS1v15SHA512 => kSecKeyAlgorithmRSASignatureMessagePKCS1v15SHA512
    case RSASignatureDigestPSSSHA1 => kSecKeyAlgorithmRSASignatureDigestPSSSHA1
    case RSASignatureDigestPSSSHA224 => kSecKeyAlgorithmRSASignatureDigestPSSSHA224
    case RSASignatureDigestPSSSHA256 => kSecKeyAlgorithmRSASignatureDigestPSSSHA256
    case RSASignatureDigestPSSSHA384 => kSecKeyAlgorithmRSASignatureDigestPSSSHA384
    case RSASignatureDigestPSSSHA512 => kSecKeyAlgorithmRSASignatureDigestPSSSHA512
    case RSASignatureMessagePSSSHA1 => kSecKeyAlgorithmRSASignatureMessagePSSSHA1
    case RSASignatureMessagePSSSHA224 => kSecKeyAlgorithmRSASignatureMessagePSSSHA224
    case RSASignatureMessagePSSSHA256 => kSecKeyAlgorithmRSASignatureMessagePSSSHA256
    case RSASignatureMessagePSSSHA384 => kSecKeyAlgorithmRSASignatureMessagePSSSHA384
    case RSASignatureMessagePSSSHA512 => kSecKeyAlgorithmRSASignatureMessagePSSSHA512
  }

  /** The variant a `kSecKeyAlgorithm*` constant names: the inverse of the table. */
  function AlgorithmOf(c: AlgorithmConst): KeyAlgorithm
  {
    match c
    case kSecKeyAlgorithmECIESEncryptionStandardX963SHA1AESGCM => ECIESEncryptionStandardX963SHA1AESGCM
    case kSecKeyAlgorithmECIESEncryptionStandardX963SHA224AESGCM => ECIESEncryptionStandardX963SHA224AESGCM
    case kSecKeyAlgorithmECIESEncryptionStandardX963SHA256AESGCM => ECIESEncryptionStandardX963SHA256AESGCM
    case kSecKeyAlgorithmECIESEncryptionStandardX963SHA384AESGCM => ECIESEncryptionStandardX963SHA384AESGCM
    case kSecKeyAlgorithmECIESEncryptionStandardX963SHA512AESGCM => ECIESEncryptionStandardX963SHA512AESGCM
    case kSecKeyAlgorithmECIESEncryptionStandardVariableIVX963SHA224AESGCM => ECIESEncryptionStandardVariableIVX963SHA224AESGCM
    case kSecKeyAlgorithmECIESEncryptionStandardVariableIVX963SHA256AESGCM => ECIESEncryptionStandardVariableIVX963SHA256AESGCM
    case kSecKeyAlgorithmECIESEncryptionStandardVariableIVX963SHA384AESGCM => ECIESEncryptionStandardVariableIVX963SHA384AESGCM
    case kSecKeyAlgorithmECIESEncryptionStandardVariableIVX963SHA512AESGCM => ECIESEncryptionStandardVariableIVX963SHA512AESGCM
    case kSecKeyAlgorithmECIESEncryptionCofactorVariableIVX963SHA224AESGCM => ECIESEncryptionCofactorVariableIVX963SHA224AESGCM
    case kSecKeyAlgorithmECIESEncryptionCofactorVariableIVX963SHA256AESGCM => ECIESEncryptionCofactorVariableIVX963SHA256AESGCM
    case kSecKeyAlgorithmECIESEncryptionCofactorVariableIVX963SHA384AESGCM => ECIESEncryptionCofactorVariableIVX963SHA384AESGCM
    case kSecKeyAlgorithmECIESEncryptionCofactorVariableIVX963SHA512AESGCM => ECIESEncryptionCofactorVariableIVX963SHA512AESGCM
    case kSecKeyAlgorithmECIESEncryptionCofactorX963SHA1AESGCM => ECIESEncryptionCofactorX963SHA1AESGCM
    case kSecKeyAlgorithmECIESEncryptionCofactorX963SHA224AESGCM => ECIESEncryptionCofactorX963SHA224AESGCM
    case kSecKeyAlgorithmECIESEncryptionCofactorX963SHA256AESGCM => ECIESEncryptionCofactorX963SHA256AESGCM
    case kSecKeyAlgorithmECIESEncryptionCofactorX963SHA384AESGCM => ECIESEncryptionCofactorX963SHA384AESGCM
    case kSecKeyAlgorithmECIESEncryptionCofactorX963SHA512AESGCM => ECIESEncryptionCofactorX963SHA512AESGCM
    case kSecKeyAlgorithmECDSASignatureRFC4754 => ECDSASignatureRFC4754
    case kSecKeyAlgorithmECDSASignatureDigestX962 => ECDSASignatureDigestX962
    case kSecKeyAlgorithmECDSASignatureDigestX962SHA1 => ECDSASignatureDigestX962SHA1
    case kSecKeyAlgorithmECDSASignatureDigestX962SHA224 => ECDSASignatureDigestX962SHA224
    case kSecKeyAlgorithmECDSASignatureDigestX962SHA256 => ECDSASignatureDigestX962SHA256
    case kSecKeyAlgorithmECDSASignatureDigestX962SHA384 => ECDSASignatureDigestX962SHA384
    case kSecKeyAlgorithmECDSASignatureDigestX962SHA512 => ECDSASignatureDigestX962SHA512
    case kSecKeyAlgorithmECDSASignatureMessageX962SHA1 => ECDSASignatureMessageX962SHA1
    case kSecKeyAlgorithmECDSASignatureMessageX962SHA224 => ECDSASignatureMessageX962SHA224
    case kSecKeyAlgorithmECDSASignatureMessageX962SHA256 => ECDSASignatureMessageX962SHA256
    case kSecKeyAlgorithmECDSASignatureMessageX962SHA384 => ECDSASignatureMessageX962SHA384
    case kSecKeyAlgorithmECDSASignatureMessageX962SHA512 => ECDSASignatureMessageX962SHA512
    case kSecKeyAlgorithmECDHKeyExchangeCofactor => ECDHKeyExchangeCofactor
    case kSecKeyAlgorithmECDHKeyExchangeStandard => ECDHKeyExchangeStandard
    case kSecKeyAlgorithmECDHKeyExchangeCofactorX963SHA1 => ECDHKeyExchangeCofactorX963SHA1
    case kSecKeyAlgorithmECDHKeyExchangeStandardX963SHA1 => ECDHKeyExchangeStandardX963SHA1
    case kSecKeyAlgorithmECDHKeyExchangeCofactorX963SHA224 => ECDHKeyExchangeCofactorX963SHA224
    case kSecKeyAlgorithmECDHKeyExchangeCofactorX963SHA256 => ECDHKeyExchangeCofactorX963SHA256
    case kSecKeyAlgorithmECDHKeyExchangeCofactorX963SHA384 => ECDHKeyExchangeCofactorX963SHA384
    case kSecKeyAlgorithmECDHKeyExchangeCofactorX963SHA512 => ECDHKeyExchangeCofactorX963SHA512
    case kSecKeyAlgorithmECDHKeyExchangeStandardX963SHA224 => ECDHKeyExchangeStandardX963SHA224
    case kSecKeyAlgorithmECDHKeyExchangeStandardX963SHA256 => ECDHKeyExchangeStandardX963SHA256
    case kSecKeyAlgorithmECDHKeyExchangeStandardX963SHA384 => ECDHKeyExchangeStandardX963SHA384
    case kSecKeyAlgorithmECDHKeyExchangeStandardX963SHA512 => ECDHKeyExchangeStandardX963SHA512
    case kSecKeyAlgorithmRSAEncryptionRaw => RSAEncryptionRaw
    case kSecKeyAlgorithmRSAEncryptionPKCS1 => RSAEncryptionPKCS1
    case kSecKeyAlgorithmRSAEncryptionOAEPSHA1 => RSAEncryptionOAEPSHA1
    case kSecKeyAlgorithmRSAEncryptionOAEPSHA224 => RSAEncryptionOAEPSHA224
    case kSecKeyAlgorithmRSAEncryptionOAEPSHA256 => RSAEncryptionOAEPSHA256
    case kSecKeyAlgorithmRSAEncryptionOAEPSHA384 => RSAEncryptionOAEPSHA384
    case kSecKeyAlgorithmRSAEncryptionOAEPSHA512 => RSAEncryptionOAEPSHA512
    case kSecKeyAlgorithmRSAEncryptionOAEPSHA1AESGCM => RSAEncryptionOAEPSHA1AESGCM
    case kSecKeyAlgorithmRSAEncryptionOAEPSHA224AESGCM => RSAEncryptionOAEPSHA224AESGCM
    case kSecKeyAlgorithmRSAEncryptionOAEPSHA256AESGCM => RSAEncryptionOAEPSHA256AESGCM
    case kSecKeyAlgorithmRSAEncryptionOAEPSHA384AESGCM => RSAEncryptionOAEPSHA384AESGCM
    case kSecKeyAlgorithmRSAEncryptionOAEPSHA512AESGCM => RSAEncryptionOAEPSHA512AESGCM
    case kSecKeyAlgorithmRSASignatureRaw => RSASignatureRaw
    case kSecKeyAlgorithmRSASignatureDigestPKCS1v15Raw => RSASignatureDigestPKCS1v15Raw
    case kSecKeyAlgorithmRSASignatureDigestPKCS1v15SHA1 => RSASignatureDigestPKCS1v15SHA1
    case kSecKeyAlgorithmRSASignatureDigestPKCS1v15SHA224 => RSASignatureDigestPKCS1v15SHA224
    case kSecKeyAlgorithmRSASignatureDigestPKCS1v15SHA256 => RSASignatureDigestPKCS1v15SHA256
    case kSecKeyAlgorithmRSASignatureDigestPKCS1v15SHA384 => RSASignatureDigestPKCS1v15SHA384
    case kSecKeyAlgorithmRSASignatureDigestPKCS1v15SHA512 => RSASignatureDigestPKCS1v15SHA512
    case kSecKeyAlgorithmRSASignatureMessagePKCS1v15SHA1 => RSASignatureMessagePKCS1v15SHA1
    case kSecKeyAlgorithmRSASignatureMessagePKCS1v15SHA224 => RSASignatureMessagePKCS1v15SHA224
    case kSecKeyAlgorithmRSASignatureMessagePKCS1v15SHA256 => RSASignatureMessagePKCS1v15SHA256
    case kSecKeyAlgorithmRSASignatureMessagePKCS1v15SHA384 => RSASignatureMessagePKCS1v15SHA384
    case kSecKeyAlgorithmRSASignatureMessagePKCS1v15SHA512 => RSASignatureMessagePKCS1v15SHA512
    case kSecKeyAlgorithmRSASignatureDigestPSSSHA1 => RSASignatureDigestPSSSHA1
    case kSecKeyAlgorithmRSASignatureDigestPSSSHA224 => RSASignatureDigestPSSSHA224
    case kSecKeyAlgorithmRSASignatureDigestPSSSHA256 => RSASignatureDigestPSSSHA256
    case kSecKeyAlgorithmRSASignatureDigestPSSSHA384 => RSASignatureDigestPSSSHA384
    case kSecKeyAlgorithmRSASignatureDigestPSSSHA512 => RSASignatureDigestPSSSHA512
    case kSecKeyAlgorithmRSASignatureMessagePSSSHA1 => RSASignatureMessagePSSSHA1
    case kSecKeyAlgorithmRSASignatureMessagePSSSHA224 => RSASignatureMessagePSSSHA224
    case kSecKeyAlgorithmRSASignatureMessagePSSSHA256 => RSASignatureMessagePSSSHA256
    case kSecKeyAlgorithmRSASignatureMessagePSSSHA384 => RSASignatureMessagePSSSHA384
    case kSecKeyAlgorithmRSASignatureMessagePSSSHA512 => RSASignatureMessagePSSSHA512
  }

  /** The five algorithm families, by the leading words of their names. */
  datatype Family = ECIESEncryption | ECDSASignature | ECDHKeyExchange | RSAEncryption | RSASignature

  /** The family a variant's name places it in. */
  function FamilyOf(a: KeyAlgorithm): Family
  {
    match a
    case ECIESEncryptionStandardX963SHA1AESGCM | ECIESEncryptionStandardX963SHA224AESGCM | ECIESEncryptionStandardX963SHA256AESGCM | ECIESEncryptionStandardX963SHA384AESGCM | ECIESEncryptionStandardX963SHA512AESGCM | ECIESEncryptionStandardVariableIVX963SHA224AESGCM | ECIESEncryptionStandardVariableIVX963SHA256AESGCM | ECIESEncryptionStandardVariableIVX963SHA384AESGCM | ECIESEncryptionStandardVariableIVX963SHA512AESGCM | ECIESEncryptionCofactorVariableIVX963SHA224AESGCM | ECIESEncryptionCofactorVariableIVX963SHA256AESGCM | ECIESEncryptionCofactorVariableIVX963SHA384AESGCM | ECIESEncryptionCofactorVariableIVX963SHA512AESGCM | ECIESEncryptionCofactorX963SHA1AESGCM | ECIESEncryptionCofactorX963SHA224AESGCM | ECIESEncryptionCofactorX963SHA256AESGCM | ECIESEncryptionCofactorX963SHA384AESGCM | ECIESEncryptionCofactorX963SHA512AESGCM => ECIESEncryption
    case ECDSASignatureRFC4754 | ECDSASignatureDigestX962 | ECDSASignatureDigestX962SHA1 | ECDSASignatureDigestX962SHA224 | ECDSASignatureDigestX962SHA256 | ECDSASignatureDigestX962SHA384 | ECDSASignatureDigestX962SHA512 | ECDSASignatureMessageX962SHA1 | ECDSASignatureMessageX962SHA224 | ECDSASignatureMessageX962SHA256 | ECDSASignatureMessageX962SHA384 | ECDSASignatureMessageX962SHA512 => ECDSASignature
    case ECDHKeyExchangeCofactor | ECDHKeyExchangeStandard | ECDHKeyExchangeCofactorX963SHA1 | ECDHKeyExchangeStandardX963SHA1 | ECDHKeyExchangeCofactorX963SHA224 | ECDHKeyExchangeCofactorX963SHA256 | ECDHKeyExchangeCofactorX963SHA384 | ECDHKeyExchangeCofactorX963SHA512 | ECDHKeyExchangeStandardX963SHA224 | ECDHKeyExchangeStandardX963SHA256 | ECDHKeyExchangeStandardX963SHA384 | ECDHKeyExchangeStandardX963SHA512 => ECDHKeyExchange
    case RSAEncryptionRaw | RSAEncryptionPKCS1 | RSAEncryptionOAEPSHA1 | RSAEncryptionOAEPSHA224 | RSAEncryptionOAEPSHA256 | RSAEncryptionOAEPSHA384 | RSAEncryptionOAEPSHA512 | RSAEncryptionOAEPSHA1AESGCM | RSAEncryptionOAEPSHA224AESGCM | RSAEncryptionOAEPSHA256AESGCM | RSAEncryptionOAEPSHA384AESGCM | RSAEncryptionOAEPSHA512AESGCM => RSAEncryption
    case RSASignatureRaw | RSASignatureDigestPKCS1v15Raw | RSASignatureDigestPKCS1v15SHA1 | RSASignatureDigestPKCS1v15SHA224 | RSASignatureDigestPKCS1v15SHA256 | RSASignatureDigestPKCS1v15SHA384 | RSASignatureDigestPKCS1v15SHA512 | RSASignatureMessagePKCS1v15SHA1 | RSASignatureMessagePKCS1v15SHA224 | RSASignatureMessagePKCS1v15SHA256 | RSASignatureMessagePKCS1v15SHA384 | RSASignatureMessagePKCS1v15SHA512 | RSASignatureDigestPSSSHA1 | RSASignatureDigestPSSSHA224 | RSASignatureDigestPSSSHA256 | RSASignatureDigestPSSSHA384 | RSASignatureDigestPSSSHA512 | RSASignatureMessagePSSSHA1 | RSASignatureMessagePSSSHA224 | RSASignatureMessagePSSSHA256 | RSASignatureMessagePSSSHA384 | RSASignatureMessagePSSSHA512 => RSASignature
  }

  /** The family a constant's name places it in. */
  function ConstFamily(c: AlgorithmConst): Family
  {
    match c
    case kSecKeyAlgorithmECIESEncryptionStandardX963SHA1AESGCM | kSecKeyAlgorithmECIESEncryptionStandardX963SHA224AESGCM | kSecKeyAlgorithmECIESEncryptionStandardX963SHA256AESGCM | kSecKeyAlgorithmECIESEncryptionStandardX963SHA384AESGCM | kSecKeyAlgorithmECIESEncryptionStandardX963SHA512AESGCM | kSecKeyAlgorithmECIESEncryptionStandardVariableIVX963SHA224AESGCM | kSecKeyAlgorithmECIESEncryptionStandardVariableIVX963SHA256AESGCM | kSecKeyAlgorithmECIESEncryptionStandardVariableIVX963SHA384AESGCM | kSecKeyAlgorithmECIESEncryptionStandardVariableIVX963SHA512AESGCM | kSecKeyAlgorithmECIESEncryptionCofactorVariableIVX963SHA224AESGCM | kSecKeyAlgorithmECIESEncryptionCofactorVariableIVX963SHA256AESGCM | kSecKeyAlgorithmECIESEncryptionCofactorVariableIVX963SHA384AESGCM | kSecKeyAlgorithmECIESEncryptionCofactorVariableIVX963SHA512AESGCM | kSecKeyAlgorithmECIESEncryptionCofactorX963SHA1AESGCM | kSecKeyAlgorithmECIESEncryptionCofactorX963SHA224AESGCM | kSecKeyAlgorithmECIESEncryptionCofactorX963SHA256AESGCM | kSecKeyAlgorithmECIESEncryptionCofactorX963SHA384AESGCM | kSecKeyAlgorithmECIESEncryptionCofactorX963SHA512AESGCM => ECIESEncryption
    case kSecKeyAlgorithmECDSASignatureRFC4754 | kSecKeyAlgorithmECDSASignatureDigestX962 | kSecKeyAlgorithmECDSASignatureDigestX962SHA1 | kSecKeyAlgorithmECDSASignatureDigestX962SHA224 | kSecKeyAlgorithmECDSASignatureDigestX962SHA256 | kSecKeyAlgorithmECDSASignatureDigestX962SHA384 | kSecKeyAlgorithmECDSASignatureDigestX962SHA512 | kSecKeyAlgorithmECDSASignatureMessageX962SHA1 | kSecKeyAlgorithmECDSASignatureMessageX962SHA224 | kSecKeyAlgorithmECDSASignatureMessageX962SHA256 | kSecKeyAlgorithmECDSASignatureMessageX962SHA384 | kSecKeyAlgorithmECDSASignatureMessageX962SHA512 => ECDSASignature
    case kSecKeyAlgorithmECDHKeyExchangeCofactor | kSecKeyAlgorithmECDHKeyExchangeStandard | kSecKeyAlgorithmECDHKeyExchangeCofactorX963SHA1 | kSecKeyAlgorithmECDHKeyExchangeStandardX963SHA1 | kSecKeyAlgorithmECDHKeyExchangeCofactorX963SHA224 | kSecKeyAlgorithmECDHKeyExchangeCofactorX963SHA256 | kSecKeyAlgorithmECDHKeyExchangeCofactorX963SHA384 | kSecKeyAlgorithmECDHKeyExchangeCofactorX963SHA512 | kSecKeyAlgorithmECDHKeyExchangeStandardX963SHA224 | kSecKeyAlgorithmECDHKeyExchangeStandardX963SHA256 | kSecKeyAlgorithmECDHKeyExchangeStandardX963SHA384 | kSecKeyAlgorithmECDHKeyExchangeStandardX963SHA512 => ECDHKeyExchange
    case kSecKeyAlgorithmRSAEncryptionRaw | kSecKeyAlgorithmRSAEncryptionPKCS1 | kSecKeyAlgorithmRSAEncryptionOAEPSHA1 | kSecKeyAlgorithmRSAEncryptionOAEPSHA224 | kSecKeyAlgorithmRSAEncryptionOAEPSHA256 | kSecKeyAlgorithmRSAEncryptionOAEPSHA384 | kSecKeyAlgorithmRSAEncryptionOAEPSHA512 | kSecKeyAlgorithmRSAEncryptionOAEPSHA1AESGCM | kSecKeyAlgorithmRSAEncryptionOAEPSHA224AESGCM | kSecKeyAlgorithmRSAEncryptionOAEPSHA256AESGCM | kSecKeyAlgorithmRSAEncryptionOAEPSHA384AESGCM | kSecKeyAlgorithmRSAEncryptionOAEPSHA512AESGCM => RSAEncryption
    case kSecKeyAlgorithmRSASignatureRaw | kSecKeyAlgorithmRSASignatureDigestPKCS1v15Raw | kSecKeyAlgorithmRSASignatureDigestPKCS1v15SHA1 | kSecKeyAlgorithmRSASignatureDigestPKCS1v15SHA224 | kSecKeyAlgorithmRSASignatureDigestPKCS1v15SHA256 | kSecKeyAlgorithmRSASignatureDigestPKCS1v15SHA384 | kSecKeyAlgorithmRSASignatureDigestPKCS1v15SHA512 | kSecKeyAlgorithmRSASignatureMessagePKCS1v15SHA1 | kSecKeyAlgorithmRSASignatureMessagePKCS1v15SHA224 | kSecKeyAlgorithmRSASignatureMessagePKCS1v15SHA256 | kSecKeyAlgorithmRSASignatureMessagePKCS1v15SHA384 | kSecKeyAlgorithmRSASignatureMessagePKCS1v15SHA512 | kSecKeyAlgorithmRSASignatureDigestPSSSHA1 | kSecKeyAlgorithmRSASignatureDigestPSSSHA224 | kSecKeyAlgorithmRSASignatureDigestPSSSHA256 | kSecKeyAlgorithmRSASignatureDigestPSSSHA384 | kSecKeyAlgorithmRSASignatureDigestPSSSHA512 | kSecKeyAlgorithmRSASignatureMessagePSSSHA1 | kSecKeyAlgorithmRSASignatureMessagePSSSHA224 | kSecKeyAlgorithmRSASignatureMessagePSSSHA256 | kSecKeyAlgorithmRSASignatureMessagePSSSHA384 | kSecKeyAlgorithmRSASignatureMessagePSSSHA512 => RSASignature
  }

  /*
   * One row of the tables per lemma: the constant a variant maps to, the
   * variant that constant names, and the family of each. Every universal
   * property below goes case by case through these rows; each row is its
   * own small proof.
   */

  lemma Row0()
    ensures AsCFString(ECIESEncryptionStandardX963SHA1AESGCM) == kSecKeyAlgorithmECIESEncryptionStandardX963SHA1AESGCM && AlgorithmOf(kSecKeyAlgorithmECIESEncryptionStandardX963SHA1AESGCM) == ECIESEncryptionStandardX963SHA1AESGCM
    ensures FamilyOf(ECIESEncryptionStandardX963SHA1AESGCM) == ECIESEncryption && ConstFamily(kSecKeyAlgorithmECIESEncryptionStandardX963SHA1AESGCM) == ECIESEncryption
  {
  }

  lemma Row1()
    ensures AsCFString(ECIESEncryptionStandardX963SHA224AESGCM) == kSecKeyAlgorithmECIESEncryptionStandardX963SHA224AESGCM && AlgorithmOf(kSecKeyAlgorithmECIESEncryptionStandardX963SHA224AESGCM) == ECIESEncryptionStandardX963SHA224AESGCM
    ensures FamilyOf(ECIESEncryptionStandardX963SHA224AESGCM) == ECIESEncryption && ConstFamily(kSecKeyAlgorithmECIESEncryptionStandardX963SHA224AESGCM) == ECIESEncryption
  {
  }

  lemma Row2()
    ensures AsCFString(ECIESEncryptionStandardX963SHA256AESGCM) == kSecKeyAlgorithmECIESEncryptionStandardX963SHA256AESGCM && AlgorithmOf(kSecKeyAlgorithmECIESEncryptionStandardX963SHA256AESGCM) == ECIESEncryptionStandardX963SHA256AESGCM
    ensures FamilyOf(ECIESEncryptionStandardX963SHA256AESGCM) == ECIESEncryption && ConstFamily(kSecKeyAlgorithmECIESEncryptionStandardX963SHA256AESGCM) == ECIESEncryption
  {
  }

  lemma Row3()
    ensures AsCFString(ECIESEncryptionStandardX963SHA384AESGCM) == kSecKeyAlgorithmECIESEncryptionStandardX963SHA384AESGCM && AlgorithmOf(kSecKeyAlgorithmECIESEncryptionStandardX963SHA384AESGCM) == ECIESEncryptionStandardX963SHA384AESGCM
    ensures FamilyOf(ECIESEncryptionStandardX963SHA384AESGCM) == ECIESEncryption && ConstFamily(kSecKeyAlgorithmECIESEncryptionStandardX963SHA384AESGCM) == ECIESEncryption
  {
  }

  lemma Row4()
    ensures AsCFString(ECIESEncryptionStandardX963SHA512AESGCM) == kSecKeyAlgorithmECIESEncryptionStandardX963SHA512AESGCM && AlgorithmOf(kSecKeyAlgorithmECIESEncryptionStandardX963SHA512AESGCM) == ECIESEncryptionStandardX963SHA512AESGCM
    ensures FamilyOf(ECIESEncryptionStandardX963SHA512AESGCM) == ECIESEncryption && ConstFamily(kSecKeyAlgorithmECIESEncryptionStandardX963SHA512AESGCM) == ECIESEncryption
  {
  }

  lemma Row5()
    ensures AsCFString(ECIESEncryptionStandardVariableIVX963SHA224AESGCM) == kSecKeyAlgorithmECIESEncryptionStandardVariableIVX963SHA224AESGCM && AlgorithmOf(kSecKeyAlgorithmECIESEncryptionStandardVariableIVX963SHA224AESGCM) == ECIESEncryptionStandardVariableIVX963SHA224AESGCM
    ensures FamilyOf(ECIESEncryptionStandardVariableIVX963SHA224AESGCM) == ECIESEncryption && ConstFamily(kSecKeyAlgorithmECIESEncryptionStandardVariableIVX963SHA224AESGCM) == ECIESEncryption
  {
  }

  lemma Row6()
    ensures AsCFString(ECIESEncryptionStandardVariableIVX963SHA256AESGCM) == kSecKeyAlgorithmECIESEncryptionStandardVariableIVX963SHA256AESGCM && AlgorithmOf(kSecKeyAlgorithmECIESEncryptionStandardVariableIVX963SHA256AESGCM) == ECIESEncryptionStandardVariableIVX963SHA256AESGCM
    ensures FamilyOf(ECIESEncryptionStandardVariableIVX963SHA256AESGCM) == ECIESEncryption && ConstFamily(kSecKeyAlgorithmECIESEncryptionStandardVariableIVX963SHA256AESGCM) == ECIESEncryption
  {
  }

  lemma Row7()
    ensures AsCFString(ECIESEncryptionStandardVariableIVX963SHA384AESGCM) == kSecKeyAlgorithmECIESEncryptionStandardVariableIVX963SHA384AESGCM && AlgorithmOf(kSecKeyAlgorithmECIESEncryptionStandardVariableIVX963SHA384AESGCM) == ECIESEncryptionStandardVariableIVX963SHA384AESGCM
    ensures FamilyOf(ECIESEncryptionStandardVariableIVX963SHA384AESGCM) == ECIESEncryption && ConstFamily(kSecKeyAlgorithmECIESEncryptionStandardVariableIVX963SHA384AESGCM) == ECIESEncryption
  {
  }

  lemma Row8()
    ensures AsCFString(ECIESEncryptionStandardVariableIVX963SHA512AESGCM) == kSecKeyAlgorithmECIESEncryptionStandardVariableIVX963SHA512AESGCM && AlgorithmOf(kSecKeyAlgorithmECIESEncryptionStandardVariableIVX963SHA512AESGCM) == ECIESEncryptionStandardVariableIVX963SHA512AESGCM
    ensures FamilyOf(ECIESEncryptionStandardVariableIVX963SHA512AESGCM) == ECIESEncryption && ConstFamily(kSecKeyAlgorithmECIESEncryptionStandardVariableIVX963SHA512AESGCM) == ECIESEncryption
  {
  }

  lemma Row9()
    ensures AsCFString(ECIESEncryptionCofactorVariableIVX963SHA224AESGCM) == kSecKeyAlgorithmECIESEncryptionCofactorVariableIVX963SHA224AESGCM && AlgorithmOf(kSecKeyAlgorithmECIESEncryptionCofactorVariableIVX963SHA224AESGCM) == ECIESEncryptionCofactorVariableIVX963SHA224AESGCM
    ensures FamilyOf(ECIESEncryptionCofactorVariableIVX963SHA224AESGCM) == ECIESEncryption && ConstFamily(kSecKeyAlgorithmECIESEncryptionCofactorVariableIVX963SHA224AESGCM) == ECIESEncryption
  {
  }

  lemma Row10()
    ensures AsCFString(ECIESEncryptionCofactorVariableIVX963SHA256AESGCM) == kSecKeyAlgorithmECIESEncryptionCofactorVariableIVX963SHA256AESGCM && AlgorithmOf(kSecKeyAlgorithmECIESEncryptionCofactorVariableIVX963SHA256AESGCM) == ECIESEncryptionCofactorVariableIVX963SHA256AESGCM
    ensures FamilyOf(ECIESEncryptionCofactorVariableIVX963SHA256AESGCM) == ECIESEncryption && ConstFamily(kSecKeyAlgorithmECIESEncryptionCofactorVariableIVX963SHA256AESGCM) == ECIESEncryption
  {
  }

  lemma Row11()
    ensures AsCFString(ECIESEncryptionCofactorVariableIVX963SHA384AESGCM) == kSecKeyAlgorithmECIESEncryptionCofactorVariableIVX963SHA384AESGCM && AlgorithmOf(kSecKeyAlgorithmECIESEncryptionCofactorVariableIVX963SHA384AESGCM) == ECIESEncryptionCofactorVariableIVX963SHA384AESGCM
    ensures FamilyOf(ECIESEncryptionCofactorVariableIVX963SHA384AESGCM) == ECIESEncryption && ConstFamily(kSecKeyAlgorithmECIESEncryptionCofactorVariableIVX963SHA384AESGCM) == ECIESEncryption
  {
  }

  lemma Row12()
    ensures AsCFString(ECIESEncryptionCofactorVariableIVX963SHA512AESGCM) == kSecKeyAlgorithmECIESEncryptionCofactorVariableIVX963SHA512AESGCM && AlgorithmOf(kSecKeyAlgorithmECIESEncryptionCofactorVariableIVX963SHA512AESGCM) == ECIESEncryptionCofactorVariableIVX963SHA512AESGCM
    ensures FamilyOf(ECIESEncryptionCofactorVariableIVX963SHA512AESGCM) == ECIESEncryption && ConstFamily(kSecKeyAlgorithmECIESEncryptionCofactorVariableIVX963SHA512AESGCM) == ECIESEncryption
  {
  }

  lemma Row13()
    ensures AsCFString(ECIESEncryptionCofactorX963SHA1AESGCM) == kSecKeyAlgorithmECIESEncryptionCofactorX963SHA1AESGCM && AlgorithmOf(kSecKeyAlgorithmECIESEncryptionCofactorX963SHA1AESGCM) == ECIESEncryptionCofactorX963SHA1AESGCM
    ensures FamilyOf(ECIESEncryptionCofactorX963SHA1AESGCM) == ECIESEncryption && ConstFamily(kSecKeyAlgorithmECIESEncryptionCofactorX963SHA1AESGCM) == ECIESEncryption
  {
  }

  lemma Row14()
    ensures AsCFString(ECIESEncryptionCofactorX963SHA224AESGCM) == kSecKeyAlgorithmECIESEncryptionCofactorX963SHA224AESGCM && AlgorithmOf(kSecKeyAlgorithmECIESEncryptionCofactorX963SHA224AESGCM) == ECIESEncryptionCofactorX963SHA224AESGCM
    ensures FamilyOf(ECIESEncryptionCofactorX963SHA224AESGCM) == ECIESEncryption && ConstFamily(kSecKeyAlgorithmECIESEncryptionCofactorX963SHA224AESGCM) == ECIESEncryption
  {
  }

  lemma Row15()
    ensures AsCFString(ECIESEncryptionCofactorX963SHA256AESGCM) == kSecKeyAlgorithmECIESEncryptionCofactorX963SHA256AESGCM && AlgorithmOf(kSecKeyAlgorithmECIESEncryptionCofactorX963SHA256AESGCM) == ECIESEncryptionCofactorX963SHA256AESGCM
    ensures FamilyOf(ECIESEncryptionCofactorX963SHA256AESGCM) == ECIESEncryption && ConstFamily(kSecKeyAlgorithmECIESEncryptionCofactorX963SHA256AESGCM) == ECIESEncryption
  {
  }

  lemma Row16()
    ensures AsCFString(ECIESEncryptionCofactorX963SHA384AESGCM) == kSecKeyAlgorithmECIESEncryptionCofactorX963SHA384AESGCM && AlgorithmOf(kSecKeyAlgorithmECIESEncryptionCofactorX963SHA384AESGCM) == ECIESEncryptionCofactorX963SHA384AESGCM
    ensures FamilyOf(ECIESEncryptionCofactorX963SHA384AESGCM) == ECIESEncryption && ConstFamily(kSecKeyAlgorithmECIESEncryptionCofactorX963SHA384AESGCM) == ECIESEncryption
  {
  }

  lemma Row17()
    ensures AsCFString(ECIESEncryptionCofactorX963SHA512AESGCM) == kSecKeyAlgorithmECIESEncryptionCofactorX963SHA512AESGCM && AlgorithmOf(kSecKeyAlgorithmECIESEncryptionCofactorX963SHA512AESGCM) == ECIESEncryptionCofactorX963SHA512AESGCM
    ensures FamilyOf(ECIESEncryptionCofactorX963SHA512AESGCM) == ECIESEncryption && ConstFamily(kSecKeyAlgorithmECIESEncryptionCofactorX963SHA512AESGCM) == ECIESEncryption
  {
  }

  lemma Row18()
    ensures AsCFString(ECDSASignatureRFC4754) == kSecKeyAlgorithmECDSASignatureRFC4754 && AlgorithmOf(kSecKeyAlgorithmECDSASignatureRFC4754) == ECDSASignatureRFC4754
    ensures FamilyOf(ECDSASignatureRFC4754) == ECDSASignature && ConstFamily(kSecKeyAlgorithmECDSASignatureRFC4754) == ECDSASignature
  {
  }

  lemma Row19()
    ensures AsCFString(ECDSASignatureDigestX962) == kSecKeyAlgorithmECDSASignatureDigestX962 && AlgorithmOf(kSecKeyAlgorithmECDSASignatureDigestX962) == ECDSASignatureDigestX962
    ensures FamilyOf(ECDSASignatureDigestX962) == ECDSASignature && ConstFamily(kSecKeyAlgorithmECDSASignatureDigestX962) == ECDSASignature
  {
  }

  lemma Row20()
    ensures AsCFString(ECDSASignatureDigestX962SHA1) == kSecKeyAlgorithmECDSASignatureDigestX962SHA1 && AlgorithmOf(kSecKeyAlgorithmECDSASignatureDigestX962SHA1) == ECDSASignatureDigestX962SHA1
    ensures FamilyOf(ECDSASignatureDigestX962SHA1) == ECDSASignature && ConstFamily(kSecKeyAlgorithmECDSASignatureDigestX962SHA1) == ECDSASignature
  {
  }

  lemma Row21()
    ensures AsCFString(ECDSASignatureDigestX962SHA224) == kSecKeyAlgorithmECDSASignatureDigestX962SHA224 && AlgorithmOf(kSecKeyAlgorithmECDSASignatureDigestX962SHA224) == ECDSASignatureDigestX962SHA224
    ensures FamilyOf(ECDSASignatureDigestX962SHA224) == ECDSASignature && ConstFamily(kSecKeyAlgorithmECDSASignatureDigestX962SHA224) == ECDSASignature
  {
  }

  lemma Row22()
    ensures AsCFString(ECDSASignatureDigestX962SHA256) == kSecKeyAlgorithmECDSASignatureDigestX962SHA256 && AlgorithmOf(kSecKeyAlgorithmECDSASignatureDigestX962SHA256) == ECDSASignatureDigestX962SHA256
    ensures FamilyOf(ECDSASignatureDigestX962SHA256) == ECDSASignature && ConstFamily(kSecKeyAlgorithmECDSASignatureDigestX962SHA256) == ECDSASignature
  {
  }

  lemma Row23()
    ensures AsCFString(ECDSASignatureDigestX962SHA384) == kSecKeyAlgorithmECDSASignatureDigestX962SHA384 && AlgorithmOf(kSecKeyAlgorithmECDSASignatureDigestX962SHA384) == ECDSASignatureDigestX962SHA384
    ensures FamilyOf(ECDSASignatureDigestX962SHA384) == ECDSASignature && ConstFamily(kSecKeyAlgorithmECDSASignatureDigestX962SHA384) == ECDSASignature
  {
  }

  lemma Row24()
    ensures AsCFString(ECDSASignatureDigestX962SHA512) == kSecKeyAlgorithmECDSASignatureDigestX962SHA512 && AlgorithmOf(kSecKeyAlgorithmECDSASignatureDigestX962SHA512) == ECDSASignatureDigestX962SHA512
    ensures FamilyOf(ECDSASignatureDigestX962SHA512) == ECDSASignature && ConstFamily(kSecKeyAlgorithmECDSASignatureDigestX962SHA512) == ECDSASignature
  {
  }

  lemma Row25()
    ensures AsCFString(ECDSASignatureMessageX962SHA1) == kSecKeyAlgorithmECDSASignatureMessageX962SHA1 && AlgorithmOf(kSecKeyAlgorithmECDSASignatureMessageX962SHA1) == ECDSASignatureMessageX962SHA1
    ensures FamilyOf(ECDSASignatureMessageX962SHA1) == ECDSASignature && ConstFamily(kSecKeyAlgorithmECDSASignatureMessageX962SHA1) == ECDSASignature
  {
  }

  lemma Row26()
    ensures AsCFString(ECDSASignatureMessageX962SHA224) == kSecKeyAlgorithmECDSASignatureMessageX962SHA224 && AlgorithmOf(kSecKeyAlgorithmECDSASignatureMessageX962SHA224) == ECDSASignatureMessageX962SHA224
    ensures FamilyOf(ECDSASignatureMessageX962SHA224) == ECDSASignature && ConstFamily(kSecKeyAlgorithmECDSASignatureMessageX962SHA224) == ECDSASignature
  {
  }

  lemma Row27()
    ensures AsCFString(ECDSASignatureMessageX962SHA256) == kSecKeyAlgorithmECDSASignatureMessageX962SHA256 && AlgorithmOf(kSecKeyAlgorithmECDSASignatureMessageX962SHA256) == ECDSASignatureMessageX962SHA256
    ensures FamilyOf(ECDSASignatureMessageX962SHA256) == ECDSASignature && ConstFamily(kSecKeyAlgorithmECDSASignatureMessageX962SHA256) == ECDSASignature
  {
  }

  lemma Row28()
    ensures AsCFString(ECDSASignatureMessageX962SHA384) == kSecKeyAlgorithmECDSASignatureMessageX962SHA384 && AlgorithmOf(kSecKeyAlgorithmECDSASignatureMessageX962SHA384) == ECDSASignatureMessageX962SHA384
    ensures FamilyOf(ECDSASignatureMessageX962SHA384) == ECDSASignature && ConstFamily(kSecKeyAlgorithmECDSASignatureMessageX962SHA384) == ECDSASignature
  {
  }

  lemma Row29()
    ensures AsCFString(ECDSASignatureMessageX962SHA512) == kSecKeyAlgorithmECDSASignatureMessageX962SHA512 && AlgorithmOf(kSecKeyAlgorithmECDSASignatureMessageX962SHA512) == ECDSASignatureMessageX962SHA512
    ensures FamilyOf(ECDSASignatureMessageX962SHA512) == ECDSASignature && ConstFamily(kSecKeyAlgorithmECDSASignatureMessageX962SHA512) == ECDSASignature
  {
  }

  lemma Row30()
    ensures AsCFString(ECDHKeyExchangeCofactor) == kSecKeyAlgorithmECDHKeyExchangeCofactor && AlgorithmOf(kSecKeyAlgorithmECDHKeyExchangeCofactor) == ECDHKeyExchangeCofactor
    ensures FamilyOf(ECDHKeyExchangeCofactor) == ECDHKeyExchange && ConstFamily(kSecKeyAlgorithmECDHKeyExchangeCofactor) == ECDHKeyExchange
  {
  }

  lemma Row31()
    ensures AsCFString(ECDHKeyExchangeStandard) == kSecKeyAlgorithmECDHKeyExchangeStandard && AlgorithmOf(kSecKeyAlgorithmECDHKeyExchangeStandard) == ECDHKeyExchangeStandard
    ensures FamilyOf(ECDHKeyExchangeStandard) == ECDHKeyExchange && ConstFamily(kSecKeyAlgorithmECDHKeyExchangeStandard) == ECDHKeyExchange
  {
  }

  lemma Row32()
    ensures AsCFString(ECDHKeyExchangeCofactorX963SHA1) == kSecKeyAlgorithmECDHKeyExchangeCofactorX963SHA1 && AlgorithmOf(kSecKeyAlgorithmECDHKeyExchangeCofactorX963SHA1) == ECDHKeyExchangeCofactorX963SHA1
    ensures FamilyOf(ECDHKeyExchangeCofactorX963SHA1) == ECDHKeyExchange && ConstFamily(kSecKeyAlgorithmECDHKeyExchangeCofactorX963SHA1) == ECDHKeyExchange
  {
  }

  lemma Row33()
    ensures AsCFString(ECDHKeyExchangeStandardX963SHA1) == kSecKeyAlgorithmECDHKeyExchangeStandardX963SHA1 && AlgorithmOf(kSecKeyAlgorithmECDHKeyExchangeStandardX963SHA1) == ECDHKeyExchangeStandardX963SHA1
    ensures FamilyOf(ECDHKeyExchangeStandardX963SHA1) == ECDHKeyExchange && ConstFamily(kSecKeyAlgorithmECDHKeyExchangeStandardX963SHA1) == ECDHKeyExchange
  {
  }

  lemma Row34()
    ensures AsCFString(ECDHKeyExchangeCofactorX963SHA224) == kSecKeyAlgorithmECDHKeyExchangeCofactorX963SHA224 && AlgorithmOf(kSecKeyAlgorithmECDHKeyExchangeCofactorX963SHA224) == ECDHKeyExchangeCofactorX963SHA224
    ensures FamilyOf(ECDHKeyExchangeCofactorX963SHA224) == ECDHKeyExchange && ConstFamily(kSecKeyAlgorithmECDHKeyExchangeCofactorX963SHA224) == ECDHKeyExchange
  {
  }

  lemma Row35()
    ensures AsCFString(ECDHKeyExchangeCofactorX963SHA256) == kSecKeyAlgorithmECDHKeyExchangeCofactorX963SHA256 && AlgorithmOf(kSecKeyAlgorithmECDHKeyExchangeCofactorX963SHA256) == ECDHKeyExchangeCofactorX963SHA256
    ensures FamilyOf(ECDHKeyExchangeCofactorX963SHA256) == ECDHKeyExchange && ConstFamily(kSecKeyAlgorithmECDHKeyExchangeCofactorX963SHA256) == ECDHKeyExchange
  {
  }

  lemma Row36()
    ensures AsCFString(ECDHKeyExchangeCofactorX963SHA384) == kSecKeyAlgorithmECDHKeyExchangeCofactorX963SHA384 && AlgorithmOf(kSecKeyAlgorithmECDHKeyExchangeCofactorX963SHA384) == ECDHKeyExchangeCofactorX963SHA384
    ensures FamilyOf(ECDHKeyExchangeCofactorX963SHA384) == ECDHKeyExchange && ConstFamily(kSecKeyAlgorithmECDHKeyExchangeCofactorX963SHA384) == ECDHKeyExchange
  {
  }

  lemma Row37()
    ensures AsCFString(ECDHKeyExchangeCofactorX963SHA512) == kSecKeyAlgorithmECDHKeyExchangeCofactorX963SHA512 && AlgorithmOf(kSecKeyAlgorithmECDHKeyExchangeCofactorX963SHA512) == ECDHKeyExchangeCofactorX963SHA512
    ensures FamilyOf(ECDHKeyExchangeCofactorX963SHA512) == ECDHKeyExchange && ConstFamily(kSecKeyAlgorithmECDHKeyExchangeCofactorX963SHA512) == ECDHKeyExchange
  {
  }

  lemma Row38()
    ensures AsCFString(ECDHKeyExchangeStandardX963SHA224) == kSecKeyAlgorithmECDHKeyExchangeStandardX963SHA224 && AlgorithmOf(kSecKeyAlgorithmECDHKeyExchangeStandardX963SHA224) == ECDHKeyExchangeStandardX963SHA224
    ensures FamilyOf(ECDHKeyExchangeStandardX963SHA224) == ECDHKeyExchange && ConstFamily(kSecKeyAlgorithmECDHKeyExchangeStandardX963SHA224) == ECDHKeyExchange
  {
  }

  lemma Row39()
    ensures AsCFString(ECDHKeyExchangeStandardX963SHA256) == kSecKeyAlgorithmECDHKeyExchangeStandardX963SHA256 && AlgorithmOf(kSecKeyAlgorithmECDHKeyExchangeStandardX963SHA256) == ECDHKeyExchangeStandardX963SHA256
    ensures FamilyOf(ECDHKeyExchangeStandardX963SHA256) == ECDHKeyExchange && ConstFamily(kSecKeyAlgorithmECDHKeyExchangeStandardX963SHA256) == ECDHKeyExchange
  {
  }

  lemma Row40()
    ensures AsCFString(ECDHKeyExchangeStandardX963SHA384) == kSecKeyAlgorithmECDHKeyExchangeStandardX963SHA384 && AlgorithmOf(kSecKeyAlgorithmECDHKeyExchangeStandardX963SHA384) == ECDHKeyExchangeStandardX963SHA384
    ensures FamilyOf(ECDHKeyExchangeStandardX963SHA384) == ECDHKeyExchange && ConstFamily(kSecKeyAlgorithmECDHKeyExchangeStandardX963SHA384) == ECDHKeyExchange
  {
  }

  lemma Row41()
    ensures AsCFString(ECDHKeyExchangeStandardX963SHA512) == kSecKeyAlgorithmECDHKeyExchangeStandardX963SHA512 && AlgorithmOf(kSecKeyAlgorithmECDHKeyExchangeStandardX963SHA512) == ECDHKeyExchangeStandardX963SHA512
    ensures FamilyOf(ECDHKeyExchangeStandardX963SHA512) == ECDHKeyExchange && ConstFamily(kSecKeyAlgorithmECDHKeyExchangeStandardX963SHA512) == ECDHKeyExchange
  {
  }

  lemma Row42()
    ensures AsCFString(RSAEncryptionRaw) == kSecKeyAlgorithmRSAEncryptionRaw && AlgorithmOf(kSecKeyAlgorithmRSAEncryptionRaw) == RSAEncryptionRaw
    ensures FamilyOf(RSAEncryptionRaw) == RSAEncryption && ConstFamily(kSecKeyAlgorithmRSAEncryptionRaw) == RSAEncryption
  {
  }

  lemma Row43()
    ensures AsCFString(RSAEncryptionPKCS1) == kSecKeyAlgorithmRSAEncryptionPKCS1 && AlgorithmOf(kSecKeyAlgorithmRSAEncryptionPKCS1) == RSAEncryptionPKCS1
    ensures FamilyOf(RSAEncryptionPKCS1) == RSAEncryption && ConstFamily(kSecKeyAlgorithmRSAEncryptionPKCS1) == RSAEncryption
  {
  }

  lemma Row44()
    ensures AsCFString(RSAEncryptionOAEPSHA1) == kSecKeyAlgorithmRSAEncryptionOAEPSHA1 && AlgorithmOf(kSecKeyAlgorithmRSAEncryptionOAEPSHA1) == RSAEncryptionOAEPSHA1
    ensures FamilyOf(RSAEncryptionOAEPSHA1) == RSAEncryption && ConstFamily(kSecKeyAlgorithmRSAEncryptionOAEPSHA1) == RSAEncryption
  {
  }

  lemma Row45()
    ensures AsCFString(RSAEncryptionOAEPSHA224) == kSecKeyAlgorithmRSAEncryptionOAEPSHA224 && AlgorithmOf(kSecKeyAlgorithmRSAEncryptionOAEPSHA224) == RSAEncryptionOAEPSHA224
    ensures FamilyOf(RSAEncryptionOAEPSHA224) == RSAEncryption && ConstFamily(kSecKeyAlgorithmRSAEncryptionOAEPSHA224) == RSAEncryption
  {
  }

  lemma Row46()
    ensures AsCFString(RSAEncryptionOAEPSHA256) == kSecKeyAlgorithmRSAEncryptionOAEPSHA256 && AlgorithmOf(kSecKeyAlgorithmRSAEncryptionOAEPSHA256) == RSAEncryptionOAEPSHA256
    ensures FamilyOf(RSAEncryptionOAEPSHA256) == RSAEncryption && ConstFamily(kSecKeyAlgorithmRSAEncryptionOAEPSHA256) == RSAEncryption
  {
  }

  lemma Row47()
    ensures AsCFString(RSAEncryptionOAEPSHA384) == kSecKeyAlgorithmRSAEncryptionOAEPSHA384 && AlgorithmOf(kSecKeyAlgorithmRSAEncryptionOAEPSHA384) == RSAEncryptionOAEPSHA384
    ensures FamilyOf(RSAEncryptionOAEPSHA384) == RSAEncryption && ConstFamily(kSecKeyAlgorithmRSAEncryptionOAEPSHA384) == RSAEncryption
  {
  }

  lemma Row48()
    ensures AsCFString(RSAEncryptionOAEPSHA512) == kSecKeyAlgorithmRSAEncryptionOAEPSHA512 && AlgorithmOf(kSecKeyAlgorithmRSAEncryptionOAEPSHA512) == RSAEncryptionOAEPSHA512
    ensures FamilyOf(RSAEncryptionOAEPSHA512) == RSAEncryption && ConstFamily(kSecKeyAlgorithmRSAEncryptionOAEPSHA512) == RSAEncryption
  {
  }

  lemma Row49()
    ensures AsCFString(RSAEncryptionOAEPSHA1AESGCM) == kSecKeyAlgorithmRSAEncryptionOAEPSHA1AESGCM && AlgorithmOf(kSecKeyAlgorithmRSAEncryptionOAEPSHA1AESGCM) == RSAEncryptionOAEPSHA1AESGCM
    ensures FamilyOf(RSAEncryptionOAEPSHA1AESGCM) == RSAEncryption && ConstFamily(kSecKeyAlgorithmRSAEncryptionOAEPSHA1AESGCM) == RSAEncryption
  {
  }

  lemma Row50()
    ensures AsCFString(RSAEncryptionOAEPSHA224AESGCM) == kSecKeyAlgorithmRSAEncryptionOAEPSHA224AESGCM && AlgorithmOf(kSecKeyAlgorithmRSAEncryptionOAEPSHA224AESGCM) == RSAEncryptionOAEPSHA224AESGCM
    ensures FamilyOf(RSAEncryptionOAEPSHA224AESGCM) == RSAEncryption && ConstFamily(kSecKeyAlgorithmRSAEncryptionOAEPSHA224AESGCM) == RSAEncryption
  {
  }

  lemma Row51()
    ensures AsCFString(RSAEncryptionOAEPSHA256AESGCM) == kSecKeyAlgorithmRSAEncryptionOAEPSHA256AESGCM && AlgorithmOf(kSecKeyAlgorithmRSAEncryptionOAEPSHA256AESGCM) == RSAEncryptionOAEPSHA256AESGCM
    ensures FamilyOf(RSAEncryptionOAEPSHA256AESGCM) == RSAEncryption && ConstFamily(kSecKeyAlgorithmRSAEncryptionOAEPSHA256AESGCM) == RSAEncryption
  {
  }

  lemma Row52()
    ensures AsCFString(RSAEncryptionOAEPSHA384AESGCM) == kSecKeyAlgorithmRSAEncryptionOAEPSHA384AESGCM && AlgorithmOf(kSecKeyAlgorithmRSAEncryptionOAEPSHA384AESGCM) == RSAEncryptionOAEPSHA384AESGCM
    ensures FamilyOf(RSAEncryptionOAEPSHA384AESGCM) == RSAEncryption && ConstFamily(kSecKeyAlgorithmRSAEncryptionOAEPSHA384AESGCM) == RSAEncryption
  {
  }

  lemma Row53()
    ensures AsCFString(RSAEncryptionOAEPSHA512AESGCM) == kSecKeyAlgorithmRSAEncryptionOAEPSHA512AESGCM && AlgorithmOf(kSecKeyAlgorithmRSAEncryptionOAEPSHA512AESGCM) == RSAEncryptionOAEPSHA512AESGCM
    ensures FamilyOf(RSAEncryptionOAEPSHA512AESGCM) == RSAEncryption && ConstFamily(kSecKeyAlgorithmRSAEncryptionOAEPSHA512AESGCM) == RSAEncryption
  {
  }

  lemma Row54()
    ensures AsCFString(RSASignatureRaw) == kSecKeyAlgorithmRSASignatureRaw && AlgorithmOf(kSecKeyAlgorithmRSASignatureRaw) == RSASignatureRaw
    ensures FamilyOf(RSASignatureRaw) == RSASignature && ConstFamily(kSecKeyAlgorithmRSASignatureRaw) == RSASignature
  {
  }

  lemma Row55()
    ensures AsCFString(RSASignatureDigestPKCS1v15Raw) == kSecKeyAlgorithmRSASignatureDigestPKCS1v15Raw && AlgorithmOf(kSecKeyAlgorithmRSASignatureDigestPKCS1v15Raw) == RSASignatureDigestPKCS1v15Raw
    ensures FamilyOf(RSASignatureDigestPKCS1v15Raw) == RSASignature && ConstFamily(kSecKeyAlgorithmRSASignatureDigestPKCS1v15Raw) == RSASignature
  {
  }

  lemma Row56()
    ensures AsCFString(RSASignatureDigestPKCS1v15SHA1) == kSecKeyAlgorithmRSASignatureDigestPKCS1v15SHA1 && AlgorithmOf(kSecKeyAlgorithmRSASignatureDigestPKCS1v15SHA1) == RSASignatureDigestPKCS1v15SHA1
    ensures FamilyOf(RSASignatureDigestPKCS1v15SHA1) == RSASignature && ConstFamily(kSecKeyAlgorithmRSASignatureDigestPKCS1v15SHA1) == RSASignature
  {
  }

  lemma Row57()
    ensures AsCFString(RSASignatureDigestPKCS1v15SHA224) == kSecKeyAlgorithmRSASignatureDigestPKCS1v15SHA224 && AlgorithmOf(kSecKeyAlgorithmRSASignatureDigestPKCS1v15SHA224) == RSASignatureDigestPKCS1v15SHA224
    ensures FamilyOf(RSASignatureDigestPKCS1v15SHA224) == RSASignature && ConstFamily(kSecKeyAlgorithmRSASignatureDigestPKCS1v15SHA224) == RSASignature
  {
  }

  lemma Row58()
    ensures AsCFString(RSASignatureDigestPKCS1v15SHA256) == kSecKeyAlgorithmRSASignatureDigestPKCS1v15SHA256 && AlgorithmOf(kSecKeyAlgorithmRSASignatureDigestPKCS1v15SHA256) == RSASignatureDigestPKCS1v15SHA256
    ensures FamilyOf(RSASignatureDigestPKCS1v15SHA256) == RSASignature && ConstFamily(kSecKeyAlgorithmRSASignatureDigestPKCS1v15SHA256) == RSASignature
  {
  }

  lemma Row59()
    ensures AsCFString(RSASignatureDigestPKCS1v15SHA384) == kSecKeyAlgorithmRSASignatureDigestPKCS1v15SHA384 && AlgorithmOf(kSecKeyAlgorithmRSASignatureDigestPKCS1v15SHA384) == RSASignatureDigestPKCS1v15SHA384
    ensures FamilyOf(RSASignatureDigestPKCS1v15SHA384) == RSASignature && ConstFamily(kSecKeyAlgorithmRSASignatureDigestPKCS1v15SHA384) == RSASignature
  {
  }

  lemma Row60()
    ensures AsCFString(RSASignatureDigestPKCS1v15SHA512) == kSecKeyAlgorithmRSASignatureDigestPKCS1v15SHA512 && AlgorithmOf(kSecKeyAlgorithmRSASignatureDigestPKCS1v15SHA512) == RSASignatureDigestPKCS1v15SHA512
    ensures FamilyOf(RSASignatureDigestPKCS1v15SHA512) == RSASignature && ConstFamily(kSecKeyAlgorithmRSASignatureDigestPKCS1v15SHA512) == RSASignature
  {
  }

  lemma Row61()
    ensures AsCFString(RSASignatureMessagePKCS1v15SHA1) == kSecKeyAlgorithmRSASignatureMessagePKCS1v15SHA1 && AlgorithmOf(kSecKeyAlgorithmRSASignatureMessagePKCS1v15SHA1) == RSASignatureMessagePKCS1v15SHA1
    ensures FamilyOf(RSASignatureMessagePKCS1v15SHA1) == RSASignature && ConstFamily(kSecKeyAlgorithmRSASignatureMessagePKCS1v15SHA1) == RSASignature
  {
  }

  lemma Row62()
    ensures AsCFString(RSASignatureMessagePKCS1v15SHA224) == kSecKeyAlgorithmRSASignatureMessagePKCS1v15SHA224 && AlgorithmOf(kSecKeyAlgorithmRSASignatureMessagePKCS1v15SHA224) == RSASignatureMessagePKCS1v15SHA224
    ensures FamilyOf(RSASignatureMessagePKCS1v15SHA224) == RSASignature && ConstFamily(kSecKeyAlgorithmRSASignatureMessagePKCS1v15SHA224) == RSASignature
  {
  }

  lemma Row63()
    ensures AsCFString(RSASignatureMessagePKCS1v15SHA256) == kSecKeyAlgorithmRSASignatureMessagePKCS1v15SHA256 && AlgorithmOf(kSecKeyAlgorithmRSASignatureMessagePKCS1v15SHA256) == RSASignatureMessagePKCS1v15SHA256
    ensures FamilyOf(RSASignatureMessagePKCS1v15SHA256) == RSASignature && ConstFamily(kSecKeyAlgorithmRSASignatureMessagePKCS1v15SHA256) == RSASignature
  {
  }

  lemma Row64()
    ensures AsCFString(RSASignatureMessagePKCS1v15SHA384) == kSecKeyAlgorithmRSASignatureMessagePKCS1v15SHA384 && AlgorithmOf(kSecKeyAlgorithmRSASignatureMessagePKCS1v15SHA384) == RSASignatureMessagePKCS1v15SHA384
    ensures FamilyOf(RSASignatureMessagePKCS1v15SHA384) == RSASignature && ConstFamily(kSecKeyAlgorithmRSASignatureMessagePKCS1v15SHA384) == RSASignature
  {
  }

  lemma Row65()
    ensures AsCFString(RSASignatureMessagePKCS1v15SHA512) == kSecKeyAlgorithmRSASignatureMessagePKCS1v15SHA512 && AlgorithmOf(kSecKeyAlgorithmRSASignatureMessagePKCS1v15SHA512) == RSASignatureMessagePKCS1v15SHA512
    ensures FamilyOf(RSASignatureMessagePKCS1v15SHA512) == RSASignature && ConstFamily(kSecKeyAlgorithmRSASignatureMessagePKCS1v15SHA512) == RSASignature
  {
  }

  lemma Row66()
    ensures AsCFString(RSASignatureDigestPSSSHA1) == kSecKeyAlgorithmRSASignatureDigestPSSSHA1 && AlgorithmOf(kSecKeyAlgorithmRSASignatureDigestPSSSHA1) == RSASignatureDigestPSSSHA1
    ensures FamilyOf(RSASignatureDigestPSSSHA1) == RSASignature && ConstFamily(kSecKeyAlgorithmRSASignatureDigestPSSSHA1) == RSASignature
  {
  }

  lemma Row67()
    ensures AsCFString(RSASignatureDigestPSSSHA224) == kSecKeyAlgorithmRSASignatureDigestPSSSHA224 && AlgorithmOf(kSecKeyAlgorithmRSASignatureDigestPSSSHA224) == RSASignatureDigestPSSSHA224
    ensures FamilyOf(RSASignatureDigestPSSSHA224) == RSASignature && ConstFamily(kSecKeyAlgorithmRSASignatureDigestPSSSHA224) == RSASignature
  {
  }

  lemma Row68()
    ensures AsCFString(RSASignatureDigestPSSSHA256) == kSecKeyAlgorithmRSASignatureDigestPSSSHA256 && AlgorithmOf(kSecKeyAlgorithmRSASignatureDigestPSSSHA256) == RSASignatureDigestPSSSHA256
    ensures FamilyOf(RSASignatureDigestPSSSHA256) == RSASignature && ConstFamily(kSecKeyAlgorithmRSASignatureDigestPSSSHA256) == RSASignature
  {
  }

  lemma Row69()
    ensures AsCFString(RSASignatureDigestPSSSHA384) == kSecKeyAlgorithmRSASignatureDigestPSSSHA384 && AlgorithmOf(kSecKeyAlgorithmRSASignatureDigestPSSSHA384) == RSASignatureDigestPSSSHA384
    ensures FamilyOf(RSASignatureDigestPSSSHA384) == RSASignature && ConstFamily(kSecKeyAlgorithmRSASignatureDigestPSSSHA384) == RSASignature
  {
  }

  lemma Row70()
    ensures AsCFString(RSASignatureDigestPSSSHA512) == kSecKeyAlgorithmRSASignatureDigestPSSSHA512 && AlgorithmOf(kSecKeyAlgorithmRSASignatureDigestPSSSHA512) == RSASignatureDigestPSSSHA512
    ensures FamilyOf(RSASignatureDigestPSSSHA512) == RSASignature && ConstFamily(kSecKeyAlgorithmRSASignatureDigestPSSSHA512) == RSASignature
  {
  }

  lemma Row71()
    ensures AsCFString(RSASignatureMessagePSSSHA1) == kSecKeyAlgorithmRSASignatureMessagePSSSHA1 && AlgorithmOf(kSecKeyAlgorithmRSASignatureMessagePSSSHA1) == RSASignatureMessagePSSSHA1
    ensures FamilyOf(RSASignatureMessagePSSSHA1) == RSASignature && ConstFamily(kSecKeyAlgorithmRSASignatureMessagePSSSHA1) == RSASignature
  {
  }

  lemma Row72()
    ensures AsCFString(RSASignatureMessagePSSSHA224) == kSecKeyAlgorithmRSASignatureMessagePSSSHA224 && AlgorithmOf(kSecKeyAlgorithmRSASignatureMessagePSSSHA224) == RSASignatureMessagePSSSHA224
    ensures FamilyOf(RSASignatureMessagePSSSHA224) == RSASignature && ConstFamily(kSecKeyAlgorithmRSASignatureMessagePSSSHA224) == RSASignature
  {
  }

  lemma Row73()
    ensures AsCFString(RSASignatureMessagePSSSHA256) == kSecKeyAlgorithmRSASignatureMessagePSSSHA256 && AlgorithmOf(kSecKeyAlgorithmRSASignatureMessagePSSSHA256) == RSASignatureMessagePSSSHA256
    ensures FamilyOf(RSASignatureMessagePSSSHA256) == RSASignature && ConstFamily(kSecKeyAlgorithmRSASignatureMessagePSSSHA256) == RSASignature
  {
  }

  lemma Row74()
    ensures AsCFString(RSASignatureMessagePSSSHA384) == kSecKeyAlgorithmRSASignatureMessagePSSSHA384 && AlgorithmOf(kSecKeyAlgorithmRSASignatureMessagePSSSHA384) == RSASignatureMessagePSSSHA384
    ensures FamilyOf(RSASignatureMessagePSSSHA384) == RSASignature && ConstFamily(kSecKeyAlgorithmRSASignatureMessagePSSSHA384) == RSASignature
  {
  }

  lemma Row75()
    ensures AsCFString(RSASignatureMessagePSSSHA512) == kSecKeyAlgorithmRSASignatureMessagePSSSHA512 && AlgorithmOf(kSecKeyAlgorithmRSASignatureMessagePSSSHA512) == RSASignatureMessagePSSSHA512
    ensures FamilyOf(RSASignatureMessagePSSSHA512) == RSASignature && ConstFamily(kSecKeyAlgorithmRSASignatureMessagePSSSHA512) == RSASignature
  {
  }

  /** `as_CFString` loses nothing: the variant is recovered from its constant. */
  lemma AsCFStringRoundTrip(a: KeyAlgorithm)
    ensures AlgorithmOf(AsCFString(a)) == a
  {
    match a
    case ECIESEncryptionStandardX963SHA1AESGCM => Row0();
    case ECIESEncryptionStandardX963SHA224AESGCM => Row1();
    case ECIESEncryptionStandardX963SHA256AESGCM => Row2();
    case ECIESEncryptionStandardX963SHA384AESGCM => Row3();
    case ECIESEncryptionStandardX963SHA512AESGCM => Row4();
    case ECIESEncryptionStandardVariableIVX963SHA224AESGCM => Row5();
    case ECIESEncryptionStandardVariableIVX963SHA256AESGCM => Row6();
    case ECIESEncryptionStandardVariableIVX963SHA384AESGCM => Row7();
    case ECIESEncryptionStandardVariableIVX963SHA512AESGCM => Row8();
    case ECIESEncryptionCofactorVariableIVX963SHA224AESGCM => Row9();
    case ECIESEncryptionCofactorVariableIVX963SHA256AESGCM => Row10();
    case ECIESEncryptionCofactorVariableIVX963SHA384AESGCM => Row11();
    case ECIESEncryptionCofactorVariableIVX963SHA512AESGCM => Row12();
    case ECIESEncryptionCofactorX963SHA1AESGCM => Row13();
    case ECIESEncryptionCofactorX963SHA224AESGCM => Row14();
    case ECIESEncryptionCofactorX963SHA256AESGCM => Row15();
    case ECIESEncryptionCofactorX963SHA384AESGCM => Row16();
    case ECIESEncryptionCofactorX963SHA512AESGCM => Row17();
    case ECDSASignatureRFC4754 => Row18();
    case ECDSASignatureDigestX962 => Row19();
    case ECDSASignatureDigestX962SHA1 => Row20();
    case ECDSASignatureDigestX962SHA224 => Row21();
    case ECDSASignatureDigestX962SHA256 => Row22();
    case ECDSASignatureDigestX962SHA384 => Row23();
    case ECDSASignatureDigestX962SHA512 => Row24();
    case ECDSASignatureMessageX962SHA1 => Row25();
    case ECDSASignatureMessageX962SHA224 => Row26();
    case ECDSASignatureMessageX962SHA256 => Row27();
    case ECDSASignatureMessageX962SHA384 => Row28();
    case ECDSASignatureMessageX962SHA512 => Row29();
    case ECDHKeyExchangeCofactor => Row30();
    case ECDHKeyExchangeStandard => Row31();
    case ECDHKeyExchangeCofactorX963SHA1 => Row32();
    case ECDHKeyExchangeStandardX963SHA1 => Row33();
    case ECDHKeyExchangeCofactorX963SHA224 => Row34();
    case ECDHKeyExchangeCofactorX963SHA256 => Row35();
    case ECDHKeyExchangeCofactorX963SHA384 => Row36();
    case ECDHKeyExchangeCofactorX963SHA512 => Row37();
    case ECDHKeyExchangeStandardX963SHA224 => Row38();
    case ECDHKeyExchangeStandardX963SHA256 => Row39();
    case ECDHKeyExchangeStandardX963SHA384 => Row40();
    case ECDHKeyExchangeStandardX963SHA512 => Row41();
    case RSAEncryptionRaw => Row42();
    case RSAEncryptionPKCS1 => Row43();
    case RSAEncryptionOAEPSHA1 => Row44();
    case RSAEncryptionOAEPSHA224 => Row45();
    case RSAEncryptionOAEPSHA256 => Row46();
    case RSAEncryptionOAEPSHA384 => Row47();
    case RSAEncryptionOAEPSHA512 => Row48();
    case RSAEncryptionOAEPSHA1AESGCM => Row49();
    case RSAEncryptionOAEPSHA224AESGCM => Row50();
    case RSAEncryptionOAEPSHA256AESGCM => Row51();
    case RSAEncryptionOAEPSHA384AESGCM => Row52();
    case RSAEncryptionOAEPSHA512AESGCM => Row53();
    case RSASignatureRaw => Row54();
    case RSASignatureDigestPKCS1v15Raw => Row55();
    case RSASignatureDigestPKCS1v15SHA1 => Row56();
    case RSASignatureDigestPKCS1v15SHA224 => Row57();
    case RSASignatureDigestPKCS1v15SHA256 => Row58();
    case RSASignatureDigestPKCS1v15SHA384 => Row59();
    case RSASignatureDigestPKCS1v15SHA512 => Row60();
    case RSASignatureMessagePKCS1v15SHA1 => Row61();
    case RSASignatureMessagePKCS1v15SHA224 => Row62();
    case RSASignatureMessagePKCS1v15SHA256 => Row63();
    case RSASignatureMessagePKCS1v15SHA384 => Row64();
    case RSASignatureMessagePKCS1v15SHA512 => Row65();
    case RSASignatureDigestPSSSHA1 => Row66();
    case RSASignatureDigestPSSSHA224 => Row67();
    case RSASignatureDigestPSSSHA256 => Row68();
    case RSASignatureDigestPSSSHA384 => Row69();
    case RSASignatureDigestPSSSHA512 => Row70();
    case RSASignatureMessagePSSSHA1 => Row71();
    case RSASignatureMessagePSSSHA224 => Row72();
    case RSASignatureMessagePSSSHA256 => Row73();
    case RSASignatureMessagePSSSHA384 => Row74();
    case RSASignatureMessagePSSSHA512 => Row75();
  }

  /** Every constant is the image of the variant it names, so the table is onto. */
  lemma AlgorithmOfInverse(c: AlgorithmConst)
    ensures AsCFString(AlgorithmOf(c)) == c
  {
    match c
    case kSecKeyAlgorithmECIESEncryptionStandardX963SHA1AESGCM => Row0();
    case kSecKeyAlgorithmECIESEncryptionStandardX963SHA224AESGCM => Row1();
    case kSecKeyAlgorithmECIESEncryptionStandardX963SHA256AESGCM => Row2();
    case kSecKeyAlgorithmECIESEncryptionStandardX963SHA384AESGCM => Row3();
    case kSecKeyAlgorithmECIESEncryptionStandardX963SHA512AESGCM => Row4();
    case kSecKeyAlgorithmECIESEncryptionStandardVariableIVX963SHA224AESGCM => Row5();
    case kSecKeyAlgorithmECIESEncryptionStandardVariableIVX963SHA256AESGCM => Row6();
    case kSecKeyAlgorithmECIESEncryptionStandardVariableIVX963SHA384AESGCM => Row7();
    case kSecKeyAlgorithmECIESEncryptionStandardVariableIVX963SHA512AESGCM => Row8();
    case kSecKeyAlgorithmECIESEncryptionCofactorVariableIVX963SHA224AESGCM => Row9();
    case kSecKeyAlgorithmECIESEncryptionCofactorVariableIVX963SHA256AESGCM => Row10();
    case kSecKeyAlgorithmECIESEncryptionCofactorVariableIVX963SHA384AESGCM => Row11();
    case kSecKeyAlgorithmECIESEncryptionCofactorVariableIVX963SHA512AESGCM => Row12();
    case kSecKeyAlgorithmECIESEncryptionCofactorX963SHA1AESGCM => Row13();
    case kSecKeyAlgorithmECIESEncryptionCofactorX963SHA224AESGCM => Row14();
    case kSecKeyAlgorithmECIESEncryptionCofactorX963SHA256AESGCM => Row15();
    case kSecKeyAlgorithmECIESEncryptionCofactorX963SHA384AESGCM => Row16();
    case kSecKeyAlgorithmECIESEncryptionCofactorX963SHA512AESGCM => Row17();
    case kSecKeyAlgorithmECDSASignatureRFC4754 => Row18();
    case kSecKeyAlgorithmECDSASignatureDigestX962 => Row19();
    case kSecKeyAlgorithmECDSASignatureDigestX962SHA1 => Row20();
    case kSecKeyAlgorithmECDSASignatureDigestX962SHA224 => Row21();
    case kSecKeyAlgorithmECDSASignatureDigestX962SHA256 => Row22();
    case kSecKeyAlgorithmECDSASignatureDigestX962SHA384 => Row23();
    case kSecKeyAlgorithmECDSASignatureDigestX962SHA512 => Row24();
    case kSecKeyAlgorithmECDSASignatureMessageX962SHA1 => Row25();
    case kSecKeyAlgorithmECDSASignatureMessageX962SHA224 => Row26();
    case kSecKeyAlgorithmECDSASignatureMessageX962SHA256 => Row27();
    case kSecKeyAlgorithmECDSASignatureMessageX962SHA384 => Row28();
    case kSecKeyAlgorithmECDSASignatureMessageX962SHA512 => Row29();
    case kSecKeyAlgorithmECDHKeyExchangeCofactor => Row30();
    case kSecKeyAlgorithmECDHKeyExchangeStandard => Row31();
    case kSecKeyAlgorithmECDHKeyExchangeCofactorX963SHA1 => Row32();
    case kSecKeyAlgorithmECDHKeyExchangeStandardX963SHA1 => Row33();
    case kSecKeyAlgorithmECDHKeyExchangeCofactorX963SHA224 => Row34();
    case kSecKeyAlgorithmECDHKeyExchangeCofactorX963SHA256 => Row35();
    case kSecKeyAlgorithmECDHKeyExchangeCofactorX963SHA384 => Row36();
    case kSecKeyAlgorithmECDHKeyExchangeCofactorX963SHA512 => Row37();
    case kSecKeyAlgorithmECDHKeyExchangeStandardX963SHA224 => Row38();
    case kSecKeyAlgorithmECDHKeyExchangeStandardX963SHA256 => Row39();
    case kSecKeyAlgorithmECDHKeyExchangeStandardX963SHA384 => Row40();
    case kSecKeyAlgorithmECDHKeyExchangeStandardX963SHA512 => Row41();
    case kSecKeyAlgorithmRSAEncryptionRaw => Row42();
    case kSecKeyAlgorithmRSAEncryptionPKCS1 => Row43();
    case kSecKeyAlgorithmRSAEncryptionOAEPSHA1 => Row44();
    case kSecKeyAlgorithmRSAEncryptionOAEPSHA224 => Row45();
    case kSecKeyAlgorithmRSAEncryptionOAEPSHA256 => Row46();
    case kSecKeyAlgorithmRSAEncryptionOAEPSHA384 => Row47();
    case kSecKeyAlgorithmRSAEncryptionOAEPSHA512 => Row48();
    case kSecKeyAlgorithmRSAEncryptionOAEPSHA1AESGCM => Row49();
    case kSecKeyAlgorithmRSAEncryptionOAEPSHA224AESGCM => Row50();
    case kSecKeyAlgorithmRSAEncryptionOAEPSHA256AESGCM => Row51();
    case kSecKeyAlgorithmRSAEncryptionOAEPSHA384AESGCM => Row52();
    case kSecKeyAlgorithmRSAEncryptionOAEPSHA512AESGCM => Row53();
    case kSecKeyAlgorithmRSASignatureRaw => Row54();
    case kSecKeyAlgorithmRSASignatureDigestPKCS1v15Raw => Row55();
    case kSecKeyAlgorithmRSASignatureDigestPKCS1v15SHA1 => Row56();
    case kSecKeyAlgorithmRSASignatureDigestPKCS1v15SHA224 => Row57();
    case kSecKeyAlgorithmRSASignatureDigestPKCS1v15SHA256 => Row58();
    case kSecKeyAlgorithmRSASignatureDigestPKCS1v15SHA384 => Row59();
    case kSecKeyAlgorithmRSASignatureDigestPKCS1v15SHA512 => Row60();
    case kSecKeyAlgorithmRSASignatureMessagePKCS1v15SHA1 => Row61();
    case kSecKeyAlgorithmRSASignatureMessagePKCS1v15SHA224 => Row62();
    case kSecKeyAlgorithmRSASignatureMessagePKCS1v15SHA256 => Row63();
    case kSecKeyAlgorithmRSASignatureMessagePKCS1v15SHA384 => Row64();
    case kSecKeyAlgorithmRSASignatureMessagePKCS1v15SHA512 => Row65();
    case kSecKeyAlgorithmRSASignatureDigestPSSSHA1 => Row66();
    case kSecKeyAlgorithmRSASignatureDigestPSSSHA224 => Row67();
    case kSecKeyAlgorithmRSASignatureDigestPSSSHA256 => Row68();
    case kSecKeyAlgorithmRSASignatureDigestPSSSHA384 => Row69();
    case kSecKeyAlgorithmRSASignatureDigestPSSSHA512 => Row70();
    case kSecKeyAlgorithmRSASignatureMessagePSSSHA1 => Row71();
    case kSecKeyAlgorithmRSASignatureMessagePSSSHA224 => Row72();
    case kSecKeyAlgorithmRSASignatureMessagePSSSHA256 => Row73();
    case kSecKeyAlgorithmRSASignatureMessagePSSSHA384 => Row74();
    case kSecKeyAlgorithmRSASignatureMessagePSSSHA512 => Row75();
  }

  /** Distinct variants name distinct constants. */
  lemma AsCFStringInjective(a: KeyAlgorithm, b: KeyAlgorithm)
    ensures AsCFString(a) == AsCFString(b) <==> a == b
  {
    AsCFStringRoundTrip(a);
    AsCFStringRoundTrip(b);
  }

  /** `as_CFString` keeps every variant within its family. */
  lemma FamilyPreserved(a: KeyAlgorithm)
    ensures ConstFamily(AsCFString(a)) == FamilyOf(a)
  {
    match a
    case ECIESEncryptionStandardX963SHA1AESGCM => Row0();
    case ECIESEncryptionStandardX963SHA224AESGCM => Row1();
    case ECIESEncryptionStandardX963SHA256AESGCM => Row2();
    case ECIESEncryptionStandardX963SHA384AESGCM => Row3();
    case ECIESEncryptionStandardX963SHA512AESGCM => Row4();
    case ECIESEncryptionStandardVariableIVX963SHA224AESGCM => Row5();
    case ECIESEncryptionStandardVariableIVX963SHA256AESGCM => Row6();
    case ECIESEncryptionStandardVariableIVX963SHA384AESGCM => Row7();
    case ECIESEncryptionStandardVariableIVX963SHA512AESGCM => Row8();
    case ECIESEncryptionCofactorVariableIVX963SHA224AESGCM => Row9();
    case ECIESEncryptionCofactorVariableIVX963SHA256AESGCM => Row10();
    case ECIESEncryptionCofactorVariableIVX963SHA384AESGCM => Row11();
    case ECIESEncryptionCofactorVariableIVX963SHA512AESGCM => Row12();
    case ECIESEncryptionCofactorX963SHA1AESGCM => Row13();
    case ECIESEncryptionCofactorX963SHA224AESGCM => Row14();
    case ECIESEncryptionCofactorX963SHA256AESGCM => Row15();
    case ECIESEncryptionCofactorX963SHA384AESGCM => Row16();
    case ECIESEncryptionCofactorX963SHA512AESGCM => Row17();
    case ECDSASignatureRFC4754 => Row18();
    case ECDSASignatureDigestX962 => Row19();
    case ECDSASignatureDigestX962SHA1 => Row20();
    case ECDSASignatureDigestX962SHA224 => Row21();
    case ECDSASignatureDigestX962SHA256 => Row22();
    case ECDSASignatureDigestX962SHA384 => Row23();
    case ECDSASignatureDigestX962SHA512 => Row24();
    case ECDSASignatureMessageX962SHA1 => Row25();
    case ECDSASignatureMessageX962SHA224 => Row26();
    case ECDSASignatureMessageX962SHA256 => Row27();
    case ECDSASignatureMessageX962SHA384 => Row28();
    case ECDSASignatureMessageX962SHA512 => Row29();
    case ECDHKeyExchangeCofactor => Row30();
    case ECDHKeyExchangeStandard => Row31();
    case ECDHKeyExchangeCofactorX963SHA1 => Row32();
    case ECDHKeyExchangeStandardX963SHA1 => Row33();
    case ECDHKeyExchangeCofactorX963SHA224 => Row34();
    case ECDHKeyExchangeCofactorX963SHA256 => Row35();
    case ECDHKeyExchangeCofactorX963SHA384 => Row36();
    case ECDHKeyExchangeCofactorX963SHA512 => Row37();
    case ECDHKeyExchangeStandardX963SHA224 => Row38();
    case ECDHKeyExchangeStandardX963SHA256 => Row39();
    case ECDHKeyExchangeStandardX963SHA384 => Row40();
    case ECDHKeyExchangeStandardX963SHA512 => Row41();
    case RSAEncryptionRaw => Row42();
    case RSAEncryptionPKCS1 => Row43();
    case RSAEncryptionOAEPSHA1 => Row44();
    case RSAEncryptionOAEPSHA224 => Row45();
    case RSAEncryptionOAEPSHA256 => Row46();
    case RSAEncryptionOAEPSHA384 => Row47();
    case RSAEncryptionOAEPSHA512 => Row48();
    case RSAEncryptionOAEPSHA1AESGCM => Row49();
    case RSAEncryptionOAEPSHA224AESGCM => Row50();
    case RSAEncryptionOAEPSHA256AESGCM => Row51();
    case RSAEncryptionOAEPSHA384AESGCM => Row52();
    case RSAEncryptionOAEPSHA512AESGCM => Row53();
    case RSASignatureRaw => Row54();
    case RSASignatureDigestPKCS1v15Raw => Row55();
    case RSASignatureDigestPKCS1v15SHA1 => Row56();
    case RSASignatureDigestPKCS1v15SHA224 => Row57();
    case RSASignatureDigestPKCS1v15SHA256 => Row58();
    case RSASignatureDigestPKCS1v15SHA384 => Row59();
    case RSASignatureDigestPKCS1v15SHA512 => Row60();
    case RSASignatureMessagePKCS1v15SHA1 => Row61();
    case RSASignatureMessagePKCS1v15SHA224 => Row62();
    case RSASignatureMessagePKCS1v15SHA256 => Row63();
    case RSASignatureMessagePKCS1v15SHA384 => Row64();
    case RSASignatureMessagePKCS1v15SHA512 => Row65();
    case RSASignatureDigestPSSSHA1 => Row66();
    case RSASignatureDigestPSSSHA224 => Row67();
    case RSASignatureDigestPSSSHA256 => Row68();
    case RSASignatureDigestPSSSHA384 => Row69();
    case RSASignatureDigestPSSSHA512 => Row70();
    case RSASignatureMessagePSSSHA1 => Row71();
    case RSASignatureMessagePSSSHA224 => Row72();
    case RSASignatureMessagePSSSHA256 => Row73();
    case RSASignatureMessagePSSSHA384 => Row74();
    case RSASignatureMessagePSSSHA512 => Row75();
  }
}
