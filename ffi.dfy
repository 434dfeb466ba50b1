/**
 * The Security framework as the binding sees it: the fixed-width integer
 * types of its signatures, the named constants it exports (modelled as
 * enumerations of their symbol names, since their run-time values are the
 * framework's business), and the shapes of the replies its functions give.
 */
module Ffi {
  import opened Wrappers

  type byte = x: int | 0 <= x < 0x100
  type int32 = x: int | -0x8000_0000 <= x < 0x8000_0000
  type uint32 = x: int | 0 <= x < 0x1_0000_0000
  type int64 = x: int | -0x8000_0000_0000_0000 <= x < 0x8000_0000_0000_0000
  type usize = x: int | 0 <= x < 0x1_0000_0000_0000_0000

  /** Rust's `x as i64` on a 64-bit `usize`: the same 64 bits read in two's complement. */
  function UsizeAsI64(x: usize): (r: int64)
    ensures (x - r) % 0x1_0000_0000_0000_0000 == 0
    ensures x < 0x8000_0000_0000_0000 ==> r == x
  {
    if x < 0x8000_0000_0000_0000 then x else x - 0x1_0000_0000_0000_0000
  }

  /** A raw pointer or Core Foundation reference: null, or some object. */
  datatype Ptr = Null | Ref(address: nat)

  /** What `CFErrorGetCode`, `CFErrorGetDomain` and `CFErrorCopyDescription` report for a `CFErrorRef`. */
  datatype CFErrorData = CFErrorData(code: int64, domain: string, description: string)

  /**
   * The error out-parameter of a framework call: `None` when the framework
   * left the `CFErrorRef` null, `Some` with the error's data otherwise.
   */
  type ErrorOut = Option<CFErrorData>

  /**
   * Reply of a framework call that returns an `OSStatus` and writes `out`
   * through an out-pointer; `message` is what `SecCopyErrorMessageString`
   * gives for `status`.
   */
  datatype StatusReply<T> = StatusReply(status: int32, message: string, out: T)

  /** Reply of a framework call that returns `out` and may set a `CFErrorRef` out-parameter. */
  datatype ErrorReply<T> = ErrorReply(out: T, error: ErrorOut)

  /** `CFString` constants exported by the framework and used as dictionary keys or values. */
  datatype SecConst =
    // keys of item and key dictionaries
    | kSecClass | kSecMatchLimit | kSecReturnRef | kSecUseKeychain | kSecValueData
    | kSecPrivateKeyAttrs | kSecUseOperationPrompt
    | kSecAttrAccessControl | kSecAttrAccessible | kSecAttrAccount
    | kSecAttrApplicationLabel | kSecAttrApplicationTag | kSecAttrKeyClass
    | kSecAttrKeySizeInBits | kSecAttrKeyType | kSecAttrIsPermanent | kSecAttrLabel
    | kSecAttrProtocol | kSecAttrServer | kSecAttrService | kSecAttrSynchronizable
    | kSecAttrTokenID
    // key-usage keys of key generation dictionaries
    | kSecKeyDerive | kSecKeyDecrypt | kSecKeyEncrypt | kSecKeySign | kSecKeyVerify
    | kSecKeyWrap | kSecKeyUnwrap | kSecKeyExtractable | kSecKeySensitive
    // values of kSecClass
    | kSecClassGenericPassword | kSecClassInternetPassword | kSecClassCertificate
    | kSecClassKey | kSecClassIdentity
    // values of kSecMatchLimit
    | kSecMatchLimitOne | kSecMatchLimitAll
    // values of kSecAttrKeyClass
    | kSecAttrKeyClassPublic | kSecAttrKeyClassPrivate | kSecAttrKeyClassSymmetric
    // values of kSecAttrKeyType
    | kSecAttrKeyTypeAES | kSecAttrKeyTypeRSA | kSecAttrKeyTypeECSECPrimeRandom
    // values of kSecAttrAccessible
    | kSecAttrAccessibleWhenPasscodeSetThisDeviceOnly | kSecAttrAccessibleWhenUnlockedThisDeviceOnly
    | kSecAttrAccessibleWhenUnlocked | kSecAttrAccessibleAfterFirstUnlockThisDeviceOnly
    | kSecAttrAccessibleAfterFirstUnlock | kSecAttrAccessibleAlwaysThisDeviceOnly
    | kSecAttrAccessibleAlways
    // values of kSecAttrProtocol
    | kSecAttrProtocolFTP | kSecAttrProtocolFTPAccount | kSecAttrProtocolHTTP
    | kSecAttrProtocolIRC | kSecAttrProtocolNNTP | kSecAttrProtocolPOP3
    | kSecAttrProtocolSMTP | kSecAttrProtocolSOCKS | kSecAttrProtocolIMAP
    | kSecAttrProtocolLDAP | kSecAttrProtocolAppleTalk | kSecAttrProtocolAFP
    | kSecAttrProtocolTelnet | kSecAttrProtocolSSH | kSecAttrProtocolFTPS
    | kSecAttrProtocolHTTPS | kSecAttrProtocolHTTPProxy | kSecAttrProtocolHTTPSProxy
    | kSecAttrProtocolFTPProxy | kSecAttrProtocolSMB | kSecAttrProtocolRTSP
    | kSecAttrProtocolRTSPProxy | kSecAttrProtocolDAAP | kSecAttrProtocolEPPC
    | kSecAttrProtocolIPP | kSecAttrProtocolNNTPS | kSecAttrProtocolLDAPS
    | kSecAttrProtocolTelnetS | kSecAttrProtocolIMAPS | kSecAttrProtocolIRCS
    | kSecAttrProtocolPOP3S
    // values of kSecAttrTokenID
    | kSecAttrTokenIDSecureEnclave

  /** The `kSecKeyAlgorithm*` `CFString` constants naming key algorithms. */
  datatype AlgorithmConst =
    kSecKeyAlgorithmECIESEncryptionStandardX963SHA1AESGCM
    | kSecKeyAlgorithmECIESEncryptionStandardX963SHA224AESGCM
    | kSecKeyAlgorithmECIESEncryptionStandardX963SHA256AESGCM
    | kSecKeyAlgorithmECIESEncryptionStandardX963SHA384AESGCM
    | kSecKeyAlgorithmECIESEncryptionStandardX963SHA512AESGCM
    | kSecKeyAlgorithmECIESEncryptionStandardVariableIVX963SHA224AESGCM
    | kSecKeyAlgorithmECIESEncryptionStandardVariableIVX963SHA256AESGCM
    | kSecKeyAlgorithmECIESEncryptionStandardVariableIVX963SHA384AESGCM
    | kSecKeyAlgorithmECIESEncryptionStandardVariableIVX963SHA512AESGCM
    | kSecKeyAlgorithmECIESEncryptionCofactorVariableIVX963SHA224AESGCM
    | kSecKeyAlgorithmECIESEncryptionCofactorVariableIVX963SHA256AESGCM
    | kSecKeyAlgorithmECIESEncryptionCofactorVariableIVX963SHA384AESGCM
    | kSecKeyAlgorithmECIESEncryptionCofactorVariableIVX963SHA512AESGCM
    | kSecKeyAlgorithmECIESEncryptionCofactorX963SHA1AESGCM
    | kSecKeyAlgorithmECIESEncryptionCofactorX963SHA224AESGCM
    | kSecKeyAlgorithmECIESEncryptionCofactorX963SHA256AESGCM
    | kSecKeyAlgorithmECIESEncryptionCofactorX963SHA384AESGCM
    | kSecKeyAlgorithmECIESEncryptionCofactorX963SHA512AESGCM
    | kSecKeyAlgorithmECDSASignatureRFC4754
    | kSecKeyAlgorithmECDSASignatureDigestX962
    | kSecKeyAlgorithmECDSASignatureDigestX962SHA1
    | kSecKeyAlgorithmECDSASignatureDigestX962SHA224
    | kSecKeyAlgorithmECDSASignatureDigestX962SHA256
    | kSecKeyAlgorithmECDSASignatureDigestX962SHA384
    | kSecKeyAlgorithmECDSASignatureDigestX962SHA512
    | kSecKeyAlgorithmECDSASignatureMessageX962SHA1
    | kSecKeyAlgorithmECDSASignatureMessageX962SHA224
    | kSecKeyAlgorithmECDSASignatureMessageX962SHA256
    | kSecKeyAlgorithmECDSASignatureMessageX962SHA384
    | kSecKeyAlgorithmECDSASignatureMessageX962SHA512
    | kSecKeyAlgorithmECDHKeyExchangeCofactor
    | kSecKeyAlgorithmECDHKeyExchangeStandard
    | kSecKeyAlgorithmECDHKeyExchangeCofactorX963SHA1
    | kSecKeyAlgorithmECDHKeyExchangeStandardX963SHA1
    | kSecKeyAlgorithmECDHKeyExchangeCofactorX963SHA224
    | kSecKeyAlgorithmECDHKeyExchangeCofactorX963SHA256
    | kSecKeyAlgorithmECDHKeyExchangeCofactorX963SHA384
    | kSecKeyAlgorithmECDHKeyExchangeCofactorX963SHA512
    | kSecKeyAlgorithmECDHKeyExchangeStandardX963SHA224
    | kSecKeyAlgorithmECDHKeyExchangeStandardX963SHA256
    | kSecKeyAlgorithmECDHKeyExchangeStandardX963SHA384
    | kSecKeyAlgorithmECDHKeyExchangeStandardX963SHA512
    | kSecKeyAlgorithmRSAEncryptionRaw
    | kSecKeyAlgorithmRSAEncryptionPKCS1
    | kSecKeyAlgorithmRSAEncryptionOAEPSHA1
    | kSecKeyAlgorithmRSAEncryptionOAEPSHA224
    | kSecKeyAlgorithmRSAEncryptionOAEPSHA256
    | kSecKeyAlgorithmRSAEncryptionOAEPSHA384
    | kSecKeyAlgorithmRSAEncryptionOAEPSHA512
    | kSecKeyAlgorithmRSAEncryptionOAEPSHA1AESGCM
    | kSecKeyAlgorithmRSAEncryptionOAEPSHA224AESGCM
    | kSecKeyAlgorithmRSAEncryptionOAEPSHA256AESGCM
    | kSecKeyAlgorithmRSAEncryptionOAEPSHA384AESGCM
    | kSecKeyAlgorithmRSAEncryptionOAEPSHA512AESGCM
    | kSecKeyAlgorithmRSASignatureRaw
    | kSecKeyAlgorithmRSASignatureDigestPKCS1v15Raw
    | kSecKeyAlgorithmRSASignatureDigestPKCS1v15SHA1
    | kSecKeyAlgorithmRSASignatureDigestPKCS1v15SHA224
    | kSecKeyAlgorithmRSASignatureDigestPKCS1v15SHA256
    | kSecKeyAlgorithmRSASignatureDigestPKCS1v15SHA384
    | kSecKeyAlgorithmRSASignatureDigestPKCS1v15SHA512
    | kSecKeyAlgorithmRSASignatureMessagePKCS1v15SHA1
    | kSecKeyAlgorithmRSASignatureMessagePKCS1v15SHA224
    | kSecKeyAlgorithmRSASignatureMessagePKCS1v15SHA256
    | kSecKeyAlgorithmRSASignatureMessagePKCS1v15SHA384
    | kSecKeyAlgorithmRSASignatureMessagePKCS1v15SHA512
    | kSecKeyAlgorithmRSASignatureDigestPSSSHA1
    | kSecKeyAlgorithmRSASignatureDigestPSSSHA224
    | kSecKeyAlgorithmRSASignatureDigestPSSSHA256
    | kSecKeyAlgorithmRSASignatureDigestPSSSHA384
    | kSecKeyAlgorithmRSASignatureDigestPSSSHA512
    | kSecKeyAlgorithmRSASignatureMessagePSSSHA1
    | kSecKeyAlgorithmRSASignatureMessagePSSSHA224
    | kSecKeyAlgorithmRSASignatureMessagePSSSHA256
    | kSecKeyAlgorithmRSASignatureMessagePSSSHA384
    | kSecKeyAlgorithmRSASignatureMessagePSSSHA512
}
