/**
 * Keychain item attributes: the attribute keys (`Attr`) with the framework
 * constants they stand for, the typed attribute values (`AttrAccessible`,
 * `AttrApplicationLabel`, `AttrApplicationTag`, `AttrLabel`, `AttrKeyClass`,
 * `AttrKeyType`, `AttrProtocol`, `AttrTokenId`) with the constants or Core
 * Foundation values they become, and the `TAttr` interface (`kind` and
 * `as_CFType`) that lets a dictionary builder add any of them.
 */
module Attrs {
  import opened Wrappers
  import opened Ffi
  import opened CoreFoundation
  import opened Utf8

  /** Attribute keys passed in parameter dictionaries. */
  datatype Attr =
    AccessControl
    | Accessible
    | Account
    | ApplicationLabel
    | ApplicationTag
    | KeyClass
    | KeySizeInBits
    | KeyType
    | IsPermanent
    | Label
    | Protocol
    | Server
    | Service
    | Synchronizable
    | TokenId

  /** `From<Attr> for CFStringRef`: the `kSecAttr*` key constant of each attribute. */
  function AttrConst(x: Attr): (c: SecConst)
  {
    match x
    case AccessControl => kSecAttrAccessControl
    case Accessible => kSecAttrAccessible
    case Account => kSecAttrAccount
    case ApplicationLabel => kSecAttrApplicationLabel
    case ApplicationTag => kSecAttrApplicationTag
    case KeyClass => kSecAttrKeyClass
    case KeySizeInBits => kSecAttrKeySizeInBits
    case KeyType => kSecAttrKeyType
    case IsPermanent => kSecAttrIsPermanent
    case Label => kSecAttrLabel
    case Protocol => kSecAttrProtocol
    case Server => kSecAttrServer
    case Service => kSecAttrService
    case Synchronizable => kSecAttrSynchronizable
    case TokenId => kSecAttrTokenID
  }

  /** The variant whose constant is `c`, if any. */
  function AttrConstOf(c: SecConst): (x: Option<Attr>)
    ensures x.Some? ==> AttrConst(x.value) == c
  {
    match c
    case kSecAttrAccessControl => Some(AccessControl)
    case kSecAttrAccessible => Some(Accessible)
    case kSecAttrAccount => Some(Account)
    case kSecAttrApplicationLabel => Some(ApplicationLabel)
    case kSecAttrApplicationTag => Some(ApplicationTag)
    case kSecAttrKeyClass => Some(KeyClass)
    case kSecAttrKeySizeInBits => Some(KeySizeInBits)
    case kSecAttrKeyType => Some(KeyType)
    case kSecAttrIsPermanent => Some(IsPermanent)
    case kSecAttrLabel => Some(Label)
    case kSecAttrProtocol => Some(Protocol)
    case kSecAttrServer => Some(Server)
    case kSecAttrService => Some(Service)
    case kSecAttrSynchronizable => Some(Synchronizable)
    case kSecAttrTokenID => Some(TokenId)
    case _ => None
  }

  /** `AttrConstOf` recovers every variant from its constant, so distinct variants have distinct constants. */
  lemma AttrRoundTrip(x: Attr)
    ensures AttrConstOf(AttrConst(x)) == Some(x)
  {
  }

  /** `AttrConstOf` is defined exactly on the constants `AttrConst` produces. */
  lemma AttrConstOfInverse(c: SecConst)
    ensures AttrConstOf(c).Some? <==> exists x :: AttrConst(x) == c
  {
    if exists x :: AttrConst(x) == c {
      var x :| AttrConst(x) == c;
      AttrRoundTrip(x);
    }
  }

  /** Keychain item accessibility restrictions, from most to least restrictive. */
  datatype AttrAccessible =
    WhenPasscodeSetThisDeviceOnly
    | WhenUnlockedThisDeviceOnly
    | WhenUnlocked
    | AfterFirstUnlockThisDeviceOnly
    | AfterFirstUnlock
    | AlwaysThisDeviceOnly
    | Always

  /** `AttrAccessible::as_CFString`: the `kSecAttrAccessible*` value constant of each variant. */
  function AccessibleConst(x: AttrAccessible): (c: SecConst)
  {
    match x
    case WhenPasscodeSetThisDeviceOnly => kSecAttrAccessibleWhenPasscodeSetThisDeviceOnly
    case WhenUnlockedThisDeviceOnly => kSecAttrAccessibleWhenUnlockedThisDeviceOnly
    case WhenUnlocked => kSecAttrAccessibleWhenUnlocked
    case AfterFirstUnlockThisDeviceOnly => kSecAttrAccessibleAfterFirstUnlockThisDeviceOnly
    case AfterFirstUnlock => kSecAttrAccessibleAfterFirstUnlock
    case AlwaysThisDeviceOnly => kSecAttrAccessibleAlwaysThisDeviceOnly
    case Always => kSecAttrAccessibleAlways
  }

  /** The variant whose constant is `c`, if any. */
  function AccessibleConstOf(c: SecConst): (x: Option<AttrAccessible>)
    ensures x.Some? ==> AccessibleConst(x.value) == c
  {
    match c
    case kSecAttrAccessibleWhenPasscodeSetThisDeviceOnly => Some(WhenPasscodeSetThisDeviceOnly)
    case kSecAttrAccessibleWhenUnlockedThisDeviceOnly => Some(WhenUnlockedThisDeviceOnly)
    case kSecAttrAccessibleWhenUnlocked => Some(WhenUnlocked)
    case kSecAttrAccessibleAfterFirstUnlockThisDeviceOnly => Some(AfterFirstUnlockThisDeviceOnly)
    case kSecAttrAccessibleAfterFirstUnlock => Some(AfterFirstUnlock)
    case kSecAttrAccessibleAlwaysThisDeviceOnly => Some(AlwaysThisDeviceOnly)
    case kSecAttrAccessibleAlways => Some(Always)
    case _ => None
  }

  /** `AccessibleConstOf` recovers every variant from its constant, so distinct variants have distinct constants. */
  lemma AccessibleRoundTrip(x: AttrAccessible)
    ensures AccessibleConstOf(AccessibleConst(x)) == Some(x)
  {
  }

  /** `AccessibleConstOf` is defined exactly on the constants `AccessibleConst` produces. */
  lemma AccessibleConstOfInverse(c: SecConst)
    ensures AccessibleConstOf(c).Some? <==> exists x :: AccessibleConst(x) == c
  {
    if exists x :: AccessibleConst(x) == c {
      var x :| AccessibleConst(x) == c;
      AccessibleRoundTrip(x);
    }
  }

  /** Classes of cryptographic keys. */
  datatype AttrKeyClass =
    Public
    | Private
    | Symmetric

  /** `AttrKeyClass::as_CFString`: the `kSecAttrKeyClass*` value constant of each variant. */
  function KeyClassConst(x: AttrKeyClass): (c: SecConst)
  {
    match x
    case Public => kSecAttrKeyClassPublic
    case Private => kSecAttrKeyClassPrivate
    case Symmetric => kSecAttrKeyClassSymmetric
  }

  /** The variant whose constant is `c`, if any. */
  function KeyClassConstOf(c: SecConst): (x: Option<AttrKeyClass>)
    ensures x.Some? ==> KeyClassConst(x.value) == c
  {
    match c
    case kSecAttrKeyClassPublic => Some(Public)
    case kSecAttrKeyClassPrivate => Some(Private)
    case kSecAttrKeyClassSymmetric => Some(Symmetric)
    case _ => None
  }

  /** `KeyClassConstOf` recovers every variant from its constant, so distinct variants have distinct constants. */
  lemma KeyClassRoundTrip(x: AttrKeyClass)
    ensures KeyClassConstOf(KeyClassConst(x)) == Some(x)
  {
  }

  /** `KeyClassConstOf` is defined exactly on the constants `KeyClassConst` produces. */
  lemma KeyClassConstOfInverse(c: SecConst)
    ensures KeyClassConstOf(c).Some? <==> exists x :: KeyClassConst(x) == c
  {
    if exists x :: KeyClassConst(x) == c {
      var x :| KeyClassConst(x) == c;
      KeyClassRoundTrip(x);
    }
  }

  /** Types of cryptographic keys. */
  datatype AttrKeyType =
    Aes
    | Rsa
    | EcSecPrimeRandom

  /** `AttrKeyType::as_CFString`: the `kSecAttrKeyType*` value constant of each variant. */
  function KeyTypeConst(x: AttrKeyType): (c: SecConst)
  {
    match x
    case Aes => kSecAttrKeyTypeAES
    case Rsa => kSecAttrKeyTypeRSA
    case EcSecPrimeRandom => kSecAttrKeyTypeECSECPrimeRandom
  }

  /** The variant whose constant is `c`, if any. */
  function KeyTypeConstOf(c: SecConst): (x: Option<AttrKeyType>)
    ensures x.Some? ==> KeyTypeConst(x.value) == c
  {
    match c
    case kSecAttrKeyTypeAES => Some(Aes)
    case kSecAttrKeyTypeRSA => Some(Rsa)
    case kSecAttrKeyTypeECSECPrimeRandom => Some(EcSecPrimeRandom)
    case _ => None
  }

  /** `KeyTypeConstOf` recovers every variant from its constant, so distinct variants have distinct constants. */
  lemma KeyTypeRoundTrip(x: AttrKeyType)
    ensures KeyTypeConstOf(KeyTypeConst(x)) == Some(x)
  {
  }

  /** `KeyTypeConstOf` is defined exactly on the constants `KeyTypeConst` produces. */
  lemma KeyTypeConstOfInverse(c: SecConst)
    ensures KeyTypeConstOf(c).Some? <==> exists x :: KeyTypeConst(x) == c
  {
    if exists x :: KeyTypeConst(x) == c {
      var x :| KeyTypeConst(x) == c;
      KeyTypeRoundTrip(x);
    }
  }

  /** Internet protocols of internet password items. */
  datatype AttrProtocol =
    FTP
    | FTPAccount
    | HTTP
    | IRC
    | NNTP
    | POP3
    | SMTP
    | SOCKS
    | IMAP
    | LDAP
    | AppleTalk
    | AFP
    | Telnet
    | SSH
    | FTPS
    | HTTPS
    | HTTPProxy
    | HTTPSProxy
    | FTPProxy
    | SMB
    | RTSP
    | RTSPProxy
    | DAAP
    | EPPC
    | IPP
    | NNTPS
    | LDAPS
    | TelnetS
    | IMAPS
    | IRCS
    | POP3S

  /** `AttrProtocol::as_CFString`: the `kSecAttrProtocol*` value constant of each variant. */
  function ProtocolConst(x: AttrProtocol): (c: SecConst)
  {
    match x
    case FTP => kSecAttrProtocolFTP
    case FTPAccount => kSecAttrProtocolFTPAccount
    case HTTP => kSecAttrProtocolHTTP
    case IRC => kSecAttrProtocolIRC
    case NNTP => kSecAttrProtocolNNTP
    case POP3 => kSecAttrProtocolPOP3
    case SMTP => kSecAttrProtocolSMTP
    case SOCKS => kSecAttrProtocolSOCKS
    case IMAP => kSecAttrProtocolIMAP
    case LDAP => kSecAttrProtocolLDAP
    case AppleTalk => kSecAttrProtocolAppleTalk
    case AFP => kSecAttrProtocolAFP
    case Telnet => kSecAttrProtocolTelnet
    case SSH => kSecAttrProtocolSSH
    case FTPS => kSecAttrProtocolFTPS
    case HTTPS => kSecAttrProtocolHTTPS
    case HTTPProxy => kSecAttrProtocolHTTPProxy
    case HTTPSProxy => kSecAttrProtocolHTTPSProxy
    case FTPProxy => kSecAttrProtocolFTPProxy
    case SMB => kSecAttrProtocolSMB
    case RTSP => kSecAttrProtocolRTSP
    case RTSPProxy => kSecAttrProtocolRTSPProxy
    case DAAP => kSecAttrProtocolDAAP
    case EPPC => kSecAttrProtocolEPPC
    case IPP => kSecAttrProtocolIPP
    case NNTPS => kSecAttrProtocolNNTPS
    case LDAPS => kSecAttrProtocolLDAPS
    case TelnetS => kSecAttrProtocolTelnetS
    case IMAPS => kSecAttrProtocolIMAPS
    case IRCS => kSecAttrProtocolIRCS
    case POP3S => kSecAttrProtocolPOP3S
  }

  /** The variant whose constant is `c`, if any. */
  function ProtocolConstOf(c: SecConst): (x: Option<AttrProtocol>)
    ensures x.Some? ==> ProtocolConst(x.value) == c
  {
    if c == kSecAttrProtocolFTP then Some(FTP)
    else if c == kSecAttrProtocolFTPAccount then Some(FTPAccount)
    else if c == kSecAttrProtocolHTTP then Some(HTTP)
    else if c == kSecAttrProtocolIRC then Some(IRC)
    else if c == kSecAttrProtocolNNTP then Some(NNTP)
    else if c == kSecAttrProtocolPOP3 then Some(POP3)
    else if c == kSecAttrProtocolSMTP then Some(SMTP)
    else if c == kSecAttrProtocolSOCKS then Some(SOCKS)
    else if c == kSecAttrProtocolIMAP then Some(IMAP)
    else if c == kSecAttrProtocolLDAP then Some(LDAP)
    else if c == kSecAttrProtocolAppleTalk then Some(AppleTalk)
    else if c == kSecAttrProtocolAFP then Some(AFP)
    else if c == kSecAttrProtocolTelnet then Some(Telnet)
    else if c == kSecAttrProtocolSSH then Some(SSH)
    else if c == kSecAttrProtocolFTPS then Some(FTPS)
    else if c == kSecAttrProtocolHTTPS then Some(HTTPS)
    else if c == kSecAttrProtocolHTTPProxy then Some(HTTPProxy)
    else if c == kSecAttrProtocolHTTPSProxy then Some(HTTPSProxy)
    else if c == kSecAttrProtocolFTPProxy then Some(FTPProxy)
    else if c == kSecAttrProtocolSMB then Some(SMB)
    else if c == kSecAttrProtocolRTSP then Some(RTSP)
    else if c == kSecAttrProtocolRTSPProxy then Some(RTSPProxy)
    else if c == kSecAttrProtocolDAAP then Some(DAAP)
    else if c == kSecAttrProtocolEPPC then Some(EPPC)
    else if c == kSecAttrProtocolIPP then Some(IPP)
    else if c == kSecAttrProtocolNNTPS then Some(NNTPS)
    else if c == kSecAttrProtocolLDAPS then Some(LDAPS)
    else if c == kSecAttrProtocolTelnetS then Some(TelnetS)
    else if c == kSecAttrProtocolIMAPS then Some(IMAPS)
    else if c == kSecAttrProtocolIRCS then Some(IRCS)
    else if c == kSecAttrProtocolPOP3S then Some(POP3S)
    else None
  }

  lemma ProtocolRoundTrip1(x: AttrProtocol)
    requires x == FTP || x == FTPAccount || x == HTTP || x == IRC || x == NNTP || x == POP3 || x == SMTP || x == SOCKS
    ensures ProtocolConstOf(ProtocolConst(x)) == Some(x)
  {
  }

  lemma ProtocolRoundTrip2(x: AttrProtocol)
    requires x == IMAP || x == LDAP || x == AppleTalk || x == AFP || x == Telnet || x == SSH || x == FTPS || x == HTTPS
    ensures ProtocolConstOf(ProtocolConst(x)) == Some(x)
  {
  }

  lemma ProtocolRoundTrip3(x: AttrProtocol)
    requires x == HTTPProxy || x == HTTPSProxy || x == FTPProxy || x == SMB || x == RTSP || x == RTSPProxy || x == DAAP || x == EPPC
    ensures ProtocolConstOf(ProtocolConst(x)) == Some(x)
  {
  }

  lemma ProtocolRoundTrip4(x: AttrProtocol)
    requires x == IPP || x == NNTPS || x == LDAPS || x == TelnetS || x == IMAPS || x == IRCS || x == POP3S
    ensures ProtocolConstOf(ProtocolConst(x)) == Some(x)
  {
  }

  /** `ProtocolConstOf` recovers every protocol from its constant, so distinct protocols have distinct constants. */
  lemma ProtocolRoundTrip(x: AttrProtocol)
    ensures ProtocolConstOf(ProtocolConst(x)) == Some(x)
  {
    if x == FTP || x == FTPAccount || x == HTTP || x == IRC || x == NNTP || x == POP3 || x == SMTP || x == SOCKS {
      ProtocolRoundTrip1(x);
    }
    if x == IMAP || x == LDAP || x == AppleTalk || x == AFP || x == Telnet || x == SSH || x == FTPS || x == HTTPS {
      ProtocolRoundTrip2(x);
    }
    if x == HTTPProxy || x == HTTPSProxy || x == FTPProxy || x == SMB || x == RTSP || x == RTSPProxy || x == DAAP || x == EPPC {
      ProtocolRoundTrip3(x);
    }
    if x == IPP || x == NNTPS || x == LDAPS || x == TelnetS || x == IMAPS || x == IRCS || x == POP3S {
      ProtocolRoundTrip4(x);
    }
  }


  /** `ProtocolConstOf` is defined exactly on the constants `ProtocolConst` produces. */
  lemma ProtocolConstOfInverse(c: SecConst)
    ensures ProtocolConstOf(c).Some? <==> exists x :: ProtocolConst(x) == c
  {
    if exists x :: ProtocolConst(x) == c {
      var x :| ProtocolConst(x) == c;
      ProtocolRoundTrip(x);
    }
  }

  /** Tokens that can hold a key. */
  datatype AttrTokenId =
    SecureEnclave

  /** `AttrTokenId::as_CFString`: the `kSecAttrTokenID*` value constant of each variant. */
  function TokenIdConst(x: AttrTokenId): (c: SecConst)
  {
    match x
    case SecureEnclave => kSecAttrTokenIDSecureEnclave
  }

  /** The variant whose constant is `c`, if any. */
  function TokenIdConstOf(c: SecConst): (x: Option<AttrTokenId>)
    ensures x.Some? ==> TokenIdConst(x.value) == c
  {
    match c
    case kSecAttrTokenIDSecureEnclave => Some(SecureEnclave)
    case _ => None
  }

  /** `TokenIdConstOf` recovers every variant from its constant, so distinct variants have distinct constants. */
  lemma TokenIdRoundTrip(x: AttrTokenId)
    ensures TokenIdConstOf(TokenIdConst(x)) == Some(x)
  {
  }

  /** `TokenIdConstOf` is defined exactly on the constants `TokenIdConst` produces. */
  lemma TokenIdConstOfInverse(c: SecConst)
    ensures TokenIdConstOf(c).Some? <==> exists x :: TokenIdConst(x) == c
  {
    if exists x :: TokenIdConst(x) == c {
      var x :| TokenIdConst(x) == c;
      TokenIdRoundTrip(x);
    }
  }

  /** `AttrApplicationLabel`: an application label (a public-key fingerprint), held as `CFData`; `new` and `as_bytes` are its constructor and field. */
  datatype AttrApplicationLabel = AttrApplicationLabel(bytes: seq<byte>)

  /** `AttrApplicationTag`: an application tag, held as `CFData`; `new` and `as_bytes` are its constructor and field. */
  datatype AttrApplicationTag = AttrApplicationTag(bytes: seq<byte>)

  /** `AttrLabel`: a human-readable label, held as a `CFString`. */
  datatype AttrLabel = AttrLabel(text: string)

  /** `AttrApplicationTag::as_str`: the tag's bytes read as UTF-8. */
  function TagAsStr(tag: AttrApplicationTag): (r: StrResult)
    ensures r.Str? <==> IsValid(tag.bytes)
    ensures r.Str? ==> Encode(r.text) == tag.bytes
  {
    FromUtf8(tag.bytes)
  }

  /** `From<&str> for AttrApplicationTag`: the tag holding the UTF-8 bytes of `s`, which `as_str` gives back. */
  function TagFromStr(s: string): (tag: AttrApplicationTag)
    ensures TagAsStr(tag) == Str(s)
  {
    EncodeThenDecode(s);
    AttrApplicationTag(Encode(s))
  }

  /** A tag whose bytes are valid UTF-8 is the tag of the string they spell. */
  lemma TagStrRoundTrip(tag: AttrApplicationTag)
    requires TagAsStr(tag).Str?
    ensures TagFromStr(TagAsStr(tag).text) == tag
  {
  }

  /** A typed attribute value: the implementors of `TAttr`. */
  datatype TAttr =
    | AccessibleAttr(accessible: AttrAccessible)
    | ApplicationLabelAttr(applicationLabel: AttrApplicationLabel)
    | ApplicationTagAttr(applicationTag: AttrApplicationTag)
    | LabelAttr(itemLabel: AttrLabel)
    | KeyClassAttr(keyClass: AttrKeyClass)
    | KeyTypeAttr(keyType: AttrKeyType)
    | ProtocolAttr(protocol: AttrProtocol)
    | TokenIdAttr(tokenId: AttrTokenId)

  /** `TAttr::kind`: the attribute key each value type is stored under. */
  function Kind(a: TAttr): Attr
  {
    match a
    case AccessibleAttr(_) => Accessible
    case ApplicationLabelAttr(_) => ApplicationLabel
    case ApplicationTagAttr(_) => ApplicationTag
    case LabelAttr(_) => Label
    case KeyClassAttr(_) => KeyClass
    case KeyTypeAttr(_) => KeyType
    case ProtocolAttr(_) => Protocol
    case TokenIdAttr(_) => TokenId
  }

  /**
   * Reads a Core Foundation value back as the typed attribute stored under
   * key `k`, if it is one; the reference against which `as_CFType` is checked.
   */
  function DecodeAttr(k: Attr, v: Value): Option<TAttr>
  {
    match (k, v)
    case (Accessible, Constant(c)) =>
      (match AccessibleConstOf(c) case Some(x) => Some(AccessibleAttr(x)) case None => None)
    case (ApplicationLabel, Data(bytes)) => Some(ApplicationLabelAttr(AttrApplicationLabel(bytes)))
    case (ApplicationTag, Data(bytes)) => Some(ApplicationTagAttr(AttrApplicationTag(bytes)))
    case (Label, Text(text)) => Some(LabelAttr(AttrLabel(text)))
    case (KeyClass, Constant(c)) =>
      (match KeyClassConstOf(c) case Some(x) => Some(KeyClassAttr(x)) case None => None)
    case (KeyType, Constant(c)) =>
      (match KeyTypeConstOf(c) case Some(x) => Some(KeyTypeAttr(x)) case None => None)
    case (Protocol, Constant(c)) =>
      (match ProtocolConstOf(c) case Some(x) => Some(ProtocolAttr(x)) case None => None)
    case (TokenId, Constant(c)) =>
      (match TokenIdConstOf(c) case Some(x) => Some(TokenIdAttr(x)) case None => None)
    case _ => None
  }

  /**
   * `TAttr::as_CFType`: the value constant of an enumerated attribute, the
   * `CFData` of a label or tag, the `CFString` of a label. Read back under
   * the attribute's own kind it gives the attribute again.
   */
  function AsCFType(a: TAttr): (v: Value)
    ensures DecodeAttr(Kind(a), v) == Some(a)
  {
    match a
    case AccessibleAttr(x) => AccessibleRoundTrip(x); Constant(AccessibleConst(x))
    case ApplicationLabelAttr(appLabel) => Data(appLabel.bytes)
    case ApplicationTagAttr(tag) => Data(tag.bytes)
    case LabelAttr(itemLabel) => Text(itemLabel.text)
    case KeyClassAttr(x) => KeyClassRoundTrip(x); Constant(KeyClassConst(x))
    case KeyTypeAttr(x) => KeyTypeRoundTrip(x); Constant(KeyTypeConst(x))
    case ProtocolAttr(x) => ProtocolRoundTrip(x); Constant(ProtocolConst(x))
    case TokenIdAttr(x) => TokenIdRoundTrip(x); Constant(TokenIdConst(x))
  }

  /** Whatever `DecodeAttr` accepts is exactly what `as_CFType` produces for that kind. */
  lemma DecodeAttrSound(k: Attr, v: Value)
    requires DecodeAttr(k, v).Some?
    ensures Kind(DecodeAttr(k, v).value) == k
    ensures AsCFType(DecodeAttr(k, v).value) == v
  {
  }

  /** Two attributes giving the same key and value are the same attribute. */
  lemma AttrPairInjective(a: TAttr, b: TAttr)
    requires Kind(a) == Kind(b) && AsCFType(a) == AsCFType(b)
    ensures a == b
  {
    assert Some(a) == DecodeAttr(Kind(a), AsCFType(a)) == DecodeAttr(Kind(b), AsCFType(b)) == Some(b);
  }

  /**
   * The attribute keys of the `keychain` modules (`AttrKind`, whose
   * definition is not part of this model): the keys of `Attr` (with
   * `AttrKind::Permanent` being `IsPermanent`) and the key-usage keys of
   * key generation, which their doc comments name.
   */
  datatype AttrKind =
    | AttrKey(attr: Attr)
    | Derive | Decrypt | Encrypt | Sign | Verify | Wrap | Unwrap | Extractable | Sensitive

  /** The key constant of an `AttrKind`. */
  function KindConst(k: AttrKind): (c: SecConst)
  {
    match k
    case AttrKey(a) => AttrConst(a)
    case Derive => kSecKeyDerive
    case Decrypt => kSecKeyDecrypt
    case Encrypt => kSecKeyEncrypt
    case Sign => kSecKeySign
    case Verify => kSecKeyVerify
    case Wrap => kSecKeyWrap
    case Unwrap => kSecKeyUnwrap
    case Extractable => kSecKeyExtractable
    case Sensitive => kSecKeySensitive
  }

  /** The `AttrKind` whose constant is `c`, if any. */
  function KindConstOf(c: SecConst): (x: Option<AttrKind>)
    ensures x.Some? ==> KindConst(x.value) == c
  {
    match c
    case kSecKeyDerive => Some(Derive)
    case kSecKeyDecrypt => Some(Decrypt)
    case kSecKeyEncrypt => Some(Encrypt)
    case kSecKeySign => Some(Sign)
    case kSecKeyVerify => Some(Verify)
    case kSecKeyWrap => Some(Wrap)
    case kSecKeyUnwrap => Some(Unwrap)
    case kSecKeyExtractable => Some(Extractable)
    case kSecKeySensitive => Some(Sensitive)
    case _ => (match AttrConstOf(c) case Some(a) => Some(AttrKey(a)) case None => None)
  }

  /** `KindConstOf` recovers every variant from its constant, so distinct variants have distinct constants. */
  lemma KindRoundTrip(x: AttrKind)
    ensures KindConstOf(KindConst(x)) == Some(x)
  {
  }
}
