/** The item classes of the older query API (src/item.rs). */
module Items {
  import opened Wrappers
  import opened Ffi

  /** `SecClass`: the five classes of keychain items. */
  datatype SecClass = GenericPassword | InternetPassword | Certificate | Key | Identity

  /** `SecClass::as_CFString`: the `kSecClass*` value constant of each class. */
  function SecClassConst(c: SecClass): SecConst
  {
    match c
    case GenericPassword => kSecClassGenericPassword
    case InternetPassword => kSecClassInternetPassword
    case Certificate => kSecClassCertificate
    case Key => kSecClassKey
    case Identity => kSecClassIdentity
  }

  /** The class whose constant is `k`, if any. */
  function SecClassOfConst(k: SecConst): (c: Option<SecClass>)
    ensures c.Some? ==> SecClassConst(c.value) == k
  {
    match k
    case kSecClassGenericPassword => Some(GenericPassword)
    case kSecClassInternetPassword => Some(InternetPassword)
    case kSecClassCertificate => Some(Certificate)
    case kSecClassKey => Some(Key)
    case kSecClassIdentity => Some(Identity)
    case _ => None
  }

  /** Every class is recovered from its constant, so distinct classes have distinct constants. */
  lemma SecClassRoundTrip(c: SecClass)
    ensures SecClassOfConst(SecClassConst(c)) == Some(c)
  {
  }
}
