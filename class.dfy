/** The item classes of the `keychain` API (src/keychain/item/class.rs). */
module ItemClass {
  import opened Wrappers
  import opened Ffi
  import opened Errors

  /** A `FourCharacterCode`: the 32-bit tag the framework reports for an item class. */
  type FourCharCode = uint32

  /** `Class`: the five classes of keychain items. */
  datatype Class = GenericPassword | InternetPassword | Certificate | Key | Identity

  /** `Class::as_CFString`: the `kSecClass*` value constant of each class. */
  function ClassConst(c: Class): SecConst
  {
    match c
    case GenericPassword => kSecClassGenericPassword
    case InternetPassword => kSecClassInternetPassword
    case Certificate => kSecClassCertificate
    case Key => kSecClassKey
    case Identity => kSecClassIdentity
  }

  /** Distinct classes have distinct constants. */
  lemma ClassConstInjective(c: Class, d: Class)
    requires ClassConst(c) == ClassConst(d)
    ensures c == d
  {
  }

  /** The five class constants have pairwise distinct tags under `tagOf`. */
  predicate DistinctTags(tagOf: SecConst -> FourCharCode)
  {
    forall c: Class, d: Class :: c != d ==> tagOf(ClassConst(c)) != tagOf(ClassConst(d))
  }

  /**
   * `Class::from_tag`: compares the tag with the tags of the five class
   * constants in turn (`tagOf` is `FourCharacterCode::from` on a constant)
   * and returns the first class that matches, or nothing.
   */
  function FromTag(tag: FourCharCode, tagOf: SecConst -> FourCharCode): (c: Option<Class>)
    ensures c.Some? ==> tagOf(ClassConst(c.value)) == tag
    ensures c.None? <==> forall d: Class :: tagOf(ClassConst(d)) != tag
  {
    if tag == tagOf(kSecClassGenericPassword) then Some(GenericPassword)
    else if tag == tagOf(kSecClassInternetPassword) then Some(InternetPassword)
    else if tag == tagOf(kSecClassCertificate) then Some(Certificate)
    else if tag == tagOf(kSecClassKey) then Some(Key)
    else if tag == tagOf(kSecClassIdentity) then Some(Identity)
    else None
  }

  /** When the five tags are distinct, `from_tag` recovers every class from its own tag. */
  lemma FromTagOfOwnTag(c: Class, tagOf: SecConst -> FourCharCode)
    requires DistinctTags(tagOf)
    ensures FromTag(tagOf(ClassConst(c)), tagOf) == Some(c)
  {
    var r := FromTag(tagOf(ClassConst(c)), tagOf);
    assert r.Some?;
    assert tagOf(ClassConst(r.value)) == tagOf(ClassConst(c));
  }

  /** `From<FourCharacterCode> for Class`: `from_tag`, panicking on an unknown tag. */
  function ClassOfTag(tag: FourCharCode, tagOf: SecConst -> FourCharCode): (r: Outcome<Class>)
    ensures r.Panic? <==> FromTag(tag, tagOf).None?
    ensures r.Ok? ==> Some(r.value) == FromTag(tag, tagOf)
    ensures !r.Err?
  {
    match FromTag(tag, tagOf)
    case Some(c) => Ok(c)
    case None => Panic("invalid SecItemClass tag")
  }
}
