/**
 * Keychains (src/keychain/mod.rs): finding the default keychain, creating
 * and deleting keychains, and the two private helpers through which the
 * password types search for and add items. A keychain and an item are
 * carried as the framework references they wrap.
 */
module Keychains {
  import opened Wrappers
  import opened Ffi
  import opened CoreFoundation
  import opened Dictionaries
  import opened Errors
  import opened Utf8

  /** `Keychain`: a `SecKeychainRef`. */
  datatype Keychain = Keychain(handle: Ptr)

  /** `Keychain::find_default`: the status of `SecKeychainCopyDefault` decides; the keychain is taken only on success. */
  function FindDefault(copyDefault: StatusReply<Ptr>): (r: Outcome<Keychain>)
    ensures !r.Panic?
    ensures r.Err? <==> copyDefault.status != errSecSuccess
    ensures r.Err? ==> r.error == Error(KindOfStatus(copyDefault.status), copyDefault.message)
    ensures r.Ok? ==> r.value == Keychain(copyDefault.out)
  {
    match OfStatusReply(copyDefault)
    case Ok(p) => Ok(Keychain(p))
    case Err(e) => Err(e)
  }

  /** `Default for Keychain`: `find_default` with its error turned into a panic. */
  function Default(copyDefault: StatusReply<Ptr>): (r: Outcome<Keychain>)
    ensures !r.Err?
    ensures r.Panic? <==> FindDefault(copyDefault).Err?
    ensures r.Ok? ==> r == FindDefault(copyDefault)
  {
    match FindDefault(copyDefault)
    case Ok(k) => Ok(k)
    case _ => Panic("no default keychain available")
  }

  /** The arguments `SecKeychainCreate` receives (the initial access is always null). */
  datatype CreateCall = CreateCall(
    path: seq<byte>,
    passwordLength: uint32,
    password: Option<seq<byte>>,  // None: the null pointer
    promptUser: bool)

  /** `pw.len() as u32`: the byte length of the password, truncated to 32 bits. */
  function PasswordLength(pw: string): (n: uint32)
    ensures |Encode(pw)| < 0x1_0000_0000 ==> n == |Encode(pw)|
  {
    |Encode(pw)| % 0x1_0000_0000
  }

  /** The call `Keychain::create` makes for a NUL-free path. */
  function CreateCallOf(path: seq<byte>, password: Option<string>): CreateCall
  {
    match password
    case Some(pw) => CreateCall(path, PasswordLength(pw), Some(Encode(pw)), false)
    case None => CreateCall(path, 0, None, true)
  }

  /**
   * `Keychain::create`: `CString::new(path).unwrap()` panics on a path with
   * an interior NUL byte; otherwise the status of `SecKeychainCreate`
   * decides.
   */
  function Create(path: seq<byte>, password: Option<string>, keychainCreate: CreateCall -> StatusReply<Ptr>): (r: Outcome<Keychain>)
    ensures r.Panic? <==> 0 in path
    ensures !r.Panic? ==> (r.Err? <==> keychainCreate(CreateCallOf(path, password)).status != errSecSuccess)
    ensures r.Err? ==> r.error == Error(KindOfStatus(keychainCreate(CreateCallOf(path, password)).status),
                                        keychainCreate(CreateCallOf(path, password)).message)
    ensures r.Ok? ==> r.value == Keychain(keychainCreate(CreateCallOf(path, password)).out)
  {
    if 0 in path then Panic("called `Result::unwrap()` on an `Err` value: NulError")
    else
      match OfStatusReply(keychainCreate(CreateCallOf(path, password)))
      case Ok(p) => Ok(Keychain(p))
      case Err(e) => Err(e)
  }

  /**
   * The user is prompted for a password exactly when none is given, and a
   * given password is handed over as its UTF-8 bytes with their count.
   */
  lemma CreateCallPromptsIffNoPassword(path: seq<byte>, password: Option<string>)
    ensures CreateCallOf(path, password).promptUser <==> password.None?
    ensures CreateCallOf(path, password).path == path
    ensures password.None? ==> CreateCallOf(path, password).passwordLength == 0 && CreateCallOf(path, password).password.None?
    ensures password.Some? ==> CreateCallOf(path, password).password == Some(Encode(password.value))
    ensures password.Some? && |Encode(password.value)| < 0x1_0000_0000 ==>
      CreateCallOf(path, password).passwordLength == |CreateCallOf(path, password).password.value|
  {
  }

  /** `Keychain::delete`: the status of `SecKeychainDelete` decides. */
  function Delete(deleteStatus: StatusReply<()>): (r: Outcome<()>)
    ensures !r.Panic?
    ensures r.Ok? <==> deleteStatus.status == errSecSuccess
    ensures r.Err? ==> r.error == Error(KindOfStatus(deleteStatus.status), deleteStatus.message)
  {
    OfStatusReply(deleteStatus)
  }

  /** What `find_item` appends to the caller's query: match one item, return a reference to it. */
  function FindItemSuffix(): seq<Pair>
  {
    [(kSecMatchLimit, Constant(kSecMatchLimitOne)), (kSecReturnRef, Boolean(true))]
  }

  /** What `add_item` appends to the caller's attributes: the keychain to add to, return a reference. */
  function AddItemSuffix(keychain: Keychain): seq<Pair>
  {
    [(kSecUseKeychain, Object(keychain.handle)), (kSecReturnRef, Boolean(true))]
  }

  /**
   * `Keychain::find_item`: adds the match limit and the return-reference
   * flag to `attrs`, then `SecItemCopyMatching`'s status decides. The
   * keychain itself is not put into the query.
   */
  method FindItem(keychain: Keychain, attrs: DictionaryBuilder, copyMatching: Dictionary -> StatusReply<Ptr>)
    returns (r: Outcome<Ptr>)
    modifies attrs
    ensures attrs.pairs == old(attrs.pairs) + FindItemSuffix()
    ensures r == OfStatusReply(copyMatching(Dictionary(old(attrs.pairs) + FindItemSuffix())))
  {
    attrs.Add(kSecMatchLimit, Constant(kSecMatchLimitOne));
    attrs.AddBoolean(kSecReturnRef, true);
    r := OfStatusReply(copyMatching(attrs.ToDictionary()));
  }

  /**
   * `Keychain::add_item`: adds this keychain and the return-reference flag
   * to `attrs`, then `SecItemAdd`'s status decides.
   */
  method AddItem(keychain: Keychain, attrs: DictionaryBuilder, itemAdd: Dictionary -> StatusReply<Ptr>)
    returns (r: Outcome<Ptr>)
    modifies attrs
    ensures attrs.pairs == old(attrs.pairs) + AddItemSuffix(keychain)
    ensures r == OfStatusReply(itemAdd(Dictionary(old(attrs.pairs) + AddItemSuffix(keychain))))
  {
    attrs.Add(kSecUseKeychain, Object(keychain.handle));
    attrs.AddBoolean(kSecReturnRef, true);
    r := OfStatusReply(itemAdd(attrs.ToDictionary()));
  }

  /**
   * The search `find_item` makes names a keychain only if the caller's
   * query already did: the keychain searched is not restricted by the
   * receiver.
   */
  lemma {:induction false} FindItemLeavesKeychainOut(pairs: seq<Pair>)
    ensures Occurrences(pairs + FindItemSuffix(), kSecUseKeychain) == Occurrences(pairs, kSecUseKeychain)
    ensures Occurrences(pairs + FindItemSuffix(), kSecReturnRef) == Occurrences(pairs, kSecReturnRef) + 1
  {
    OccurrencesAppend(pairs, (kSecMatchLimit, Constant(kSecMatchLimitOne)), kSecUseKeychain);
    OccurrencesAppend(pairs + [(kSecMatchLimit, Constant(kSecMatchLimitOne))], (kSecReturnRef, Boolean(true)), kSecUseKeychain);
    OccurrencesAppend(pairs, (kSecMatchLimit, Constant(kSecMatchLimitOne)), kSecReturnRef);
    OccurrencesAppend(pairs + [(kSecMatchLimit, Constant(kSecMatchLimitOne))], (kSecReturnRef, Boolean(true)), kSecReturnRef);
    assert pairs + FindItemSuffix() == pairs + [(kSecMatchLimit, Constant(kSecMatchLimitOne))] + [(kSecReturnRef, Boolean(true))];
  }

  /** The attributes `add_item` hands over name exactly one keychain more than the caller's did, and it is the receiver. */
  lemma {:induction false} AddItemNamesKeychain(keychain: Keychain, pairs: seq<Pair>)
    ensures Occurrences(pairs + AddItemSuffix(keychain), kSecUseKeychain) == Occurrences(pairs, kSecUseKeychain) + 1
    ensures (pairs + AddItemSuffix(keychain))[|pairs|] == (kSecUseKeychain, Object(keychain.handle))
  {
    var p1 := (kSecUseKeychain, Object(keychain.handle));
    OccurrencesAppend(pairs, p1, kSecUseKeychain);
    OccurrencesAppend(pairs + [p1], (kSecReturnRef, Boolean(true)), kSecUseKeychain);
    assert pairs + AddItemSuffix(keychain) == pairs + [p1] + [(kSecReturnRef, Boolean(true))];
  }
}
