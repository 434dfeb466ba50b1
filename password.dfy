/**
 * Password items (src/keychain/item/password.rs): the attribute lists with
 * which generic and Internet passwords are created and looked up, their
 * string attributes, and `PasswordData`, the buffer holding a password that
 * is overwritten with zeros when dropped.
 */
module Passwords {
  import opened Wrappers
  import opened Ffi
  import opened CoreFoundation
  import opened Attrs
  import opened Dictionaries
  import opened Errors
  import opened Utf8
  import opened Keychains
  import opened KeychainItems
  import ItemClass

  /** The query of `GenericPassword::find`: the generic-password class, the service and the account. */
  function GenericFindPairs(service: string, account: string): seq<Pair>
  {
    [(kSecClass, Constant(kSecClassGenericPassword)), (kSecAttrService, Text(service)), (kSecAttrAccount, Text(account))]
  }

  /** The attributes of `GenericPassword::create`: the query's pairs, then the password as a string. */
  function GenericCreatePairs(service: string, account: string, password: string): seq<Pair>
  {
    GenericFindPairs(service, account) + [(kSecValueData, Text(password))]
  }

  /** The query of `InternetPassword::find`: the Internet-password class, the server, the account and the protocol if one is given. */
  function InternetFindPairs(server: string, account: string, protocol: Option<AttrProtocol>): seq<Pair>
  {
    [(kSecClass, Constant(kSecClassInternetPassword)), (kSecAttrServer, Text(server)), (kSecAttrAccount, Text(account))]
      + (if protocol.Some? then [(kSecAttrProtocol, Constant(ProtocolConst(protocol.value)))] else [])
  }

  /** The attributes of `InternetPassword::create`: class, server and account, then the password as a string. */
  function InternetCreatePairs(server: string, account: string, password: string): seq<Pair>
  {
    InternetFindPairs(server, account, None) + [(kSecValueData, Text(password))]
  }

  /** `GenericPassword::create`: builds the attributes in order and adds them to `keychain`; the result is the new item. */
  method CreateGeneric(keychain: Keychain, service: string, account: string, password: string,
                       itemAdd: Dictionary -> StatusReply<Ptr>) returns (r: Outcome<Ptr>)
    ensures r == OfStatusReply(itemAdd(Dictionary(GenericCreatePairs(service, account, password) + AddItemSuffix(keychain))))
  {
    var attrs := new DictionaryBuilder();
    attrs.Add(kSecClass, Constant(ItemClass.ClassConst(ItemClass.GenericPassword)));
    attrs.AddString(KindConst(AttrKey(Attr.Service)), service);
    attrs.AddString(KindConst(AttrKey(Attr.Account)), account);
    attrs.AddString(kSecValueData, password);
    assert attrs.pairs == GenericCreatePairs(service, account, password);
    r := AddItem(keychain, attrs, itemAdd);
  }

  /** `GenericPassword::find`: builds the query in order and looks up one item with it. */
  method FindGeneric(keychain: Keychain, service: string, account: string,
                     copyMatching: Dictionary -> StatusReply<Ptr>) returns (r: Outcome<Ptr>)
    ensures r == OfStatusReply(copyMatching(Dictionary(GenericFindPairs(service, account) + FindItemSuffix())))
  {
    var attrs := new DictionaryBuilder();
    attrs.Add(kSecClass, Constant(ItemClass.ClassConst(ItemClass.GenericPassword)));
    attrs.AddString(KindConst(AttrKey(Attr.Service)), service);
    attrs.AddString(KindConst(AttrKey(Attr.Account)), account);
    assert attrs.pairs == GenericFindPairs(service, account);
    r := FindItem(keychain, attrs, copyMatching);
  }

  /** `InternetPassword::create`: as for generic passwords, with the server in place of the service. */
  method CreateInternet(keychain: Keychain, server: string, account: string, password: string,
                        itemAdd: Dictionary -> StatusReply<Ptr>) returns (r: Outcome<Ptr>)
    ensures r == OfStatusReply(itemAdd(Dictionary(InternetCreatePairs(server, account, password) + AddItemSuffix(keychain))))
  {
    var attrs := new DictionaryBuilder();
    attrs.Add(kSecClass, Constant(ItemClass.ClassConst(ItemClass.InternetPassword)));
    attrs.AddString(KindConst(AttrKey(Attr.Server)), server);
    attrs.AddString(KindConst(AttrKey(Attr.Account)), account);
    attrs.AddString(kSecValueData, password);
    assert attrs.pairs == InternetCreatePairs(server, account, password);
    r := AddItem(keychain, attrs, itemAdd);
  }

  /** `InternetPassword::find`: class, server and account, then the protocol attribute when one is given. */
  method FindInternet(keychain: Keychain, server: string, account: string, protocol: Option<AttrProtocol>,
                      copyMatching: Dictionary -> StatusReply<Ptr>) returns (r: Outcome<Ptr>)
    ensures r == OfStatusReply(copyMatching(Dictionary(InternetFindPairs(server, account, protocol) + FindItemSuffix())))
  {
    var attrs := new DictionaryBuilder();
    attrs.Add(kSecClass, Constant(ItemClass.ClassConst(ItemClass.InternetPassword)));
    attrs.AddString(KindConst(AttrKey(Attr.Server)), server);
    attrs.AddString(KindConst(AttrKey(Attr.Account)), account);
    assert attrs.pairs == InternetFindPairs(server, account, None);
    if protocol.Some? {
      attrs.AddAttr(ProtocolAttr(protocol.value));
      assert attrs.pairs == InternetFindPairs(server, account, None) + [(kSecAttrProtocol, Constant(ProtocolConst(protocol.value)))];
    }
    assert attrs.pairs == InternetFindPairs(server, account, protocol);
    r := FindItem(keychain, attrs, copyMatching);
  }

  /** Counting a key among three pairs. */
  lemma {:induction false} OccurrencesOfThree(a: Pair, b: Pair, c: Pair, key: SecConst)
    ensures Occurrences([a, b, c], key) == (if a.0 == key then 1 else 0) + (if b.0 == key then 1 else 0) + (if c.0 == key then 1 else 0)
  {
    assert [a, b, c][1..] == [b, c];
    assert [b, c][1..] == [c];
    assert [c][1..] == [];
    assert Occurrences([c], key) == (if c.0 == key then 1 else 0) + Occurrences([], key);
    assert Occurrences([b, c], key) == (if b.0 == key then 1 else 0) + Occurrences([c], key);
  }

  /**
   * What `create` stores is what `find` looks for: the created attributes
   * are the query's pairs followed by exactly one password pair, which the
   * query itself does not hold.
   */
  lemma {:induction false} GenericCreateExtendsFind(service: string, account: string, password: string)
    ensures GenericCreatePairs(service, account, password)[..3] == GenericFindPairs(service, account)
    ensures Occurrences(GenericFindPairs(service, account), kSecValueData) == 0
    ensures Occurrences(GenericCreatePairs(service, account, password), kSecValueData) == 1
    ensures GenericCreatePairs(service, account, password)[3] == (kSecValueData, Text(password))
  {
    var q := GenericFindPairs(service, account);
    OccurrencesOfThree(q[0], q[1], q[2], kSecValueData);
    OccurrencesAppend(q, (kSecValueData, Text(password)), kSecValueData);
  }

  /** The same for Internet passwords, whose create never names a protocol. */
  lemma {:induction false} InternetCreateExtendsFind(server: string, account: string, password: string)
    ensures InternetCreatePairs(server, account, password)[..3] == InternetFindPairs(server, account, None)
    ensures Occurrences(InternetFindPairs(server, account, None), kSecValueData) == 0
    ensures Occurrences(InternetCreatePairs(server, account, password), kSecValueData) == 1
    ensures Occurrences(InternetCreatePairs(server, account, password), kSecAttrProtocol) == 0
  {
    var q := InternetFindPairs(server, account, None);
    assert q == [q[0], q[1], q[2]];
    OccurrencesOfThree(q[0], q[1], q[2], kSecValueData);
    OccurrencesOfThree(q[0], q[1], q[2], kSecAttrProtocol);
    OccurrencesAppend(q, (kSecValueData, Text(password)), kSecValueData);
    OccurrencesAppend(q, (kSecValueData, Text(password)), kSecAttrProtocol);
  }

  /**
   * `InternetPassword::find` names a protocol exactly when one is given, and
   * the protocol pair decodes back to that protocol.
   */
  lemma {:induction false} InternetFindProtocol(server: string, account: string, protocol: Option<AttrProtocol>)
    ensures Occurrences(InternetFindPairs(server, account, protocol), kSecAttrProtocol) == (if protocol.Some? then 1 else 0)
    ensures protocol.Some? ==>
      DecodeAttr(Protocol, InternetFindPairs(server, account, protocol)[3].1) == Some(ProtocolAttr(protocol.value))
  {
    var base := InternetFindPairs(server, account, None);
    assert base == [base[0], base[1], base[2]];
    OccurrencesOfThree(base[0], base[1], base[2], kSecAttrProtocol);
    if protocol.Some? {
      var p := (kSecAttrProtocol, Constant(ProtocolConst(protocol.value)));
      assert InternetFindPairs(server, account, protocol) == base + [p];
      OccurrencesAppend(base, p, kSecAttrProtocol);
      assert AsCFType(ProtocolAttr(protocol.value)) == p.1;
    } else {
      assert InternetFindPairs(server, account, protocol) == base;
    }
  }

  /** A generic-password query and an Internet-password query never ask for the same class. */
  lemma GenericAndInternetQueriesDiffer(service: string, server: string, account: string, protocol: Option<AttrProtocol>)
    ensures GenericFindPairs(service, account)[0].0 == InternetFindPairs(server, account, protocol)[0].0 == kSecClass
    ensures GenericFindPairs(service, account)[0].1 != InternetFindPairs(server, account, protocol)[0].1
  {
  }

  /** `text` is the string value of the first attribute of `attrs` whose tag decodes to `kind`. */
  predicate ReadsAttribute(kind: AttrKind, attrs: seq<ItemAttribute>, kindOfTag: ItemClass.FourCharCode -> Option<AttrKind>, text: string)
  {
    var i := FindAttr(attrs, kind, kindOfTag);
    i.Some? && attrs[i.value].data == Some(Encode(text))
  }

  /**
   * `GenericPassword::account` and `InternetPassword::account`: the item's
   * account attribute, read through the intended `attribute`.
   */
  function Account(copyAttributes: StatusReply<seq<ItemAttribute>>, kindOfTag: ItemClass.FourCharCode -> Option<AttrKind>, freeStatus: OSStatus): (r: Outcome<string>)
    ensures r.Ok? ==> copyAttributes.status == errSecSuccess && ReadsAttribute(AttrKey(Attr.Account), copyAttributes.out, kindOfTag, r.value)
    ensures r.Err? && copyAttributes.status == errSecSuccess ==> r.error.kind == NoSuchAttr
  {
    Attribute(AttrKey(Attr.Account), copyAttributes, kindOfTag, freeStatus)
  }

  /** `GenericPassword::service`: the item's service attribute, read through the intended `attribute`. */
  function Service(copyAttributes: StatusReply<seq<ItemAttribute>>, kindOfTag: ItemClass.FourCharCode -> Option<AttrKind>, freeStatus: OSStatus): (r: Outcome<string>)
    ensures r.Ok? ==> copyAttributes.status == errSecSuccess && ReadsAttribute(AttrKey(Attr.Service), copyAttributes.out, kindOfTag, r.value)
    ensures r.Err? && copyAttributes.status == errSecSuccess ==> r.error.kind == NoSuchAttr
  {
    Attribute(AttrKey(Attr.Service), copyAttributes, kindOfTag, freeStatus)
  }

  /** `InternetPassword::server`: the item's server attribute, read through the intended `attribute`. */
  function Server(copyAttributes: StatusReply<seq<ItemAttribute>>, kindOfTag: ItemClass.FourCharCode -> Option<AttrKind>, freeStatus: OSStatus): (r: Outcome<string>)
    ensures r.Ok? ==> copyAttributes.status == errSecSuccess && ReadsAttribute(AttrKey(Attr.Server), copyAttributes.out, kindOfTag, r.value)
    ensures r.Err? && copyAttributes.status == errSecSuccess ==> r.error.kind == NoSuchAttr
  {
    Attribute(AttrKey(Attr.Server), copyAttributes, kindOfTag, freeStatus)
  }

  /** `PasswordData`: the bytes of a password, in a buffer of its own. */
  class PasswordData {
    var buffer: array<byte>

    /** `PasswordData(bytes)`: takes the bytes into a new buffer. */
    constructor (bytes: seq<byte>)
      ensures fresh(buffer)
      ensures AsBytes() == bytes
    {
      buffer := new byte[|bytes|](i requires 0 <= i < |bytes| => bytes[i]);
    }

    /** `as_bytes`: the bytes held. */
    function AsBytes(): seq<byte>
      reads this, buffer
    {
      buffer[..]
    }

    /** `AsRef<[u8]>`: the same bytes as `as_bytes`. */
    function AsRef(): (r: seq<byte>)
      reads this, buffer
      ensures r == AsBytes()
    {
      AsBytes()
    }

    /** `try_as_str`: the password as a string exactly when its bytes are valid UTF-8. */
    function TryAsStr(): (r: StrResult)
      reads this, buffer
      ensures r.Str? <==> IsValid(AsBytes())
      ensures r.Str? ==> Encode(r.text) == AsBytes()
    {
      FromUtf8(AsBytes())
    }

    /** `as_str`: `try_as_str`, panicking on invalid UTF-8. */
    function AsStr(): (r: Outcome<string>)
      reads this, buffer
      ensures !r.Err?
      ensures r.Panic? <==> !IsValid(AsBytes())
      ensures r.Ok? ==> Encode(r.value) == AsBytes()
    {
      match TryAsStr()
      case Str(text) => Ok(text)
      case Utf8Error => Panic("password contained invalid UTF-8")
    }

    /** `Drop`: `zeroize` overwrites every byte of the buffer with zero, in place. */
    method Drop()
      modifies buffer
      ensures AsBytes() == seq(buffer.Length, _ => 0)
    {
      var i := 0;
      while i < buffer.Length
        invariant 0 <= i <= buffer.Length
        invariant forall j :: 0 <= j < i ==> buffer[j] == 0
      {
        buffer[i] := 0;
        i := i + 1;
      }
    }
  }

  /**
   * `GenericPassword::password` and `InternetPassword::password` as
   * intended: the item's data, read through the corrected `data`, in a new
   * `PasswordData`, or the error `data` gave.
   */
  method Password(item: Ptr, copyContent: Ptr -> StatusReply<Content>, freeStatus: OSStatus)
    returns (r: Outcome<PasswordData>)
    requires InBounds(copyContent(item).out.length, copyContent(item).out.buffer)
    ensures r.Ok? <==> copyContent(item).status == errSecSuccess && copyContent(item).out.buffer.Some? && freeStatus == errSecSuccess
    ensures r.Ok? ==> fresh(r.value) && fresh(r.value.buffer)
    ensures r.Ok? ==> r.value.AsBytes() == copyContent(item).out.buffer.value[..copyContent(item).out.length]
    ensures copyContent(item).status != errSecSuccess ==>
      r == Err(Error(KindOfStatus(copyContent(item).status), copyContent(item).message))
  {
    var data := KeychainItems.Data(item, copyContent, freeStatus);
    match data
    case Ok(bytes) =>
      var password := new PasswordData(bytes);
      r := Ok(password);
    case Err(e) =>
      r := Err(e);
    case Panic(m) =>
      r := Panic(m);
  }

  /**
   * `GenericPassword::password` and `InternetPassword::password` as written:
   * they call `data` as written, which never returns the buffer, so no
   * password is ever returned; a failing status is its error and every
   * successful call ends in `MissingEntitlement`.
   */
  method PasswordAsWritten(item: Ptr, copyContent: Ptr -> StatusReply<Content>, freeStatus: OSStatus)
    returns (r: Outcome<PasswordData>)
    ensures !r.Ok? && !r.Panic?
    ensures copyContent(item).status != errSecSuccess ==>
      r == Err(Error(KindOfStatus(copyContent(item).status), copyContent(item).message))
    ensures copyContent(item).status == errSecSuccess ==> r == Err(RefusedData)
  {
    var data := KeychainItems.DataAsWritten(item, copyContent, freeStatus);
    match data
    case Err(e) =>
      r := Err(e);
  }
}
