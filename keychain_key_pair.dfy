/**
 * Key pairs of the `keychain` API (src/keychain/key/pair.rs): the
 * `KeyPairGenerateParams` builder, whose setters append private-key
 * attributes to a dictionary builder, the generation dictionary it becomes,
 * the attributes for restoring a key from its external representation, and
 * how `KeyPair::create` and `KeyPair::generate` read the framework's reply.
 */
module KeychainKeyPairs {
  import opened Wrappers
  import opened Ffi
  import opened CoreFoundation
  import opened Attrs
  import opened Dictionaries
  import opened Errors

  /** A public key and a private key; each is the framework reference the pair wraps. */
  datatype KeyPair = KeyPair(publicKey: Ptr, privateKey: Ptr)

  /**
   * The dictionary handed to `SecKeyGeneratePair` and `SecKeyCreateRandomKey`:
   * the key type, the key size in bits, and the private-key attributes as a
   * nested dictionary, in that order and nothing else.
   */
  function GenerateDictionary(keyType: AttrKeyType, keySizeInBits: int64, privateAttrs: seq<Pair>): Dictionary
  {
    Dictionary([(kSecAttrKeyType, Constant(KeyTypeConst(keyType))),
                (kSecAttrKeySizeInBits, Number(keySizeInBits)),
                (kSecPrivateKeyAttrs, Nested(Dictionary(privateAttrs)))])
  }

  /** What a generation dictionary asks for: key type, size in bits, private-key attributes. */
  datatype GenerateRequest = GenerateRequest(keyType: AttrKeyType, keySizeInBits: int64, privateAttrs: seq<Pair>)

  /** Reads a dictionary back as a generation request, if it has the shape of one. */
  function DecodeGenerateDictionary(d: Dictionary): Option<GenerateRequest>
  {
    if |d.pairs| == 3 && d.pairs[0].0.kSecAttrKeyType? && d.pairs[1].0.kSecAttrKeySizeInBits?
       && d.pairs[2].0.kSecPrivateKeyAttrs? && d.pairs[1].1.Number? && d.pairs[2].1.Nested?
    then
      match DecodeAttr(KeyType, d.pairs[0].1)
      case Some(KeyTypeAttr(t)) => Some(GenerateRequest(t, d.pairs[1].1.number, d.pairs[2].1.dictionary.pairs))
      case _ => None
    else None
  }

  /** A generation dictionary gives back exactly the request it was built from. */
  lemma GenerateDictionaryDecodes(keyType: AttrKeyType, keySizeInBits: int64, privateAttrs: seq<Pair>)
    ensures DecodeGenerateDictionary(GenerateDictionary(keyType, keySizeInBits, privateAttrs))
            == Some(GenerateRequest(keyType, keySizeInBits, privateAttrs))
  {
    KeyTypeRoundTrip(keyType);
  }

  /** Every dictionary that reads as a generation request is the generation dictionary of that request. */
  lemma DecodedIsGenerateDictionary(d: Dictionary)
    requires DecodeGenerateDictionary(d).Some?
    ensures var r := DecodeGenerateDictionary(d).value;
            d == GenerateDictionary(r.keyType, r.keySizeInBits, r.privateAttrs)
  {
    var r := DecodeGenerateDictionary(d).value;
    DecodeAttrSound(KeyType, d.pairs[0].1);
    assert d.pairs == [d.pairs[0], d.pairs[1], d.pairs[2]];
  }

  /**
   * A generation dictionary has exactly three top-level keys, in this order;
   * every private-key attribute, a token identifier included, sits inside
   * the nested dictionary and never at the top level.
   */
  lemma GenerateDictionaryKeys(keyType: AttrKeyType, keySizeInBits: int64, privateAttrs: seq<Pair>)
    ensures Keys(GenerateDictionary(keyType, keySizeInBits, privateAttrs).pairs)
            == [kSecAttrKeyType, kSecAttrKeySizeInBits, kSecPrivateKeyAttrs]
    ensures kSecAttrTokenID !in Keys(GenerateDictionary(keyType, keySizeInBits, privateAttrs).pairs)
  {
    var keys := Keys(GenerateDictionary(keyType, keySizeInBits, privateAttrs).pairs);
    assert keys == [keys[0], keys[1], keys[2]];
  }

  /**
   * `KeyPairGenerateParams`: key type and size, and a builder of the
   * private-key attributes the setters append to.
   */
  class KeyPairGenerateParams {
    var keyType: AttrKeyType
    var keySize: usize
    var attrs: DictionaryBuilder

    /** `new`: the type and size, and no private-key attribute yet. */
    constructor (keyType: AttrKeyType, keySize: usize)
      ensures this.keyType == keyType && this.keySize == keySize
      ensures fresh(attrs) && attrs.pairs == []
    {
      this.keyType := keyType;
      this.keySize := keySize;
      attrs := new DictionaryBuilder();
    }

    /** `access_control`: appends the access-control object under `kSecAttrAccessControl`. */
    method AccessControl(accessControl: Ptr)
      modifies attrs
      ensures attrs.pairs == old(attrs.pairs) + [(kSecAttrAccessControl, Object(accessControl))]
    {
      attrs.Add(KindConst(AttrKey(Attr.AccessControl)), Object(accessControl));
    }

    /** `application_tag`: appends the tag bytes under `kSecAttrApplicationTag`. */
    method ApplicationTag(tag: AttrApplicationTag)
      modifies attrs
      ensures attrs.pairs == old(attrs.pairs) + [(kSecAttrApplicationTag, Data(tag.bytes))]
    {
      attrs.AddAttr(ApplicationTagAttr(tag));
    }

    /** `can_derive`: appends the flag under `kSecKeyDerive`. */
    method CanDerive(value: bool)
      modifies attrs
      ensures attrs.pairs == old(attrs.pairs) + [(kSecKeyDerive, Boolean(value))]
    {
      attrs.AddBoolean(KindConst(Derive), value);
    }

    /** `can_decrypt`: appends the flag under `kSecKeyDecrypt`. */
    method CanDecrypt(value: bool)
      modifies attrs
      ensures attrs.pairs == old(attrs.pairs) + [(kSecKeyDecrypt, Boolean(value))]
    {
      attrs.AddBoolean(KindConst(Decrypt), value);
    }

    /** `can_encrypt`: appends the flag under `kSecKeyEncrypt`. */
    method CanEncrypt(value: bool)
      modifies attrs
      ensures attrs.pairs == old(attrs.pairs) + [(kSecKeyEncrypt, Boolean(value))]
    {
      attrs.AddBoolean(KindConst(Encrypt), value);
    }

    /** `can_sign`: appends the flag under `kSecKeySign`. */
    method CanSign(value: bool)
      modifies attrs
      ensures attrs.pairs == old(attrs.pairs) + [(kSecKeySign, Boolean(value))]
    {
      attrs.AddBoolean(KindConst(Sign), value);
    }

    /** `can_verify`: appends the flag under `kSecKeyVerify`. */
    method CanVerify(value: bool)
      modifies attrs
      ensures attrs.pairs == old(attrs.pairs) + [(kSecKeyVerify, Boolean(value))]
    {
      attrs.AddBoolean(KindConst(Verify), value);
    }

    /** `can_wrap`: appends the flag under `kSecKeyWrap`. */
    method CanWrap(value: bool)
      modifies attrs
      ensures attrs.pairs == old(attrs.pairs) + [(kSecKeyWrap, Boolean(value))]
    {
      attrs.AddBoolean(KindConst(Wrap), value);
    }

    /** `can_unwrap`: appends the flag under `kSecKeyUnwrap`. */
    method CanUnwrap(value: bool)
      modifies attrs
      ensures attrs.pairs == old(attrs.pairs) + [(kSecKeyUnwrap, Boolean(value))]
    {
      attrs.AddBoolean(KindConst(Unwrap), value);
    }

    /** `key_class`: appends the class constant under `kSecAttrKeyClass`. */
    method KeyClass(value: AttrKeyClass)
      modifies attrs
      ensures attrs.pairs == old(attrs.pairs) + [(kSecAttrKeyClass, Constant(KeyClassConst(value)))]
    {
      attrs.Add(KindConst(AttrKey(Attr.KeyClass)), Constant(KeyClassConst(value)));
    }

    /** `extractable`: appends the flag under `kSecKeyExtractable`. */
    method Extractable(value: bool)
      modifies attrs
      ensures attrs.pairs == old(attrs.pairs) + [(kSecKeyExtractable, Boolean(value))]
    {
      attrs.AddBoolean(KindConst(AttrKind.Extractable), value);
    }

    /** `permanent`: appends the flag under `kSecAttrIsPermanent`. */
    method Permanent(value: bool)
      modifies attrs
      ensures attrs.pairs == old(attrs.pairs) + [(kSecAttrIsPermanent, Boolean(value))]
    {
      attrs.AddBoolean(KindConst(AttrKey(IsPermanent)), value);
    }

    /** `sensitive`: appends the flag under `kSecKeySensitive`. */
    method Sensitive(value: bool)
      modifies attrs
      ensures attrs.pairs == old(attrs.pairs) + [(kSecKeySensitive, Boolean(value))]
    {
      attrs.AddBoolean(KindConst(AttrKind.Sensitive), value);
    }

    /** `label`: appends the label text under `kSecAttrLabel`. */
    method Label(itemLabel: AttrLabel)
      modifies attrs
      ensures attrs.pairs == old(attrs.pairs) + [(kSecAttrLabel, Text(itemLabel.text))]
    {
      attrs.AddAttr(LabelAttr(itemLabel));
    }

    /** `synchronizable`: appends the flag under `kSecAttrSynchronizable`. */
    method Synchronizable(value: bool)
      modifies attrs
      ensures attrs.pairs == old(attrs.pairs) + [(kSecAttrSynchronizable, Boolean(value))]
    {
      attrs.AddBoolean(KindConst(AttrKey(Attr.Synchronizable)), value);
    }

    /** `token_id`: appends the token constant under `kSecAttrTokenID`. */
    method TokenId(value: AttrTokenId)
      modifies attrs
      ensures attrs.pairs == old(attrs.pairs) + [(kSecAttrTokenID, Constant(TokenIdConst(value)))]
    {
      attrs.AddAttr(TokenIdAttr(value));
    }

    /**
     * `From<KeyPairGenerateParams> for Dictionary`: the generation dictionary
     * of the type, of the size as an `i64`, and of the private-key attributes
     * in the order the setters were called.
     */
    method IntoDictionary() returns (d: Dictionary)
      ensures d == GenerateDictionary(keyType, UsizeAsI64(keySize), attrs.pairs)
    {
      var result := new DictionaryBuilder();
      result.AddAttr(KeyTypeAttr(keyType));
      result.AddNumber(KindConst(AttrKey(KeySizeInBits)), UsizeAsI64(keySize));
      result.Add(kSecPrivateKeyAttrs, Nested(attrs.ToDictionary()));
      d := result.ToDictionary();
    }
  }

  /**
   * How `generate` reads `SecKeyGeneratePair`'s reply: the translated error
   * for a failing status; on success the two references, after asserting
   * that neither is null.
   */
  function PairOfGenerateReply(reply: StatusReply<(Ptr, Ptr)>): (r: Outcome<KeyPair>)
    ensures r.Err? <==> reply.status != errSecSuccess
    ensures r.Err? ==> Some(r.error) == MaybeFromOSStatus(reply.status, reply.message)
    ensures r.Panic? <==> reply.status == errSecSuccess && (reply.out.0.Null? || reply.out.1.Null?)
    ensures r.Ok? ==> r.value == KeyPair(reply.out.0, reply.out.1)
    ensures r.Ok? ==> r.value.publicKey.Ref? && r.value.privateKey.Ref?
  {
    match MaybeFromOSStatus(reply.status, reply.message)
    case Some(e) => Err(e)
    case None =>
      if reply.out.0.Null? then Panic("assertion failed: !public_key_ref.is_null()")
      else if reply.out.1.Null? then Panic("assertion failed: !private_key_ref.is_null()")
      else Ok(KeyPair(reply.out.0, reply.out.1))
  }

  /**
   * How `create` reads `SecKeyCreateRandomKey`'s reply: a null private key
   * means the error out-parameter is turned into the error; otherwise the
   * public key is copied from the private one and asserted non-null.
   * Turning a null error reference into an error is not defined behaviour
   * in the source; it is modelled as a crash.
   */
  function PairOfCreateReply(reply: ErrorReply<Ptr>, copyPublicKey: Ptr -> Ptr): (r: Outcome<KeyPair>)
    ensures r.Err? <==> reply.out.Null? && reply.error.Some?
    ensures r.Err? ==> r.error == FromCFError(reply.error.value)
    ensures r.Ok? <==> reply.out.Ref? && copyPublicKey(reply.out).Ref?
    ensures r.Ok? ==> r.value == KeyPair(copyPublicKey(reply.out), reply.out)
  {
    if reply.out.Null? then
      (match reply.error
       case Some(e) => Err(FromCFError(e))
       case None => Panic("null CFErrorRef"))
    else
      var publicKey := copyPublicKey(reply.out);
      if publicKey.Null? then Panic("assertion failed: !public_key_ref.is_null()")
      else Ok(KeyPair(publicKey, reply.out))
  }

  /** `KeyPair::create`: the framework is given the generation dictionary of `params`. */
  method Create(params: KeyPairGenerateParams, createRandomKey: Dictionary -> ErrorReply<Ptr>,
                copyPublicKey: Ptr -> Ptr) returns (r: Outcome<KeyPair>)
    ensures r == PairOfCreateReply(
      createRandomKey(GenerateDictionary(params.keyType, UsizeAsI64(params.keySize), params.attrs.pairs)),
      copyPublicKey)
  {
    var d := params.IntoDictionary();
    r := PairOfCreateReply(createRandomKey(d), copyPublicKey);
  }

  /** `KeyPair::generate`: the framework is given the generation dictionary of `params`. */
  method Generate(params: KeyPairGenerateParams, generatePair: Dictionary -> StatusReply<(Ptr, Ptr)>)
    returns (r: Outcome<KeyPair>)
    ensures r == PairOfGenerateReply(
      generatePair(GenerateDictionary(params.keyType, UsizeAsI64(params.keySize), params.attrs.pairs)))
  {
    var d := params.IntoDictionary();
    r := PairOfGenerateReply(generatePair(d));
  }

  /** `RestoreKeyParams`: the class, the external representation and the type of a key. */
  datatype RestoreKeyParams = RestoreKeyParams(keyClass: AttrKeyClass, keyData: seq<byte>, keyType: AttrKeyType)

  /**
   * `(key_data.len() * 8) as i64`: the product wraps around at 2^64 (as an
   * unchecked `usize` multiplication does) and is then read as an `i64`.
   */
  function KeySizeInBitsOf(dataLength: nat): (bits: int64)
    ensures dataLength < 0x1000_0000_0000_0000 ==> bits == 8 * dataLength
  {
    UsizeAsI64((dataLength * 8) % 0x1_0000_0000_0000_0000)
  }

  /** The attributes `RestoreKeyParams::attributes` yields: key type, key class, key size in bits. */
  function RestoreAttributes(p: RestoreKeyParams): Dictionary
  {
    Dictionary([(kSecAttrKeyType, Constant(KeyTypeConst(p.keyType))),
                (kSecAttrKeyClass, Constant(KeyClassConst(p.keyClass))),
                (kSecAttrKeySizeInBits, Number(KeySizeInBitsOf(|p.keyData|)))])
  }

  /** `RestoreKeyParams::attributes`. */
  method Attributes(p: RestoreKeyParams) returns (d: Dictionary)
    ensures d == RestoreAttributes(p)
  {
    var result := new DictionaryBuilder();
    result.AddAttr(KeyTypeAttr(p.keyType));
    result.Add(KindConst(AttrKey(Attr.KeyClass)), Constant(KeyClassConst(p.keyClass)));
    result.AddNumber(KindConst(AttrKey(KeySizeInBits)), KeySizeInBitsOf(|p.keyData|));
    d := result.ToDictionary();
  }

  /** `RestoreKeyParams::as_bytes`. */
  function AsBytes(p: RestoreKeyParams): seq<byte>
  {
    p.keyData
  }

  /**
   * The restore attributes read back as the key's type and class, and for
   * any key shorter than 2^60 bytes as eight times the length of the bytes
   * `as_bytes` gives.
   */
  lemma RestoreAttributesDecode(p: RestoreKeyParams)
    ensures DecodeAttr(KeyType, RestoreAttributes(p).pairs[0].1) == Some(KeyTypeAttr(p.keyType))
    ensures DecodeAttr(KeyClass, RestoreAttributes(p).pairs[1].1) == Some(KeyClassAttr(p.keyClass))
    ensures AsBytes(p) == p.keyData
    ensures |AsBytes(p)| < 0x1000_0000_0000_0000 ==> RestoreAttributes(p).pairs[2].1 == Number(8 * |AsBytes(p)|)
  {
    KeyTypeRoundTrip(p.keyType);
    KeyClassRoundTrip(p.keyClass);
  }
}
