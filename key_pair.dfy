/**
 * Key pairs of the older `key` API (src/key/pair.rs): a
 * `KeyPairGenerateParams` builder with fewer setters, the same generation
 * dictionary, and `KeyPair::generate`.
 */
module LegacyKeyPairs {
  import opened Ffi
  import opened CoreFoundation
  import opened Attrs
  import opened Dictionaries
  import opened Errors
  import opened KeychainKeyPairs

  /**
   * `KeyPairGenerateParams`: key type and size, and a builder of the
   * private-key attributes the setters append to.
   */
  class KeyPairGenerateParams {
    var keyType: AttrKeyType
    var keySize: usize
    var attrs: DictionaryBuilder

    /** `new`: the type and size, and no private-key attribute yet. */
    constructor (keyType: AttrKeyType, keySize: usize)
      ensures this.keyType == keyType && this.keySize == keySize
      ensures fresh(attrs) && attrs.pairs == []
    {
      this.keyType := keyType;
      this.keySize := keySize;
      attrs := new DictionaryBuilder();
    }

    /** `access_control`: appends the access-control object under `kSecAttrAccessControl`. */
    method AccessControl(accessControl: Ptr)
      modifies attrs
      ensures attrs.pairs == old(attrs.pairs) + [(kSecAttrAccessControl, Object(accessControl))]
    {
      attrs.Add(AttrConst(Attr.AccessControl), Object(accessControl));
    }

    /** `application_tag`: appends the tag bytes under `kSecAttrApplicationTag`. */
    method ApplicationTag(tag: AttrApplicationTag)
      modifies attrs
      ensures attrs.pairs == old(attrs.pairs) + [(kSecAttrApplicationTag, Data(tag.bytes))]
    {
      attrs.AddAttr(ApplicationTagAttr(tag));
    }

    /** `permanent`: appends the flag under `kSecAttrIsPermanent`. */
    method Permanent(value: bool)
      modifies attrs
      ensures attrs.pairs == old(attrs.pairs) + [(kSecAttrIsPermanent, Boolean(value))]
    {
      attrs.AddBoolean(AttrConst(IsPermanent), value);
    }

    /** `label`: appends the label text under `kSecAttrLabel`. */
    method Label(itemLabel: AttrLabel)
      modifies attrs
      ensures attrs.pairs == old(attrs.pairs) + [(kSecAttrLabel, Text(itemLabel.text))]
    {
      attrs.AddAttr(LabelAttr(itemLabel));
    }

    /** `synchronizable`: appends the flag under `kSecAttrSynchronizable`. */
    method Synchronizable(value: bool)
      modifies attrs
      ensures attrs.pairs == old(attrs.pairs) + [(kSecAttrSynchronizable, Boolean(value))]
    {
      attrs.AddBoolean(AttrConst(Attr.Synchronizable), value);
    }

    /** `token_id`: appends the token constant to the private-key attributes, under `kSecAttrTokenID`. */
    method TokenId(value: AttrTokenId)
      modifies attrs
      ensures attrs.pairs == old(attrs.pairs) + [(kSecAttrTokenID, Constant(TokenIdConst(value)))]
    {
      attrs.AddAttr(TokenIdAttr(value));
    }

    /**
     * `From<KeyPairGenerateParams> for Dictionary`: the generation dictionary
     * of the type, of the size as an `i64`, and of the private-key attributes
     * in the order the setters were called.
     */
    method IntoDictionary() returns (d: Dictionary)
      ensures d == GenerateDictionary(keyType, UsizeAsI64(keySize), attrs.pairs)
    {
      var result := new DictionaryBuilder();
      result.AddAttr(KeyTypeAttr(keyType));
      result.AddNumber(AttrConst(KeySizeInBits), UsizeAsI64(keySize));
      result.Add(kSecPrivateKeyAttrs, Nested(attrs.ToDictionary()));
      d := result.ToDictionary();
    }
  }

  /** `KeyPair::generate`: the framework is given the generation dictionary of `params`. */
  method Generate(params: KeyPairGenerateParams, generatePair: Dictionary -> StatusReply<(Ptr, Ptr)>)
    returns (r: Outcome<KeyPair>)
    ensures r == PairOfGenerateReply(
      generatePair(GenerateDictionary(params.keyType, UsizeAsI64(params.keySize), params.attrs.pairs)))
  {
    var d := params.IntoDictionary();
    r := PairOfGenerateReply(generatePair(d));
  }
}
