/**
 * Keys of the older `SecKey` API (src/key.rs): looking a key up with a
 * query, signing with it, and the `SecKeyGeneratePairParams` builder whose
 * `into_CFDictionary` nests the private-key attributes inside the
 * generation dictionary.
 */
module SecKeys {
  import opened Wrappers
  import opened Ffi
  import opened CoreFoundation
  import opened Attrs
  import opened Errors
  import opened Items
  import opened Query
  import KeychainKeyPairs
  import Sig = Signatures
  import Alg = SecKeyAlgorithms

  /**
   * The query `SecKey::find` sends: the caller's query with the class set to
   * `Key` and references requested, whatever the caller set there; every
   * other filter is the caller's.
   */
  function KeyQuery(q: QueryParams): (r: QueryParams)
    ensures r.itemClass == Some(Key) && r.returnRef == Some(true)
    ensures r.(itemClass := q.itemClass, returnRef := q.returnRef) == q
  {
    q.(itemClass := Some(Key), returnRef := Some(true))
  }

  /** `SecKey::find`: overrides two filters of the query, then looks the key up. */
  method Find(query: QueryParams, copyMatching: Dictionary -> StatusReply<Ptr>) returns (r: Outcome<Ptr>)
    ensures r == OfStatusReply(copyMatching(Dictionary(PairsUpTo(KeyQuery(query), QueryKeyCount))))
  {
    var q := query;
    q := q.(itemClass := Some(Key));
    q := q.(returnRef := Some(true));
    var d := Query.IntoCFDictionary(q);
    r := OfStatusReply(copyMatching(d));
  }

  /**
   * The dictionary `find` sends asks for keys and for references, and for
   * nothing else under those two keys, whatever the caller's query held;
   * every other filter of the caller's query is in it unchanged.
   */
  lemma FindDictionaryForcesKeyClass(q: QueryParams, key: SecConst, value: Value)
    ensures (kSecClass, Constant(kSecClassKey)) in PairsUpTo(KeyQuery(q), QueryKeyCount)
    ensures (kSecReturnRef, Boolean(true)) in PairsUpTo(KeyQuery(q), QueryKeyCount)
    ensures (kSecClass, value) in PairsUpTo(KeyQuery(q), QueryKeyCount) ==> value == Constant(kSecClassKey)
    ensures (kSecReturnRef, value) in PairsUpTo(KeyQuery(q), QueryKeyCount) ==> value == Boolean(true)
    ensures !key.kSecClass? && !key.kSecReturnRef? ==>
      ((key, value) in PairsUpTo(KeyQuery(q), QueryKeyCount) <==> FieldValue(q, key) == Some(value))
  {
    QueryPairsMembers(KeyQuery(q), kSecClass, Constant(kSecClassKey));
    QueryPairsMembers(KeyQuery(q), kSecReturnRef, Boolean(true));
    QueryPairsMembers(KeyQuery(q), kSecClass, value);
    QueryPairsMembers(KeyQuery(q), kSecReturnRef, value);
    QueryPairsMembers(KeyQuery(q), key, value);
  }

  /**
   * `SecKey::sign`: the framework signs `data` with the algorithm's
   * constant; the signature is tagged with the algorithm passed in, or the
   * error out-parameter becomes the error.
   */
  function Sign(key: Ptr, alg: Alg.SecKeyAlgorithm, data: seq<byte>,
                createSignature: (Ptr, AlgorithmConst, seq<byte>) -> ErrorReply<seq<byte>>)
    : (r: Outcome<Sig.Signature<Alg.SecKeyAlgorithm>>)
    ensures !r.Panic?
    ensures r.Err? <==> createSignature(key, Alg.AsCFString(alg), data).error.Some?
    ensures r.Err? ==> r.error == FromCFError(createSignature(key, Alg.AsCFString(alg), data).error.value)
    ensures r.Ok? ==> Sig.Algorithm(r.value) == alg
    ensures r.Ok? ==> Sig.AsBytes(r.value) == createSignature(key, Alg.AsCFString(alg), data).out
  {
    var reply := createSignature(key, Alg.AsCFString(alg), data);
    if reply.error.None? then Ok(Sig.New(alg, reply.out)) else Err(FromCFError(reply.error.value))
  }

  /** `SecKeyGeneratePairParams`: the options of a key-pair generation. */
  datatype GeneratePairParams = GeneratePairParams(
    accessControl: Option<Ptr>,
    applicationTag: Option<AttrApplicationTag>,
    keyType: AttrKeyType,
    keySize: usize,
    itemLabel: Option<AttrLabel>,
    permanent: bool,
    synchronizable: bool,
    tokenId: Option<AttrTokenId>)

  /** `SecKeyGeneratePairParams::new`: the type and size, no option set, neither permanent nor synchronizable. */
  function NewGeneratePairParams(keyType: AttrKeyType, keySize: usize): (p: GeneratePairParams)
    ensures p.keyType == keyType && p.keySize == keySize
    ensures p.accessControl.None? && p.applicationTag.None? && p.itemLabel.None? && p.tokenId.None?
    ensures !p.permanent && !p.synchronizable
  {
    GeneratePairParams(None, None, keyType, keySize, None, false, false, None)
  }

  /** `access_control`: replaces that option and leaves every other one as it was. */
  function WithAccessControl(p: GeneratePairParams, accessControl: Ptr): (r: GeneratePairParams)
    ensures r.accessControl == Some(accessControl)
    ensures r.(accessControl := p.accessControl) == p
  {
    p.(accessControl := Some(accessControl))
  }

  /** `application_tag`: replaces that option and leaves every other one as it was. */
  function WithApplicationTag(p: GeneratePairParams, tag: AttrApplicationTag): (r: GeneratePairParams)
    ensures r.applicationTag == Some(tag)
    ensures r.(applicationTag := p.applicationTag) == p
  {
    p.(applicationTag := Some(tag))
  }

  /** `permanent`: replaces that option and leaves every other one as it was. */
  function WithPermanent(p: GeneratePairParams, value: bool): (r: GeneratePairParams)
    ensures r.permanent == value
    ensures r.(permanent := p.permanent) == p
  {
    p.(permanent := value)
  }

  /** `label`: replaces that option and leaves every other one as it was. */
  function WithLabel(p: GeneratePairParams, itemLabel: AttrLabel): (r: GeneratePairParams)
    ensures r.itemLabel == Some(itemLabel)
    ensures r.(itemLabel := p.itemLabel) == p
  {
    p.(itemLabel := Some(itemLabel))
  }

  /** `synchronizable`: replaces that option and leaves every other one as it was. */
  function WithSynchronizable(p: GeneratePairParams, value: bool): (r: GeneratePairParams)
    ensures r.synchronizable == value
    ensures r.(synchronizable := p.synchronizable) == p
  {
    p.(synchronizable := value)
  }

  /** `token_id`: replaces that option and leaves every other one as it was. */
  function WithTokenId(p: GeneratePairParams, tokenId: AttrTokenId): (r: GeneratePairParams)
    ensures r.tokenId == Some(tokenId)
    ensures r.(tokenId := p.tokenId) == p
  {
    p.(tokenId := Some(tokenId))
  }

  /** Setting an option twice keeps only the second value, for each of the six setters. */
  lemma GeneratePairSetterLastWins(p: GeneratePairParams, ac1: Ptr, ac2: Ptr, tag1: AttrApplicationTag, tag2: AttrApplicationTag,
                                   a: bool, b: bool, first: AttrLabel, second: AttrLabel, c: bool, d: bool,
                                   token1: AttrTokenId, token2: AttrTokenId)
    ensures WithAccessControl(WithAccessControl(p, ac1), ac2) == WithAccessControl(p, ac2)
    ensures WithApplicationTag(WithApplicationTag(p, tag1), tag2) == WithApplicationTag(p, tag2)
    ensures WithPermanent(WithPermanent(p, a), b) == WithPermanent(p, b)
    ensures WithLabel(WithLabel(p, first), second) == WithLabel(p, second)
    ensures WithSynchronizable(WithSynchronizable(p, c), d) == WithSynchronizable(p, d)
    ensures WithTokenId(WithTokenId(p, token1), token2) == WithTokenId(p, token2)
  {
  }

  /**
   * A key-pair generation as the framework receives it: the parameters,
   * with the size already converted to an `i64`.
   */
  datatype GeneratePairRequest = GeneratePairRequest(
    keyType: AttrKeyType,
    keySizeInBits: int64,
    permanent: bool,
    synchronizable: bool,
    accessControl: Option<Ptr>,
    applicationTag: Option<AttrApplicationTag>,
    itemLabel: Option<AttrLabel>,
    tokenId: Option<AttrTokenId>)

  /** The request the parameters make: the size is converted with `as i64`. */
  function RequestOf(p: GeneratePairParams): GeneratePairRequest
  {
    GeneratePairRequest(p.keyType, UsizeAsI64(p.keySize), p.permanent, p.synchronizable,
                        p.accessControl, p.applicationTag, p.itemLabel, p.tokenId)
  }

  /** The access-control pair when that option is set, nothing otherwise. */
  function AccessControlPart(accessControl: Option<Ptr>): seq<Pair>
  {
    if accessControl.Some? then [(kSecAttrAccessControl, Object(accessControl.value))] else []
  }

  /** The application-tag pair when that option is set, nothing otherwise. */
  function ApplicationTagPart(tag: Option<AttrApplicationTag>): seq<Pair>
  {
    if tag.Some? then [(kSecAttrApplicationTag, Data(tag.value.bytes))] else []
  }

  /** The label pair when that option is set, nothing otherwise. */
  function LabelPart(itemLabel: Option<AttrLabel>): seq<Pair>
  {
    if itemLabel.Some? then [(kSecAttrLabel, Text(itemLabel.value.text))] else []
  }

  /**
   * The private-key attributes of a request: the permanence and
   * synchronizability flags always, then the access control, the tag and
   * the label, each only when set.
   */
  function PrivateKeyAttrs(r: GeneratePairRequest): seq<Pair>
  {
    [(kSecAttrIsPermanent, Boolean(r.permanent)), (kSecAttrSynchronizable, Boolean(r.synchronizable))]
    + AccessControlPart(r.accessControl) + ApplicationTagPart(r.applicationTag) + LabelPart(r.itemLabel)
  }

  /** The token-identifier pair when that option is set, nothing otherwise. */
  function TokenIdPart(tokenId: Option<AttrTokenId>): seq<Pair>
  {
    if tokenId.Some? then [(kSecAttrTokenID, Constant(TokenIdConst(tokenId.value)))] else []
  }

  /**
   * The generation dictionary of a request: key type, size and the nested
   * private-key attributes, then the token identifier only when set.
   */
  function RequestDictionary(r: GeneratePairRequest): Dictionary
  {
    Dictionary(
      [(kSecAttrKeyType, Constant(KeyTypeConst(r.keyType))),
       (kSecAttrKeySizeInBits, Number(r.keySizeInBits)),
       (kSecPrivateKeyAttrs, Nested(Dictionary(PrivateKeyAttrs(r))))]
      + TokenIdPart(r.tokenId))
  }

  /** `SecKeyGeneratePairParams::into_CFDictionary`. */
  method IntoCFDictionary(p: GeneratePairParams) returns (d: Dictionary)
    ensures d == RequestDictionary(RequestOf(p))
  {
    var privateKeyAttrs := [(kSecAttrIsPermanent, Boolean(p.permanent)),
                            (kSecAttrSynchronizable, Boolean(p.synchronizable))];
    ghost var flags := privateKeyAttrs;
    if p.accessControl.Some? {
      privateKeyAttrs := privateKeyAttrs + [(kSecAttrAccessControl, Object(p.accessControl.value))];
    }
    assert privateKeyAttrs == flags + AccessControlPart(p.accessControl);
    if p.applicationTag.Some? {
      privateKeyAttrs := privateKeyAttrs + [(kSecAttrApplicationTag, AsCFType(ApplicationTagAttr(p.applicationTag.value)))];
    }
    assert privateKeyAttrs == flags + AccessControlPart(p.accessControl) + ApplicationTagPart(p.applicationTag);
    if p.itemLabel.Some? {
      privateKeyAttrs := privateKeyAttrs + [(kSecAttrLabel, AsCFType(LabelAttr(p.itemLabel.value)))];
    }
    assert privateKeyAttrs == PrivateKeyAttrs(RequestOf(p));
    var params := [(kSecAttrKeyType, Constant(KeyTypeConst(p.keyType))),
                   (kSecAttrKeySizeInBits, Number(UsizeAsI64(p.keySize))),
                   (kSecPrivateKeyAttrs, Nested(Dictionary(privateKeyAttrs)))];
    if p.tokenId.Some? {
      params := params + [(kSecAttrTokenID, Constant(TokenIdConst(p.tokenId.value)))];
    }
    d := Dictionary(params);
  }

  /** Takes a leading access-control pair off `rest`, if there is one. */
  function TakeAccessControl(rest: seq<Pair>): (Option<Ptr>, seq<Pair>)
  {
    if |rest| > 0 && rest[0].0.kSecAttrAccessControl? && rest[0].1.Object?
    then (Some(rest[0].1.handle), rest[1..]) else (None, rest)
  }

  /** Takes a leading application-tag pair off `rest`, if there is one. */
  function TakeApplicationTag(rest: seq<Pair>): (Option<AttrApplicationTag>, seq<Pair>)
  {
    if |rest| > 0 && rest[0].0.kSecAttrApplicationTag? && rest[0].1.Data?
    then (Some(AttrApplicationTag(rest[0].1.bytes)), rest[1..]) else (None, rest)
  }

  /** Takes a leading label pair off `rest`, if there is one. */
  function TakeLabel(rest: seq<Pair>): (Option<AttrLabel>, seq<Pair>)
  {
    if |rest| > 0 && rest[0].0.kSecAttrLabel? && rest[0].1.Text?
    then (Some(AttrLabel(rest[0].1.text)), rest[1..]) else (None, rest)
  }

  /** The options the private-key attributes carry. */
  datatype PrivateKeyOptions = PrivateKeyOptions(
    permanent: bool, synchronizable: bool,
    accessControl: Option<Ptr>, applicationTag: Option<AttrApplicationTag>, itemLabel: Option<AttrLabel>)

  /** Reads private-key attributes back as their options, if they have the shape `into_CFDictionary` gives them. */
  function DecodePrivateKeyAttrs(attrs: seq<Pair>): Option<PrivateKeyOptions>
  {
    if |attrs| >= 2 && attrs[0].0.kSecAttrIsPermanent? && attrs[0].1.Boolean?
       && attrs[1].0.kSecAttrSynchronizable? && attrs[1].1.Boolean?
    then
      var (accessControl, rest1) := TakeAccessControl(attrs[2..]);
      var (tag, rest2) := TakeApplicationTag(rest1);
      var (itemLabel, rest3) := TakeLabel(rest2);
      if rest3 == [] then
        Some(PrivateKeyOptions(attrs[0].1.flag, attrs[1].1.flag, accessControl, tag, itemLabel))
      else None
    else None
  }

  /** Reads a dictionary back as a key-pair generation request, if it has the shape of one. */
  function DecodeRequestDictionary(d: Dictionary): Option<GeneratePairRequest>
  {
    var top := d.pairs;
    if (|top| == 3 || |top| == 4)
       && top[0].0.kSecAttrKeyType? && top[0].1.Constant? && KeyTypeConstOf(top[0].1.constant).Some?
       && top[1].0.kSecAttrKeySizeInBits? && top[1].1.Number?
       && top[2].0.kSecPrivateKeyAttrs? && top[2].1.Nested?
       && DecodePrivateKeyAttrs(top[2].1.dictionary.pairs).Some?
       && (|top| == 4 ==> top[3].0.kSecAttrTokenID? && top[3].1.Constant? && TokenIdConstOf(top[3].1.constant).Some?)
    then
      var o := DecodePrivateKeyAttrs(top[2].1.dictionary.pairs).value;
      Some(GeneratePairRequest(
        KeyTypeConstOf(top[0].1.constant).value, top[1].1.number, o.permanent, o.synchronizable,
        o.accessControl, o.applicationTag, o.itemLabel,
        if |top| == 4 then TokenIdConstOf(top[3].1.constant) else None))
    else None
  }

  lemma TakeAccessControlPart(accessControl: Option<Ptr>, rest: seq<Pair>)
    requires rest == [] || !rest[0].0.kSecAttrAccessControl?
    ensures TakeAccessControl(AccessControlPart(accessControl) + rest) == (accessControl, rest)
  {
    if accessControl.Some? {
      assert (AccessControlPart(accessControl) + rest)[1..] == rest;
    } else {
      assert AccessControlPart(accessControl) + rest == rest;
    }
  }

  lemma TakeApplicationTagPart(tag: Option<AttrApplicationTag>, rest: seq<Pair>)
    requires rest == [] || !rest[0].0.kSecAttrApplicationTag?
    ensures TakeApplicationTag(ApplicationTagPart(tag) + rest) == (tag, rest)
  {
    if tag.Some? {
      assert (ApplicationTagPart(tag) + rest)[1..] == rest;
    } else {
      assert ApplicationTagPart(tag) + rest == rest;
    }
  }

  lemma TakeLabelPart(itemLabel: Option<AttrLabel>)
    ensures TakeLabel(LabelPart(itemLabel)) == (itemLabel, [])
  {
    if itemLabel.Some? {
      assert LabelPart(itemLabel)[1..] == [];
    }
  }

  /** The private-key attributes give back exactly the options they were made from. */
  lemma PrivateKeyAttrsDecode(r: GeneratePairRequest)
    ensures DecodePrivateKeyAttrs(PrivateKeyAttrs(r))
            == Some(PrivateKeyOptions(r.permanent, r.synchronizable, r.accessControl, r.applicationTag, r.itemLabel))
  {
    var labelPart := LabelPart(r.itemLabel);
    var tagPart := ApplicationTagPart(r.applicationTag);
    assert PrivateKeyAttrs(r)[2..] == AccessControlPart(r.accessControl) + (tagPart + labelPart);
    TakeLabelPart(r.itemLabel);
    TakeApplicationTagPart(r.applicationTag, labelPart);
    TakeAccessControlPart(r.accessControl, tagPart + labelPart);
  }

  /**
   * The generation dictionary gives back exactly its request: every option
   * is in the dictionary iff it is set, at its fixed place.
   */
  lemma RequestDictionaryDecodes(r: GeneratePairRequest)
    ensures DecodeRequestDictionary(RequestDictionary(r)) == Some(r)
  {
    KeyTypeRoundTrip(r.keyType);
    if r.tokenId.Some? {
      TokenIdRoundTrip(r.tokenId.value);
    }
    PrivateKeyAttrsDecode(r);
  }

  lemma TakeAccessControlSplits(rest: seq<Pair>)
    ensures rest == AccessControlPart(TakeAccessControl(rest).0) + TakeAccessControl(rest).1
  {
    if TakeAccessControl(rest).0.Some? {
      assert rest == [rest[0]] + rest[1..];
    }
  }

  lemma TakeApplicationTagSplits(rest: seq<Pair>)
    ensures rest == ApplicationTagPart(TakeApplicationTag(rest).0) + TakeApplicationTag(rest).1
  {
    if TakeApplicationTag(rest).0.Some? {
      assert rest == [rest[0]] + rest[1..];
    }
  }

  lemma TakeLabelSplits(rest: seq<Pair>)
    ensures rest == LabelPart(TakeLabel(rest).0) + TakeLabel(rest).1
  {
    if TakeLabel(rest).0.Some? {
      assert rest == [rest[0]] + rest[1..];
    }
  }

  /** Private-key attributes that decode are the private-key attributes of what they decode to. */
  lemma DecodedArePrivateKeyAttrs(attrs: seq<Pair>, r: GeneratePairRequest)
    requires DecodePrivateKeyAttrs(attrs).Some?
    requires var o := DecodePrivateKeyAttrs(attrs).value;
             r.permanent == o.permanent && r.synchronizable == o.synchronizable
             && r.accessControl == o.accessControl && r.applicationTag == o.applicationTag
             && r.itemLabel == o.itemLabel
    ensures PrivateKeyAttrs(r) == attrs
  {
    var rest1 := TakeAccessControl(attrs[2..]).1;
    var rest2 := TakeApplicationTag(rest1).1;
    TakeAccessControlSplits(attrs[2..]);
    TakeApplicationTagSplits(rest1);
    TakeLabelSplits(rest2);
    assert attrs == attrs[..2] + attrs[2..];
    assert attrs[..2] == [(kSecAttrIsPermanent, Boolean(r.permanent)), (kSecAttrSynchronizable, Boolean(r.synchronizable))];
  }

  /** Every dictionary that reads as a request is the generation dictionary of that request. */
  lemma DecodedIsRequestDictionary(d: Dictionary)
    requires DecodeRequestDictionary(d).Some?
    ensures RequestDictionary(DecodeRequestDictionary(d).value) == d
  {
    var r := DecodeRequestDictionary(d).value;
    var top := d.pairs;
    DecodedArePrivateKeyAttrs(top[2].1.dictionary.pairs, r);
    assert top == top[..3] + top[3..];
  }

  /** `SecKeyPair::generate`: the framework is given the generation dictionary of `params`. */
  method Generate(params: GeneratePairParams, generatePair: Dictionary -> StatusReply<(Ptr, Ptr)>)
    returns (r: Outcome<KeychainKeyPairs.KeyPair>)
    ensures r == KeychainKeyPairs.PairOfGenerateReply(generatePair(RequestDictionary(RequestOf(params))))
  {
    var d := IntoCFDictionary(params);
    r := KeychainKeyPairs.PairOfGenerateReply(generatePair(d));
  }
}
