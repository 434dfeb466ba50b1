/**
 * Keys stored in a keychain (src/keychain/key/mod.rs): finding a key,
 * signing, verifying, encrypting and decrypting with it, asking whether an
 * algorithm is supported, deleting it, and exporting and restoring its
 * external representation. The cryptography is the framework's: each call
 * into it is a function-typed parameter, and the model states what the
 * binding hands to that call and how it reads the reply.
 */
module KeychainKeys {
  import opened Wrappers
  import opened Ffi
  import opened CoreFoundation
  import opened Attrs
  import opened Dictionaries
  import opened Errors
  import opened KeyAlgorithms
  import opened KeyOperations
  import ItemClass
  import Sig = Signatures
  import Ct = Ciphertexts
  import KeychainKeyPairs

  /** `Key`: a `SecKeyRef`. */
  datatype Key = Key(handle: Ptr)

  /**
   * What `Key::attributes` followed by `find` and the conversion yields for
   * each attribute the accessors read (`application_label`,
   * `application_tag`, `label`, `class`, `key_type`): `None` when the
   * key's attribute dictionary has no such entry.
   */
  datatype KeyAttributes = KeyAttributes(
    applicationLabel: Option<AttrApplicationLabel>,
    applicationTag: Option<AttrApplicationTag>,
    itemLabel: Option<AttrLabel>,
    keyClass: Option<AttrKeyClass>,
    keyType: Option<AttrKeyType>)

  /** What `Key::find` appends to the query: the key class, a match limit of one, and return-a-reference. */
  function FindSuffix(): seq<Pair>
  {
    [(kSecClass, Constant(kSecClassKey)), (kSecMatchLimit, Constant(kSecMatchLimitOne)), (kSecReturnRef, Boolean(true))]
  }

  /**
   * `Key::find`: the query's own pairs (`DictionaryBuilder::from(query)`),
   * then the three forced pairs; the status of `SecItemCopyMatching`
   * decides, and the key is taken only on success.
   */
  method Find(query: seq<Pair>, copyMatching: Dictionary -> StatusReply<Ptr>) returns (r: Outcome<Key>)
    ensures r.Err? <==> copyMatching(Dictionary(query + FindSuffix())).status != errSecSuccess
    ensures r.Err? ==> Some(r.error) == MaybeFromOSStatus(copyMatching(Dictionary(query + FindSuffix())).status,
                                                           copyMatching(Dictionary(query + FindSuffix())).message)
    ensures r.Ok? ==> r.value == Key(copyMatching(Dictionary(query + FindSuffix())).out)
    ensures !r.Panic?
  {
    var params := new DictionaryBuilder();
    params.pairs := query;
    params.Add(kSecClass, Constant(ItemClass.ClassConst(ItemClass.Key)));
    params.Add(kSecMatchLimit, Constant(kSecMatchLimitOne));
    params.AddBoolean(kSecReturnRef, true);
    assert params.pairs == query + FindSuffix();
    var reply := copyMatching(params.ToDictionary());
    match MaybeFromOSStatus(reply.status, reply.message)
    case Some(e) =>
      r := Err(e);
    case None =>
      r := Ok(Key(reply.out));
  }

  /**
   * Whatever the query holds, the search `find` makes asks for one more key
   * class pair than the query did, and the last three pairs are the forced
   * ones, the key class first.
   */
  lemma {:induction false} FindForcesKeyClass(query: seq<Pair>)
    ensures Occurrences(query + FindSuffix(), kSecClass) == Occurrences(query, kSecClass) + 1
    ensures Occurrences(query + FindSuffix(), kSecReturnRef) == Occurrences(query, kSecReturnRef) + 1
    ensures (query + FindSuffix())[|query|] == (kSecClass, Constant(ItemClass.ClassConst(ItemClass.Key)))
  {
    var p0 := (kSecClass, Constant(kSecClassKey));
    var p1 := (kSecMatchLimit, Constant(kSecMatchLimitOne));
    var p2 := (kSecReturnRef, Boolean(true));
    OccurrencesAppendThree(query, p0, p1, p2, kSecClass);
    OccurrencesAppendThree(query, p0, p1, p2, kSecReturnRef);
  }

  /**
   * `Key::is_supported`: `SecKeyIsAlgorithmSupported` is asked with the
   * operation's index and the algorithm's constant, and only the raw result
   * 1 counts as supported.
   */
  function IsSupported(key: Key, operation: KeyOperation, alg: KeyAlgorithm,
                       isAlgorithmSupported: (Ptr, int, AlgorithmConst) -> byte): (r: bool)
    ensures r <==> isAlgorithmSupported(key.handle, ToCFIndex(operation), AsCFString(alg)) == 1
  {
    var res := isAlgorithmSupported(key.handle, ToCFIndex(operation), AsCFString(alg));
    res == 1
  }

  /**
   * `Key::sign`: `SecKeyCreateSignature` is asked with the algorithm's
   * constant and the data; without an error the signature bytes are tagged
   * with the algorithm that was passed in.
   */
  function Sign(key: Key, alg: KeyAlgorithm, data: seq<byte>,
                createSignature: (Ptr, AlgorithmConst, seq<byte>) -> ErrorReply<seq<byte>>): (r: Outcome<Sig.Signature<KeyAlgorithm>>)
    ensures !r.Panic?
    ensures r.Err? <==> createSignature(key.handle, AsCFString(alg), data).error.Some?
    ensures r.Err? ==> r.error == FromCFError(createSignature(key.handle, AsCFString(alg), data).error.value)
    ensures r.Ok? ==> Sig.Algorithm(r.value) == alg && Sig.AsBytes(r.value) == createSignature(key.handle, AsCFString(alg), data).out
  {
    match OfErrorReply(createSignature(key.handle, AsCFString(alg), data))
    case Ok(bytes) => Ok(Sig.New(alg, bytes))
    case Err(e) => Err(e)
    case Panic(m) => Panic(m)
  }

  /** The algorithm constant and the bytes `verify` hands to `SecKeyVerifySignature` for a signature. */
  function VerifyArguments(signature: Sig.Signature<KeyAlgorithm>): (AlgorithmConst, seq<byte>)
  {
    (AsCFString(Sig.Algorithm(signature)), Sig.AsBytes(signature))
  }

  /**
   * `Key::verify`: `SecKeyVerifySignature` is asked with the signature's own
   * algorithm and bytes; without an error the answer is whether the raw
   * result is 1.
   */
  function Verify(key: Key, signedData: seq<byte>, signature: Sig.Signature<KeyAlgorithm>,
                  verifySignature: (Ptr, AlgorithmConst, seq<byte>, seq<byte>) -> ErrorReply<byte>): (r: Outcome<bool>)
    ensures !r.Panic?
    ensures r.Err? <==> verifySignature(key.handle, VerifyArguments(signature).0, signedData, VerifyArguments(signature).1).error.Some?
    ensures r.Err? ==> r.error == FromCFError(verifySignature(key.handle, VerifyArguments(signature).0, signedData, VerifyArguments(signature).1).error.value)
    ensures r == Ok(true) <==>
      var reply := verifySignature(key.handle, VerifyArguments(signature).0, signedData, VerifyArguments(signature).1);
      reply.error.None? && reply.out == 1
  {
    var result := verifySignature(key.handle, AsCFString(Sig.Algorithm(signature)), signedData, Sig.AsBytes(signature));
    match OfErrorReply(result)
    case Ok(raw) => Ok(raw == 1)
    case Err(e) => Err(e)
    case Panic(m) => Panic(m)
  }

  /**
   * A signature `sign` made is checked by `verify` against the same
   * algorithm constant and exactly the bytes the framework signed with.
   */
  lemma SignThenVerifyArguments(key: Key, alg: KeyAlgorithm, data: seq<byte>,
                                createSignature: (Ptr, AlgorithmConst, seq<byte>) -> ErrorReply<seq<byte>>)
    requires Sign(key, alg, data, createSignature).Ok?
    ensures VerifyArguments(Sign(key, alg, data, createSignature).value) ==
      (AsCFString(alg), createSignature(key.handle, AsCFString(alg), data).out)
  {
  }

  /**
   * `Key::encrypt`: `SecKeyCreateEncryptedData` is asked with the
   * algorithm's constant and the plaintext; without an error the bytes are
   * tagged with that algorithm.
   */
  function Encrypt(key: Key, alg: KeyAlgorithm, plaintext: seq<byte>,
                   createEncrypted: (Ptr, AlgorithmConst, seq<byte>) -> ErrorReply<seq<byte>>): (r: Outcome<Ct.Ciphertext>)
    ensures !r.Panic?
    ensures r.Err? <==> createEncrypted(key.handle, AsCFString(alg), plaintext).error.Some?
    ensures r.Err? ==> r.error == FromCFError(createEncrypted(key.handle, AsCFString(alg), plaintext).error.value)
    ensures r.Ok? ==> Ct.Algorithm(r.value) == alg && Ct.AsBytes(r.value) == createEncrypted(key.handle, AsCFString(alg), plaintext).out
  {
    match OfErrorReply(createEncrypted(key.handle, AsCFString(alg), plaintext))
    case Ok(bytes) => Ok(Ct.New(alg, bytes))
    case Err(e) => Err(e)
    case Panic(m) => Panic(m)
  }

  /**
   * `Key::decrypt`: `SecKeyCreateDecryptedData` is asked with the
   * ciphertext's own algorithm and bytes; without an error its output is the
   * plaintext.
   */
  function Decrypt(key: Key, ciphertext: Ct.Ciphertext,
                   createDecrypted: (Ptr, AlgorithmConst, seq<byte>) -> ErrorReply<seq<byte>>): (r: Outcome<seq<byte>>)
    ensures !r.Panic?
    ensures r.Err? <==> createDecrypted(key.handle, AsCFString(Ct.Algorithm(ciphertext)), Ct.AsRef(ciphertext)).error.Some?
    ensures r.Err? ==> r.error == FromCFError(createDecrypted(key.handle, AsCFString(Ct.Algorithm(ciphertext)), Ct.AsRef(ciphertext)).error.value)
    ensures r.Ok? ==> r.value == createDecrypted(key.handle, AsCFString(Ct.Algorithm(ciphertext)), Ct.AsRef(ciphertext)).out
  {
    OfErrorReply(createDecrypted(key.handle, AsCFString(Ct.Algorithm(ciphertext)), Ct.AsRef(ciphertext)))
  }

  /**
   * Decrypting what `encrypt` produced asks the framework with the
   * algorithm the encryption used and exactly the bytes it returned.
   */
  lemma EncryptThenDecryptArguments(key: Key, other: Key, alg: KeyAlgorithm, plaintext: seq<byte>,
                                    createEncrypted: (Ptr, AlgorithmConst, seq<byte>) -> ErrorReply<seq<byte>>,
                                    createDecrypted: (Ptr, AlgorithmConst, seq<byte>) -> ErrorReply<seq<byte>>)
    requires Encrypt(key, alg, plaintext, createEncrypted).Ok?
    ensures Decrypt(other, Encrypt(key, alg, plaintext, createEncrypted).value, createDecrypted) ==
      OfErrorReply(createDecrypted(other.handle, AsCFString(alg), createEncrypted(key.handle, AsCFString(alg), plaintext).out))
  {
  }

  /**
   * The filter `Key::delete` builds, or the panic of an `unwrap` on a
   * missing attribute: the key class always; a public key adds its type and
   * application tag, a private key its application label and
   * return-a-reference, a symmetric key nothing.
   */
  function DeleteQuery(attrs: KeyAttributes): (r: Outcome<seq<Pair>>)
    ensures !r.Err?
  {
    match attrs.keyClass
    case None => Panic("called `Option::unwrap()` on a `None` value")
    case Some(keyClass) =>
      var head := [(kSecClass, Constant(kSecClassKey)), (kSecAttrKeyClass, Constant(KeyClassConst(keyClass)))];
      match keyClass
      case Public =>
        if attrs.keyType.None? || attrs.applicationTag.None? then Panic("called `Option::unwrap()` on a `None` value")
        else Ok(head + [(kSecAttrKeyType, Constant(KeyTypeConst(attrs.keyType.value))),
                        (kSecAttrApplicationTag, AsCFType(ApplicationTagAttr(attrs.applicationTag.value)))])
      case Private =>
        if attrs.applicationLabel.None? then Panic("called `Option::unwrap()` on a `None` value")
        else Ok(head + [(kSecAttrApplicationLabel, AsCFType(ApplicationLabelAttr(attrs.applicationLabel.value))),
                        (kSecReturnRef, Boolean(true))])
      case Symmetric => Ok(head)
  }

  /**
   * `delete` panics exactly when the class, or an attribute the class
   * needs, is missing.
   */
  lemma DeleteQueryPanics(attrs: KeyAttributes)
    ensures DeleteQuery(attrs).Panic? <==>
      attrs.keyClass.None?
      || (attrs.keyClass == Some(Public) && (attrs.keyType.None? || attrs.applicationTag.None?))
      || (attrs.keyClass == Some(Private) && attrs.applicationLabel.None?)
  {
  }

  /**
   * Every filter `delete` builds starts with the key class and the key's
   * own class (which decodes back to it) and has two, four or four pairs as
   * the class is symmetric, public or private; every further pair decodes
   * back to the attribute it was made from.
   */
  lemma DeleteQueryDecodes(attrs: KeyAttributes)
    requires DeleteQuery(attrs).Ok?
    ensures var q := DeleteQuery(attrs).value;
      |q| >= 2 && q[0] == (kSecClass, Constant(kSecClassKey)) && q[1].0 == kSecAttrKeyClass
      && DecodeAttr(KeyClass, q[1].1) == Some(KeyClassAttr(attrs.keyClass.value))
    ensures var q := DeleteQuery(attrs).value;
      attrs.keyClass == Some(Symmetric) ==> |q| == 2
    ensures var q := DeleteQuery(attrs).value;
      attrs.keyClass == Some(Public) ==>
        (|q| == 4
         && q[2].0 == kSecAttrKeyType && DecodeAttr(KeyType, q[2].1) == Some(KeyTypeAttr(attrs.keyType.value))
         && q[3].0 == kSecAttrApplicationTag && DecodeAttr(ApplicationTag, q[3].1) == Some(ApplicationTagAttr(attrs.applicationTag.value)))
    ensures var q := DeleteQuery(attrs).value;
      attrs.keyClass == Some(Private) ==>
        (|q| == 4
         && q[2].0 == kSecAttrApplicationLabel && DecodeAttr(ApplicationLabel, q[2].1) == Some(ApplicationLabelAttr(attrs.applicationLabel.value))
         && q[3] == (kSecReturnRef, Boolean(true)))
  {
    var keyClass := attrs.keyClass.value;
    var head := [(kSecClass, Constant(kSecClassKey)), (kSecAttrKeyClass, AsCFType(KeyClassAttr(keyClass)))];
    assert Constant(KeyClassConst(keyClass)) == AsCFType(KeyClassAttr(keyClass));
    match keyClass
    case Public =>
      assert Constant(KeyTypeConst(attrs.keyType.value)) == AsCFType(KeyTypeAttr(attrs.keyType.value));
      assert DeleteQuery(attrs).value == head + [(kSecAttrKeyType, AsCFType(KeyTypeAttr(attrs.keyType.value))),
                                                 (kSecAttrApplicationTag, AsCFType(ApplicationTagAttr(attrs.applicationTag.value)))];
    case Private =>
      assert DeleteQuery(attrs).value == head + [(kSecAttrApplicationLabel, AsCFType(ApplicationLabelAttr(attrs.applicationLabel.value))),
                                                 (kSecReturnRef, Boolean(true))];
    case Symmetric =>
      assert DeleteQuery(attrs).value == head;
  }

  /**
   * `Key::delete`: builds the filter pair by pair, reading each attribute
   * as it needs it, and hands it to `SecItemDelete`, whose status decides.
   */
  method Delete(key: Key, attrs: KeyAttributes, itemDelete: Dictionary -> StatusReply<()>) returns (r: Outcome<()>)
    ensures DeleteQuery(attrs).Panic? <==> r.Panic?
    ensures DeleteQuery(attrs).Ok? ==> r == OfStatusReply(itemDelete(Dictionary(DeleteQuery(attrs).value)))
  {
    var query := new DictionaryBuilder();
    if attrs.keyClass.None? {
      r := Panic("called `Option::unwrap()` on a `None` value");
      return;
    }
    var keyClass := attrs.keyClass.value;
    query.Add(kSecClass, Constant(ItemClass.ClassConst(ItemClass.Key)));
    query.Add(kSecAttrKeyClass, Constant(KeyClassConst(keyClass)));
    if keyClass == Public {
      if attrs.keyType.None? {
        r := Panic("called `Option::unwrap()` on a `None` value");
        return;
      }
      query.Add(kSecAttrKeyType, Constant(KeyTypeConst(attrs.keyType.value)));
      if attrs.applicationTag.None? {
        r := Panic("called `Option::unwrap()` on a `None` value");
        return;
      }
      query.Add(kSecAttrApplicationTag, AsCFType(ApplicationTagAttr(attrs.applicationTag.value)));
    } else if keyClass == Private {
      if attrs.applicationLabel.None? {
        r := Panic("called `Option::unwrap()` on a `None` value");
        return;
      }
      query.Add(kSecAttrApplicationLabel, AsCFType(ApplicationLabelAttr(attrs.applicationLabel.value)));
      query.AddBoolean(kSecReturnRef, true);
    }
    assert query.pairs == DeleteQuery(attrs).value;
    r := OfStatusReply(itemDelete(query.ToDictionary()));
  }

  /** `Key::to_external_representation`: the exported bytes, or the error `SecKeyCopyExternalRepresentation` set. */
  function ToExternalRepresentation(key: Key, copyExternalRepresentation: Ptr -> ErrorReply<seq<byte>>): (r: Outcome<seq<byte>>)
    ensures !r.Panic?
    ensures r.Err? <==> copyExternalRepresentation(key.handle).error.Some?
    ensures r.Err? ==> r.error == FromCFError(copyExternalRepresentation(key.handle).error.value)
    ensures r.Ok? ==> r.value == copyExternalRepresentation(key.handle).out
  {
    OfErrorReply(copyExternalRepresentation(key.handle))
  }

  /**
   * `Key::from_external_representation`: `SecKeyCreateWithData` is asked
   * with the parameters' bytes and attributes; the key is taken unless the
   * error is set.
   */
  method FromExternalRepresentation(params: KeychainKeyPairs.RestoreKeyParams,
                                    createWithData: (seq<byte>, Dictionary) -> ErrorReply<Ptr>) returns (r: Outcome<Key>)
    ensures !r.Panic?
    ensures r.Err? <==> createWithData(params.keyData, KeychainKeyPairs.RestoreAttributes(params)).error.Some?
    ensures r.Err? ==> r.error == FromCFError(createWithData(params.keyData, KeychainKeyPairs.RestoreAttributes(params)).error.value)
    ensures r.Ok? ==> r.value == Key(createWithData(params.keyData, KeychainKeyPairs.RestoreAttributes(params)).out)
  {
    var attributes := KeychainKeyPairs.Attributes(params);
    var reply := createWithData(KeychainKeyPairs.AsBytes(params), attributes);
    match reply.error
    case Some(e) =>
      r := Err(FromCFError(e));
    case None =>
      r := Ok(Key(reply.out));
  }

  /**
   * Exporting a key and restoring it hands `SecKeyCreateWithData` exactly
   * the exported bytes, with a key size of eight bits per byte.
   */
  lemma ExportThenRestoreArguments(key: Key, keyClass: AttrKeyClass, keyType: AttrKeyType,
                                   copyExternalRepresentation: Ptr -> ErrorReply<seq<byte>>)
    requires ToExternalRepresentation(key, copyExternalRepresentation).Ok?
    requires |copyExternalRepresentation(key.handle).out| < 0x1000_0000_0000_0000
    ensures var params := KeychainKeyPairs.RestoreKeyParams(keyClass, ToExternalRepresentation(key, copyExternalRepresentation).value, keyType);
      KeychainKeyPairs.AsBytes(params) == copyExternalRepresentation(key.handle).out
      && KeychainKeyPairs.RestoreAttributes(params).pairs[2] ==
         (kSecAttrKeySizeInBits, Number(8 * |copyExternalRepresentation(key.handle).out|))
  {
    var params := KeychainKeyPairs.RestoreKeyParams(keyClass, ToExternalRepresentation(key, copyExternalRepresentation).value, keyType);
    KeychainKeyPairs.RestoreAttributesDecode(params);
  }
}
