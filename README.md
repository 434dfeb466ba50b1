# keychain-services: a verified model of the marshalling layer

keychain-services is a Rust binding to the macOS Security framework's
Keychain Services. The framework's own functions (`SecItemCopyMatching`,
`SecKeyCreateSignature`, `SecKeychainCreate` and the rest) are foreign
code. What the binding itself decides is the subject of this model:

- which (key, value) pairs it hands the framework, in which order;
- how it turns the framework's status codes, error references and null
  pointers into `Result`s, errors and panics.

The model covers these parts of the binding:

- `DictionaryBuilder`, an append-only list of pairs (`dictionary.dfy`, a
  class whose `pairs` field the `add*` methods extend);
- the status-code table and error rendering (`error.dfy`);
- access-control flag words (`access.dfy`, a class over a 64-bit bit-vector
  word);
- the older query builder (`query.dfy`);
- both generations of key-pair generation parameters
  (`keychain_key_pair.dfy`, `key_pair.dfy`, `key.dfy`);
- the key, keychain, item and password operations (`keychain_key.dfy`,
  `keychain.dfy`, `keychain_item.dfy`, `password.dfy`);
- the enumeration tables: attributes, item classes, key operations and
  algorithms (`attr.dfy`, `item.dfy`, `class.dfy`, `operation.dfy`,
  `key_algorithm.dfy`, `algorithm.dfy`);
- the `Signature` and `Ciphertext` value types.

Modelling choices:

- **Framework.** Each framework function the binding calls is a
  function-typed parameter (an oracle). It returns the reply shapes of
  `ffi.dfy`: a status with its message and out-pointer, or an out-value with
  an optional `CFErrorRef`. The contracts then say exactly what is passed to
  the framework and how every possible reply is interpreted.
- **Constants.** Framework constants are an enumeration of their symbol
  names (`SecConst`, `AlgorithmConst`).
- **Dictionaries.** A `CFDictionary` is the sequence of pairs it was built
  from. Order and repeated keys are therefore visible.
- **Panics.** A panic (`unwrap`, `expect`, `assert!`) is the `Panic`
  alternative of `Outcome<T>`. `Err` is a returned `Error`.
- **As written and as intended.** Two defects of src/keychain/item/mod.rs
  (see Findings) are modelled both ways. Members named `…AsWritten` follow
  the code; the members without the suffix follow the evidently intended
  reading, and the password accessors are built on those.
- **Strings.** Strings are Dafny strings. Their UTF-8 bytes and
  `str::from_utf8` are modelled in `utf8.dfy`, following Table 3-7 of the
  Unicode Standard, with the round trip proved in both directions.

## Model

| member | source | states |
|---|---|---|
| Dictionaries.DictionaryBuilder.constructor | src/dictionary.rs:21-24 | a new builder holds no pairs |
| Dictionaries.DictionaryBuilder.Add | src/dictionary.rs:26-36 | the pair is appended at the end and every earlier pair stays as it was |
| Dictionaries.DictionaryBuilder.AddAttr | src/dictionary.rs:38-41 | appends exactly one pair: the attribute's kind constant with the attribute's Core Foundation value |
| Dictionaries.DictionaryBuilder.AddBoolean | src/dictionary.rs:43-49 | appends one pair whose value is the given boolean |
| Dictionaries.DictionaryBuilder.AddNumber | src/dictionary.rs:51-57 | appends one pair whose value is the given 64-bit number |
| Dictionaries.DictionaryBuilder.AddString | src/dictionary.rs:59-66 | appends one pair whose value is the given string |
| Dictionaries.DictionaryBuilder.ToDictionary | src/dictionary.rs:69-73 | the dictionary holds exactly the builder's pairs, in the order they were added |
| Dictionaries.AddTwiceKeepsBoth | src/dictionary.rs:32-35 | no de-duplication: adding a key twice adds two occurrences of it, and the first value is still in place |
| Dictionaries.AddLeavesOtherKeys | src/dictionary.rs:32-35 | adding a pair leaves the count of every other key unchanged |
| Errors.KindOfStatus | src/error.rs:486-524 | a status maps to a named kind exactly when it is one of the known codes (-25320 to -25291, or -34018); any other status, 0 included, maps to `OSError` carrying the status itself |
| Errors.StatusOfKind | src/error.rs:18-142 | exactly the 31 named kinds have a status code |
| Errors.NamedKindRoundTrip | src/error.rs:486-519 | every named kind is what its own status constant maps to |
| Errors.KnownStatusRoundTrip | src/error.rs:486-519 | every known status is the constant of the kind it maps to |
| Errors.KindOfStatusInjective | src/error.rs:486-524 | distinct statuses map to distinct kinds; the 31 constants are pairwise distinct |
| Errors.SuccessIsUnknownKind | src/error.rs:520-522 | the kind of status 0 is `OSError` with code 0 |
| Errors.MaybeFromOSStatus | src/error.rs:156-173 | no error exactly for success; otherwise the error has the status's kind and the framework's message as its description |
| Errors.OfStatusReply | src/error.rs:156-173 | a call's result is an error exactly when its status is nonzero, with the kind of that status; on success the output is passed through |
| Errors.UnwrapMaybeFromOSStatus | src/keychain/item/mod.rs:93-96 | `maybe_from_OSStatus(..).unwrap()` never returns an error: it panics exactly when the status is success, and otherwise yields the status's error |
| Errors.FromCFError | src/error.rs:197-218 | the error has the `CFError` kind with the structured error's code and domain, and its description |
| Errors.OfErrorReply | src/error.rs:197-218 | a call's result is an error exactly when the error pointer is set, and that error is the structured error's; otherwise the output is passed through |
| Errors.CFErrorIsNeverNamed | src/error.rs:476-483 | a structured error is always `CFError` with its own code and domain, even when its code is a known status |
| Errors.KindText | src/error.rs:221-474 | every kind renders as a non-empty text |
| Errors.Display | src/error.rs:181-185 | an error renders as its description, " (", the kind's text, and ")" |
| Errors.DecimalShape | src/error.rs:449-453 | an integer renders as text with no comma, starting with '-' exactly when the integer is negative |
| Errors.DecimalInjective | src/error.rs:469 | distinct integers render differently |
| Errors.DecimalCommaPrefix | src/error.rs:449-453 | in "code, rest", the rendered code and the rest can be read back uniquely |
| Errors.OSErrorTextInjective | src/error.rs:469-473 | two unknown-OS-error texts are equal only for equal codes |
| Errors.CFErrorTextInjective | src/error.rs:449-466 | two Core Foundation error texts are equal only for equal codes and equal domains |
| Errors.KindTextInjective | src/error.rs:449-473 | the text of an `OSError` or a `CFError` kind determines the kind, with its code and domain |
| Errors.DisplayDeterminesKind | src/error.rs:181-185 | for a given description, the rendering of an error from an unknown status or a structured error determines the error |
| Access.FlagBits | src/access.rs:54-125 | every one of the eight flags is a single non-zero bit |
| Access.FlagBitsAtIndex | src/access.rs:54-125 | a flag's bit is the one at its position: UserPresence 0, BiometryAny 1, BiometryCurrentSet 3, DevicePasscode 4, Or 14, And 15, PrivateKeyUsage 30, ApplicationPassword 31 |
| Access.FlagBitsDisjoint | src/access.rs:54-125 | distinct flags have distinct positions and non-overlapping bits |
| Access.AccessControlFlags.constructor | src/access.rs:134-141 | a new set of flags is the zero word |
| Access.AccessControlFlags.Add | src/access.rs:143-147 | the new word is the old one with the flag's bit ORed in; no combination is refused |
| Access.AddSetsOnlyItsBit | src/access.rs:145-147 | adding a flag sets its bit, leaves the bit of every other flag as it was, and adding it again changes nothing |
| Access.AddCommutes | src/access.rs:145-147 | two flags can be added in either order with the same result |
| Access.FromFlags | src/access.rs:150-164 | the flags built from a slice are the OR of the bits of all its elements, zero for the empty slice |
| Access.FoldMembership | src/access.rs:150-164 | a flag's bit is set in the result for a slice exactly when the flag is in the slice |
| Access.FoldSetDetermined | src/access.rs:150-164 | the result for a slice depends only on which flags it holds, not on their order or repetition |
| Access.FoldAppend | src/access.rs:150-164 | the result for a concatenation of slices is the OR of their results |
| Access.CreateWithFlags | src/access.rs:187-212 | the framework gets the accessibility constant and the word; the result is an error exactly when the framework sets its error, and the returned object otherwise |
| Attrs.AttrConstOf | src/attr.rs:91-113 | a constant is read back only as the attribute key that maps to it |
| Attrs.AttrRoundTrip | src/attr.rs:91-113 | every one of the 15 attribute keys is recovered from its constant, so the key table is total and injective |
| Attrs.AttrConstOfInverse | src/attr.rs:91-113 | a constant is read back exactly when some attribute key maps to it |
| Attrs.AccessibleConstOf | src/attr.rs:161-183 | a constant is read back only as the accessibility value that maps to it |
| Attrs.AccessibleRoundTrip | src/attr.rs:161-183 | each of the 7 accessibility values is recovered from its constant, so distinct values have distinct constants |
| Attrs.AccessibleConstOfInverse | src/attr.rs:161-183 | a constant is read back exactly when some accessibility value maps to it |
| Attrs.KeyClassConstOf | src/attr.rs:374-386 | a constant is read back only as the key class that maps to it |
| Attrs.KeyClassRoundTrip | src/attr.rs:374-386 | each of the 3 key classes is recovered from its constant |
| Attrs.KeyClassConstOfInverse | src/attr.rs:374-386 | a constant is read back exactly when some key class maps to it |
| Attrs.KeyTypeConstOf | src/attr.rs:425-437 | a constant is read back only as the key type that maps to it |
| Attrs.KeyTypeRoundTrip | src/attr.rs:425-437 | each of the 3 key types is recovered from its constant |
| Attrs.KeyTypeConstOfInverse | src/attr.rs:425-437 | a constant is read back exactly when some key type maps to it |
| Attrs.ProtocolConstOf | src/attr.rs:550-590 | a constant is read back only as the protocol that maps to it |
| Attrs.ProtocolRoundTrip | src/attr.rs:550-590 | each of the 31 protocols is recovered from its constant, so distinct protocols have distinct constants |
| Attrs.ProtocolConstOfInverse | src/attr.rs:550-590 | a constant is read back exactly when some protocol maps to it |
| Attrs.TokenIdConstOf | src/attr.rs:616-626 | a constant is read back only as the token that maps to it |
| Attrs.TokenIdRoundTrip | src/attr.rs:616-626 | the token is recovered from its constant |
| Attrs.TokenIdConstOfInverse | src/attr.rs:616-626 | a constant is read back exactly when the token maps to it |
| Attrs.TagAsStr | src/attr.rs:271-274 | a tag reads as a string exactly when its bytes are valid UTF-8, and then the string encodes back to those bytes |
| Attrs.TagFromStr | src/attr.rs:295-299 | the tag made from a string holds its UTF-8 bytes, and `as_str` gives the string back |
| Attrs.TagStrRoundTrip | src/attr.rs:271-299 | a tag whose bytes are valid UTF-8 is the tag made from the string they spell |
| Attrs.AsCFType | src/attr.rs:185-193 | an attribute's Core Foundation value, read back under the attribute's own kind, gives the attribute again (the same holds for each `TAttr` implementation, e.g. src/attr.rs:238-246, 301-309, 337-345, 388-396, 439-447, 592-600, 628-636) |
| Attrs.DecodeAttrSound | src/attr.rs:185-193 | every value read back as an attribute under a kind is exactly the value of that attribute, and the attribute has that kind |
| Attrs.AttrPairInjective | src/attr.rs:16-24 | two attributes that give the same key and the same value are the same attribute |
| Attrs.KindConstOf | src/keychain/key/pair.rs:104-249 | a constant is read back only as the attribute kind that maps to it |
| Attrs.KindRoundTrip | src/keychain/key/pair.rs:104-249 | each attribute kind of the key-pair builder, key-usage kinds included, is recovered from its constant |
| KeychainKeyPairs.GenerateDictionaryDecodes | src/keychain/key/pair.rs:252-263 | a generation dictionary reads back as exactly the key type, size and private-key attributes it was built from |
| KeychainKeyPairs.DecodedIsGenerateDictionary | src/keychain/key/pair.rs:252-263 | every dictionary that reads back as a generation request is the generation dictionary of that request |
| KeychainKeyPairs.GenerateDictionaryKeys | src/keychain/key/pair.rs:252-263 | a generation dictionary has exactly three top-level keys, in the order key type, key size, private-key attributes; a token identifier never appears at the top level |
| KeychainKeyPairs.KeyPairGenerateParams.constructor | src/keychain/key/pair.rs:90-98 | `new` stores the type and the size, and no private-key attribute yet |
| KeychainKeyPairs.KeyPairGenerateParams.AccessControl | src/keychain/key/pair.rs:100-107 | appends exactly one pair, the access-control object, after the earlier private-key attributes |
| KeychainKeyPairs.KeyPairGenerateParams.ApplicationTag | src/keychain/key/pair.rs:109-120 | appends exactly one pair, the tag's bytes |
| KeychainKeyPairs.KeyPairGenerateParams.CanDerive | src/keychain/key/pair.rs:122-129 | appends exactly one pair, the flag under the derive key |
| KeychainKeyPairs.KeyPairGenerateParams.CanDecrypt | src/keychain/key/pair.rs:131-138 | appends exactly one pair, the flag under the decrypt key |
| KeychainKeyPairs.KeyPairGenerateParams.CanEncrypt | src/keychain/key/pair.rs:140-147 | appends exactly one pair, the flag under the encrypt key |
| KeychainKeyPairs.KeyPairGenerateParams.CanSign | src/keychain/key/pair.rs:149-156 | appends exactly one pair, the flag under the sign key |
| KeychainKeyPairs.KeyPairGenerateParams.CanVerify | src/keychain/key/pair.rs:158-165 | appends exactly one pair, the flag under the verify key |
| KeychainKeyPairs.KeyPairGenerateParams.CanWrap | src/keychain/key/pair.rs:167-174 | appends exactly one pair, the flag under the wrap key |
| KeychainKeyPairs.KeyPairGenerateParams.CanUnwrap | src/keychain/key/pair.rs:176-183 | appends exactly one pair, the flag under the unwrap key |
| KeychainKeyPairs.KeyPairGenerateParams.KeyClass | src/keychain/key/pair.rs:185-192 | appends exactly one pair, the key-class constant |
| KeychainKeyPairs.KeyPairGenerateParams.Extractable | src/keychain/key/pair.rs:194-201 | appends exactly one pair, the flag under the extractable key |
| KeychainKeyPairs.KeyPairGenerateParams.Permanent | src/keychain/key/pair.rs:203-210 | appends exactly one pair, the flag under the is-permanent key |
| KeychainKeyPairs.KeyPairGenerateParams.Sensitive | src/keychain/key/pair.rs:212-220 | appends exactly one pair, the flag under the sensitive key |
| KeychainKeyPairs.KeyPairGenerateParams.Label | src/keychain/key/pair.rs:222-230 | appends exactly one pair, the label's text |
| KeychainKeyPairs.KeyPairGenerateParams.Synchronizable | src/keychain/key/pair.rs:232-240 | appends exactly one pair, the flag under the synchronizable key |
| KeychainKeyPairs.KeyPairGenerateParams.TokenId | src/keychain/key/pair.rs:242-249 | appends exactly one pair, the token constant |
| KeychainKeyPairs.KeyPairGenerateParams.IntoDictionary | src/keychain/key/pair.rs:252-263 | the result is the generation dictionary of the type, of the size as an `i64`, and of the private-key attributes in call order |
| KeychainKeyPairs.PairOfGenerateReply | src/keychain/key/pair.rs:61-74 | an error exactly for a nonzero status, with that status's kind; a crash exactly when the status is success but a reference is null; otherwise the two non-null references |
| KeychainKeyPairs.PairOfCreateReply | src/keychain/key/pair.rs:28-41 | an error exactly when the private key is null and the error is set; success exactly when the private key and the public key copied from it are both non-null |
| KeychainKeyPairs.Create | src/keychain/key/pair.rs:23-42 | the framework is given the generation dictionary of the parameters, and its reply is read as above |
| KeychainKeyPairs.Generate | src/keychain/key/pair.rs:49-75 | the framework is given the generation dictionary of the parameters, and its status and references are read as above |
| KeychainKeyPairs.KeySizeInBitsOf | src/keychain/key/pair.rs:297 | for any length below 2^60 the size is eight times the length |
| KeychainKeyPairs.Attributes | src/keychain/key/pair.rs:292-299 | the restore attributes are the key type, the key class and the size in bits, in that order |
| KeychainKeyPairs.RestoreAttributesDecode | src/keychain/key/pair.rs:291-305 | the restore attributes read back as the key's type and class, `as_bytes` is the key data, and the size is eight times its length |
| LegacyKeyPairs.KeyPairGenerateParams.constructor | src/key/pair.rs:66-74 | `new` stores the type and the size, and no private-key attribute yet |
| LegacyKeyPairs.KeyPairGenerateParams.AccessControl | src/key/pair.rs:76-83 | appends exactly one pair, the access-control object |
| LegacyKeyPairs.KeyPairGenerateParams.ApplicationTag | src/key/pair.rs:85-96 | appends exactly one pair, the tag's bytes |
| LegacyKeyPairs.KeyPairGenerateParams.Permanent | src/key/pair.rs:98-105 | appends exactly one pair, the flag under the is-permanent key |
| LegacyKeyPairs.KeyPairGenerateParams.Label | src/key/pair.rs:107-115 | appends exactly one pair, the label's text |
| LegacyKeyPairs.KeyPairGenerateParams.Synchronizable | src/key/pair.rs:117-125 | appends exactly one pair, the flag under the synchronizable key |
| LegacyKeyPairs.KeyPairGenerateParams.TokenId | src/key/pair.rs:127-134 | appends the token constant to the private-key attributes, so it ends up inside the nested dictionary |
| LegacyKeyPairs.KeyPairGenerateParams.IntoDictionary | src/key/pair.rs:137-148 | the result is the generation dictionary of the type, of the size as an `i64`, and of the private-key attributes in call order |
| LegacyKeyPairs.Generate | src/key/pair.rs:25-51 | the framework is given the generation dictionary; an error for a nonzero status, a crash for a null reference on success, the two references otherwise |
| SecKeys.KeyQuery | src/key.rs:47-49 | the query `find` sends has class `Key` and asks for a reference, whatever the caller set there; every other filter is the caller's |
| SecKeys.Find | src/key.rs:42-66 | the framework is given the dictionary of the forced query; an error exactly for a nonzero status, the found reference otherwise |
| SecKeys.FindDictionaryForcesKeyClass | src/key.rs:47-54 | the dictionary `find` sends holds class `Key` and return-reference `true` and no other value under those keys, and any other key's pair is in it exactly when the caller's query set that filter to that value |
| SecKeys.Sign | src/key.rs:101-122 | the framework signs with the algorithm's constant; an error exactly when it sets its error; otherwise a signature tagged with the algorithm passed in, holding the bytes returned |
| SecKeys.NewGeneratePairParams | src/key.rs:256-269 | the type and the size given, no access control, tag, label or token, neither permanent nor synchronizable |
| SecKeys.WithAccessControl | src/key.rs:271-278 | sets the access control and leaves every other option as it was |
| SecKeys.WithApplicationTag | src/key.rs:280-291 | sets the tag and leaves every other option as it was |
| SecKeys.WithPermanent | src/key.rs:293-300 | sets the permanence flag and leaves every other option as it was |
| SecKeys.WithLabel | src/key.rs:302-310 | sets the label and leaves every other option as it was |
| SecKeys.WithSynchronizable | src/key.rs:312-320 | sets the synchronizability flag and leaves every other option as it was |
| SecKeys.WithTokenId | src/key.rs:322-329 | sets the token and leaves every other option as it was |
| SecKeys.GeneratePairSetterLastWins | src/key.rs:271-329 | setting an option twice keeps only the second value |
| SecKeys.IntoCFDictionary | src/key.rs:331-391 | the result is the generation dictionary of the options: key type, size, then the nested private-key attributes (permanence and synchronizability always, then access control, tag and label each only when set, in that order), then the token only when set |
| SecKeys.PrivateKeyAttrsDecode | src/key.rs:336-366 | the private-key attributes read back as exactly the options they were built from |
| SecKeys.RequestDictionaryDecodes | src/key.rs:335-391 | the generation dictionary reads back as exactly its options: each optional pair is present exactly when its option is set, at its fixed place |
| SecKeys.DecodedArePrivateKeyAttrs | src/key.rs:336-366 | private-key attributes that read back as some options are exactly the attributes built from those options |
| SecKeys.DecodedIsRequestDictionary | src/key.rs:335-391 | every dictionary that reads back as a generation request is the generation dictionary of that request |
| SecKeys.Generate | src/key.rs:187-222 | the framework is given the generation dictionary of the options; an error for a nonzero status, a crash for a null reference on success, the two references otherwise |
| Query.MatchLimitRoundTrip | src/query.rs:41-55 | `One` and `All` become their constants and a count becomes a number; every limit is recovered from its value, except a count of 2^63 or more, which `as i64` makes negative |
| Query.NewQuery | src/query.rs:77-81 | a new query sets no filter |
| Query.WithApplicationLabel | src/query.rs:83-95 | sets the application-label filter to the label's bytes and leaves every other filter as it was |
| Query.WithApplicationTag | src/query.rs:97-107 | sets the tag filter to the tag's bytes and leaves every other filter as it was |
| Query.WithPermanent | src/query.rs:109-116 | sets the permanence filter to the flag and leaves every other filter as it was |
| Query.WithKeyClass | src/query.rs:118-125 | sets the key-class filter to the class constant and leaves every other filter as it was |
| Query.WithKeyType | src/query.rs:127-134 | sets the key-type filter to the type constant and leaves every other filter as it was |
| Query.WithLabel | src/query.rs:136-143 | sets the label filter to the label's text and leaves every other filter as it was |
| Query.WithSynchronizable | src/query.rs:145-152 | sets the synchronizability filter to the flag and leaves every other filter as it was |
| Query.WithTokenId | src/query.rs:154-162 | sets the token filter to the token constant and leaves every other filter as it was |
| Query.WithUseOperationPrompt | src/query.rs:164-172 | sets the operation-prompt filter to the text and leaves every other filter as it was |
| Query.SetterLastWins | src/query.rs:109-116 | setting a filter twice keeps only the second value |
| Query.IntoCFDictionary | src/query.rs:174-264 | the pairs are those of the set filters, taken in the fixed key order: application label, application tag, class, permanence, key class, key type, label, match limit, return reference, synchronizability, token, operation prompt |
| Query.QueryPairsMembers | src/query.rs:176-260 | a pair is in the dictionary exactly when the query sets that filter to that value |
| Query.QueryPairsDistinctKeys | src/query.rs:176-260 | the keys come in strictly increasing key order, so no key appears twice |
| Query.PairsUpToLength | src/query.rs:176-260 | there is one pair per filter set |
| Query.EmptyQueryNoPairs | src/query.rs:79-81 | a new query gives no pairs |
| Query.PairsUpToMembers | src/query.rs:176-260 | the pairs of the first n keys are exactly the set filters among those keys, with their values |
| Query.PairsUpToInKeyOrder | src/query.rs:176-260 | the pairs of the first n keys come in key order, all before position n |
| Items.SecClassOfConst | src/item.rs:46-56 | a constant maps back only to the class whose constant it is |
| Items.SecClassRoundTrip | src/item.rs:46-56 | every class is recovered from its `kSecClass*` constant, so no two classes share one |
| ItemClass.ClassConstInjective | src/keychain/item/class.rs:67-77 | distinct classes have distinct `kSecClass*` constants |
| ItemClass.FromTag | src/keychain/item/class.rs:46-64 | a class is returned only for a tag equal to that class's tag, and nothing exactly when the tag is none of the five |
| ItemClass.FromTagOfOwnTag | src/keychain/item/class.rs:46-64 | when the five tags differ, every class is recovered from its own tag |
| ItemClass.ClassOfTag | src/keychain/item/class.rs:80-84 | panics exactly on an unknown tag, never returns an error, and otherwise gives the class `from_tag` finds |
| KeyOperations.ToCFIndex | src/keychain/key/operation.rs:23-32 | each operation gets an index from 0 to 4 that maps back to it |
| KeyOperations.IndicesAreOntoRange | src/keychain/key/operation.rs:23-32 | exactly the indices 0 to 4 belong to an operation, each to the one whose index it is |
| Signatures.New | src/signature.rs:17-20 | any algorithm and any bytes are accepted and read back unchanged through `algorithm` and `as_bytes` |
| Signatures.NewOfAccessors | src/signature.rs:17-35 | rebuilding a signature from its algorithm and bytes gives it back |
| Signatures.ByteViewsAgree | src/signature.rs:28-48 | `as_ref`, `as_bytes`, `into_vec` and the conversion into `Vec<u8>` give the same bytes |
| Ciphertexts.New | src/ciphertext.rs:17-20 | any algorithm and any bytes are accepted and read back unchanged through `algorithm` and `as_bytes` |
| Ciphertexts.NewOfAccessors | src/ciphertext.rs:17-35 | rebuilding a ciphertext from its algorithm and bytes gives it back |
| Ciphertexts.ByteViewsAgree | src/ciphertext.rs:28-48 | `as_ref`, `as_bytes`, `into_vec` and the conversion into `Vec<u8>` give the same bytes |
| Keychains.FindDefault | src/keychain/mod.rs:34-43 | fails exactly on a non-success status, with the kind that status maps to and its message; on success wraps the returned reference; never panics |
| Keychains.Default | src/keychain/mod.rs:149-153 | panics exactly when `find_default` fails, never returns an error, and otherwise gives the same keychain |
| Keychains.PasswordLength | src/keychain/mod.rs:59 | the length passed is the password's UTF-8 byte count whenever that fits in 32 bits |
| Keychains.Create | src/keychain/mod.rs:51-83 | panics exactly on a path containing a NUL byte; otherwise fails exactly on a non-success status of `SecKeychainCreate`, with the kind that status maps to and its message, and on success wraps the returned reference |
| Keychains.CreateCallPromptsIffNoPassword | src/keychain/mod.rs:55-76 | the user is prompted exactly when no password is given; a given password is passed as its UTF-8 bytes with their count, and a missing one as null with length 0 |
| Keychains.Delete | src/keychain/mod.rs:89-97 | succeeds exactly on a success status; otherwise fails with the kind that status maps to |
| Keychains.FindItem | src/keychain/mod.rs:106-124 | the caller's attributes gain the match limit "one" and the return-reference flag, and the outcome is the status of the search over exactly those attributes |
| Keychains.AddItem | src/keychain/mod.rs:133-146 | the caller's attributes gain this keychain and the return-reference flag, and the outcome is the status of the add over exactly those attributes |
| Keychains.FindItemLeavesKeychainOut | src/keychain/mod.rs:106-116 | the search names a keychain only as often as the caller's query did, and asks for a reference once more |
| Keychains.AddItemNamesKeychain | src/keychain/mod.rs:133-139 | the add names one keychain more than the caller's attributes did, and it is the receiver |
| KeychainItems.ClassOfAsWritten | src/keychain/item/mod.rs:24-39 | as written, never an error: a successful call panics in `Option::unwrap`; after a failing call the error is dropped and the tag the local holds is converted, panicking on an unknown tag |
| KeychainItems.ClassOf | src/keychain/item/mod.rs:24-39 | as intended: never an error; a failing call panics, and after a successful one the tag is converted to a class, panicking on an unknown tag |
| KeychainItems.ClassOfAsWrittenNullTag | src/keychain/item/mod.rs:25-38 | when the local keeps its initial "NULL" tag and no class has that tag, the conversion panics |
| KeychainItems.DataOfLocalsAsWritten | src/keychain/item/mod.rs:56-74 | as written: a failing status is the error; a null buffer is `MissingEntitlement`; otherwise a successful free panics and a failing free lets through exactly the first `length` bytes of the buffer |
| KeychainItems.DataOfLocals | src/keychain/item/mod.rs:56-74 | as intended: a failing status is the error; a null buffer is `MissingEntitlement`; a failing free panics; a successful free lets through exactly the first `length` bytes of the buffer |
| KeychainItems.DataAsWritten | src/keychain/item/mod.rs:42-75 | as written, never returns data: a failing status is its error and every successful call ends in `MissingEntitlement` |
| KeychainItems.Data | src/keychain/item/mod.rs:42-75 | as intended, with both corrections: a failing status is its error, a null buffer is `MissingEntitlement`, and a returned buffer yields exactly its first `length` bytes when freeing it succeeds, a failing free panicking |
| KeychainItems.DataAsWrittenLosesBuffer | src/keychain/item/mod.rs:43-58 | for the same successful call with a buffer, the code as written reports `MissingEntitlement` whatever the free reports, where the intended reading returns the bytes |
| KeychainItems.DataFreeCheckReversed | src/keychain/item/mod.rs:68-73 | with the buffer kept, the free check as written panics exactly when the free succeeds and returns the bytes when it fails; the intended reading does the reverse |
| KeychainItems.FindAttr | src/keychain/item/mod.rs:82-90 | finds the first attribute whose tag names the wanted kind, skipping tags of no known kind, and finds nothing exactly when no attribute matches |
| KeychainItems.FindAttrSkipsUnknownTag | src/keychain/item/mod.rs:85-89 | an attribute whose tag is of no known kind never matches |
| KeychainItems.FindAttrIgnoresLater | src/keychain/item/mod.rs:82-90 | once an attribute matches, attributes after it do not change the result |
| KeychainItems.AttrText | src/keychain/item/mod.rs:91 | never an error: a null data pointer or data that is not UTF-8 panics, and otherwise the text is the one whose UTF-8 encoding is the data |
| KeychainItems.AttributeAsWritten | src/keychain/item/mod.rs:79-104 | as written: a failing read is the error; a null or non-UTF-8 match panics; otherwise a successful free panics, and after a failing free the result is `NoSuchAttr` with no match, else the first match's data decoded as UTF-8 |
| KeychainItems.Attribute | src/keychain/item/mod.rs:79-104 | as intended: a failing read is the error; a failing free panics; after a successful free the result is `NoSuchAttr` with no match, else the first match's data decoded as UTF-8 |
| KeychainItems.AttributeReadsFirstMatch | src/keychain/item/mod.rs:79-104 | as intended, text stored as UTF-8 in the first attribute of the wanted kind is read back unchanged once the list is freed |
| KeychainItems.AttributeAsWrittenReadsOnlyOnFailedFree | src/keychain/item/mod.rs:91-98 | as written, the same list panics when the free succeeds and reads back the text only when the free fails |
| Passwords.CreateGeneric | src/keychain/item/password.rs:15-28 | adds exactly the class, service, account and password, in that order, followed by what `add_item` appends; the outcome is that add's status |
| Passwords.FindGeneric | src/keychain/item/password.rs:31-38 | searches with exactly the class, service and account, followed by what `find_item` appends; the outcome is that search's status |
| Passwords.CreateInternet | src/keychain/item/password.rs:61-74 | adds exactly the class, server, account and password, in that order, followed by what `add_item` appends |
| Passwords.FindInternet | src/keychain/item/password.rs:77-93 | searches with the class, server and account, then the protocol when one is given, followed by what `find_item` appends |
| Passwords.GenericCreateExtendsFind | src/keychain/item/password.rs:15-38 | the create attributes are the find query plus exactly one password value, which the query does not contain |
| Passwords.InternetCreateExtendsFind | src/keychain/item/password.rs:61-93 | the create attributes are the protocol-less find query plus exactly one password value, and never name a protocol |
| Passwords.InternetFindProtocol | src/keychain/item/password.rs:88-90 | the query names a protocol exactly when one is given, and that pair decodes back to the given protocol |
| Passwords.GenericAndInternetQueriesDiffer | src/keychain/item/password.rs:22-33 | both queries start with the class key, and the generic and Internet classes differ |
| Passwords.Account | src/keychain/item/password.rs:41-43 | on the intended `attribute`: a returned account is the UTF-8 text of the item's first account attribute; a missing one on a successful read is `NoSuchAttr` |
| Passwords.Service | src/keychain/item/password.rs:46-48 | on the intended `attribute`: a returned service is the UTF-8 text of the item's first service attribute; a missing one on a successful read is `NoSuchAttr` |
| Passwords.Server | src/keychain/item/password.rs:101-103 | on the intended `attribute`: a returned server is the UTF-8 text of the item's first server attribute; a missing one on a successful read is `NoSuchAttr` |
| Passwords.PasswordData.constructor | src/keychain/item/password.rs:114 | the new buffer holds exactly the given bytes |
| Passwords.PasswordData.AsRef | src/keychain/item/password.rs:135-139 | `as_ref` gives the same bytes as `as_bytes` |
| Passwords.PasswordData.TryAsStr | src/keychain/item/password.rs:130-132 | succeeds exactly when the bytes are valid UTF-8, with the text whose encoding they are |
| Passwords.PasswordData.AsStr | src/keychain/item/password.rs:124-126 | never an error: panics exactly on invalid UTF-8, and otherwise the text whose encoding the bytes are |
| Passwords.PasswordData.Drop | src/keychain/item/password.rs:141-145 | every byte of the buffer is zero afterwards, and the buffer keeps its length |
| Passwords.Password | src/keychain/item/password.rs:51-53 | as intended, on the corrected `data`: succeeds exactly when the status is success, a buffer is returned and freeing it succeeds, with a new `PasswordData` holding exactly the first `length` bytes; a failing status is its error |
| Passwords.PasswordAsWritten | src/keychain/item/password.rs:51-53 | as written, on the as-written `data`: never returns a password and never panics; a failing status is its error and every successful call ends in `MissingEntitlement` |
| KeychainKeys.Find | src/keychain/key/mod.rs:44-64 | searches with the caller's query plus the key class, match limit "one" and return-reference; fails exactly on a non-success status, with the error that status gives; otherwise wraps the returned reference; never panics |
| KeychainKeys.FindForcesKeyClass | src/keychain/key/mod.rs:45-48 | the search has one key-class pair and one return-reference pair more than the caller's query, and the first forced pair is the key class |
| KeychainKeys.IsSupported | src/keychain/key/mod.rs:111-120 | true exactly when the framework answers 1 for the operation's index and the algorithm's constant |
| KeychainKeys.Sign | src/keychain/key/mod.rs:126-143 | fails exactly when the framework sets an error, with that structured error; otherwise the signature carries the requested algorithm and exactly the bytes returned; never panics |
| KeychainKeys.Verify | src/keychain/key/mod.rs:149-166 | asks with the signature's own algorithm and bytes; fails exactly when the framework sets an error, with that structured error, and answers true exactly when the raw result is 1 |
| KeychainKeys.SignThenVerifyArguments | src/keychain/key/mod.rs:126-166 | verifying a signature `sign` made passes the same algorithm constant and exactly the bytes the framework signed with |
| KeychainKeys.Encrypt | src/keychain/key/mod.rs:172-189 | fails exactly when the framework sets an error, with that structured error; otherwise the ciphertext carries the requested algorithm and exactly the bytes returned |
| KeychainKeys.Decrypt | src/keychain/key/mod.rs:195-212 | asks with the ciphertext's own algorithm and bytes; fails exactly when the framework sets an error, with that structured error, and otherwise returns exactly the bytes returned |
| KeychainKeys.EncryptThenDecryptArguments | src/keychain/key/mod.rs:172-212 | decrypting what `encrypt` produced asks the framework with the algorithm used and exactly the bytes it returned |
| KeychainKeys.DeleteQuery | src/keychain/key/mod.rs:219-236 | building the filter never gives an error, only a panic on a missing attribute |
| KeychainKeys.DeleteQueryPanics | src/keychain/key/mod.rs:220-233 | panics exactly when the class is missing, a public key lacks its type or tag, or a private key lacks its application label |
| KeychainKeys.DeleteQueryDecodes | src/keychain/key/mod.rs:219-236 | the filter starts with the key class and the key's own class; a symmetric key adds nothing; a public key adds its type and tag; a private key adds its label and return-reference; each pair decodes back to its attribute |
| KeychainKeys.Delete | src/keychain/key/mod.rs:218-243 | panics exactly when the filter cannot be built; otherwise the status of deleting with exactly that filter decides |
| KeychainKeys.ToExternalRepresentation | src/keychain/key/mod.rs:263-273 | fails exactly when the framework sets an error, with that structured error; otherwise returns exactly the exported bytes; never panics |
| KeychainKeys.FromExternalRepresentation | src/keychain/key/mod.rs:279-294 | asks with the parameters' bytes and attributes; fails exactly when the framework sets an error, with that error; otherwise wraps the returned key |
| KeychainKeys.ExportThenRestoreArguments | src/keychain/key/mod.rs:263-294 | restoring exported bytes passes exactly those bytes, with a key size of eight bits per byte |
| KeyAlgorithms.AsCFStringRoundTrip | src/key/algorithm.rs:242-450 | every `KeyAlgorithm` is recovered from the `kSecKeyAlgorithm*` constant it maps to |
| KeyAlgorithms.AlgorithmOfInverse | src/key/algorithm.rs:242-450 | every algorithm constant is the image of some variant, so the table is onto |
| KeyAlgorithms.AsCFStringInjective | src/key/algorithm.rs:242-450 | two variants map to the same constant exactly when they are the same variant |
| KeyAlgorithms.FamilyPreserved | src/key/algorithm.rs:242-450 | each variant maps to a constant of its own family (ECIES, ECDH, ECDSA, RSA encryption or RSA signature) |
| SecKeyAlgorithms.TablesAgree | src/algorithm.rs:242-452 | each `SecKeyAlgorithm` maps to the same constant as the `KeyAlgorithm` variant of the same name |
| SecKeyAlgorithms.AsCFStringRoundTrip | src/algorithm.rs:242-452 | every `SecKeyAlgorithm` is recovered from the constant it maps to |
| SecKeyAlgorithms.AsCFStringInjective | src/algorithm.rs:242-452 | two variants map to the same constant exactly when they are the same variant |
| Utf8.FromUtf8 | src/keychain/item/password.rs:130-132 | `str::from_utf8` succeeds exactly on well-formed UTF-8, with the string whose encoding the bytes are |
| Utf8.EncodeThenDecode | src/attr.rs:271-274 | every string's UTF-8 bytes decode back to it |
| Utf8.DecodeThenEncode | src/attr.rs:295-299 | well-formed bytes are the encoding of the string they decode to |
| Utf8.ValidIffEncoding | src/keychain/item/password.rs:130-132 | bytes are accepted exactly when they are the encoding of some string |
| Utf8.EncodeInjective | src/attr.rs:271-299 | distinct strings have distinct UTF-8 encodings |
| Utf8.DecodeFirstOfEncodeChar | src/attr.rs:271-274 | decoding the encoding of one character gives it back and consumes exactly its bytes |
| Utf8.EncodeCharOfDecodeFirst | src/attr.rs:295-299 | the well-formed sequence at the head of the bytes is the encoding of the character it decodes to |
| Ffi.UsizeAsI64 | src/keychain/key/pair.rs:297 | `as i64` keeps the value below 2^63 and otherwise is congruent to it modulo 2^64 |
| CoreFoundation.Keys | src/dictionary.rs:26-36 | the keys of the pairs, one per pair, in order |
| CoreFoundation.OccurrencesAppend | src/dictionary.rs:26-36 | adding a pair adds one occurrence of its key and none of any other key |
| CoreFoundation.OccurrencesPositive | src/dictionary.rs:26-36 | a key occurs in the pairs exactly when it is among their keys |

## Left out

- Foreign calls. Every call into the Security framework or Core Foundation is an oracle parameter. Signatures, ciphertexts, exported keys, key generation, and how many items a search finds are whatever the oracle returns.
- Ownership. `wrap_under_create_rule`, `wrap_under_get_rule`, `CFRelease` and `SecKeychainItemFreeContent` (reference counting over foreign memory) appear only through their statuses. Framework objects are carried as opaque `Ptr` handles.
- Error details:
  - the description of an error (from `SecCopyErrorMessageString` or `CFErrorCopyDescription`) is an opaque string parameter;
  - backtrace capture is not modelled;
  - the `Debug` rendering of an attribute kind in the `NoSuchAttr` message is replaced by a fixed text.
- Debug output. The `println!` calls in src/query.rs:262 and src/keychain/key/mod.rs:230 are not modelled, and neither are the `Debug` impls.
- Conversion of builders to dictionaries. `CFDictionary::from_CFType_pairs` is foreign, and what it does with repeated keys is not modelled. The model stops at the pair sequence. `DictionaryBuilder.ToDictionary` passes the pairs over in insertion order.
- Version skew. The files mix two generations of the API, and each file is modelled as written:
  - `AttrKind` and `AttrKind::from_tag` are not shown in src/attr.rs. `AttrKind` is the union of `Attr` and the capability kinds used in src/keychain/key/pair.rs. `from_tag` is a parameter (`kindOfTag`).
  - `DictionaryBuilder::add_class` is not shown. It is modelled as adding the class constant under `kSecClass`.
  - `Error::new` is not shown. It is modelled as building an error from a kind and a description.
  - `item::Query` and `MatchLimit` (src/keychain/item/query.rs) are not part of this model. The query `Key::find` receives is modelled as its list of pairs, and `MatchLimit::One` as the `kSecMatchLimitOne` constant.
- KeychainKeys.Delete: the key's attribute accessors (`Key::class`, `key_type`, `application_tag`, `application_label`, which read `SecKeyCopyAttributes` and decode the values) are not modelled. They are given as a record of their decoded results (`KeyAttributes`).
- The `SecKey` accessors and `to_external_representation` of src/key.rs (lines 68-99 and 142-152), and `SecKey::attributes`, are not modelled. They only forward to the framework.
- src/keychain.rs, an older copy of `find_default`, `create` and `delete`, is not part of this model. Its status handling is the same as in src/keychain/mod.rs.
- KeychainKeyPairs.PairOfCreateReply: when `SecKeyCreateRandomKey` returns null without setting the error, the source converts a null `CFErrorRef`. That case is modelled as a panic rather than as undefined behaviour.
- KeychainKeyPairs.KeySizeInBitsOf: the product `len * 8` is taken modulo 2^64 and then read as an `i64`. Only data shorter than 2^60 bytes is stated to give exactly eight bits per byte.
- KeychainItems.Data: requires the framework's promise that a returned buffer holds at least `length` bytes. The source reads that many bytes without checking.
- Passwords.Password: is built on the corrected `KeychainItems.Data` and inherits its requirement that a returned buffer holds at least `length` bytes. The source's `password()` calls `data` as written, which is modelled separately by `Passwords.PasswordAsWritten` (see Findings).
- Passwords.Account: is built on the intended `KeychainItems.Attribute`. As written, `account()` goes through `attribute`, whose free check panics whenever the attribute list is freed successfully; that reading is `KeychainItems.AttributeAsWritten` (see Findings).
- Passwords.Service: is built on the intended `KeychainItems.Attribute`; as written, `service()` panics whenever the attribute list is freed successfully, as `KeychainItems.AttributeAsWritten` states.
- Passwords.Server: is built on the intended `KeychainItems.Attribute`; as written, `server()` panics whenever the attribute list is freed successfully, as `KeychainItems.AttributeAsWritten` states.
- Passwords.PasswordData.Drop: `zeroize` also clears the vector's length. The model keeps the buffer's length and states only that every byte is zero.
- `Clone` for `PasswordData` and the other derived impls (`Clone`, `Debug`, `PartialEq`) are not modelled.
- `Display for AttrApplicationTag` (lossy UTF-8 decoding) is not modelled.
- The newtypes `AttrApplicationTag` and `AttrApplicationLabel`: `new(b).as_bytes() == b` holds because the datatype constructor stores the bytes in a field, so no separate member states it.
- The claim that each algorithm maps to the constant "with the identical suffix" holds because the constants are named after the variants. Each table is instead proved total, injective, onto and family-preserving, and the two tables are proved equal.
- Integer widths. `OSStatus` is `int32`, codes are `int64`, sizes are `usize` and the flag word is `bv64`. Wrap-around is written out only where the source can wrap (`as i64`, `len * 8`, `pw.len() as u32`).
- Concurrency and the interactive tests, which need a live keychain, are out of scope.

## Findings

| source | as written | input that shows it | evidently intended | confidence | as-written member | corrected member |
|---|---|---|---|---|---|---|
| src/keychain/item/mod.rs:42-75 | `result_ptr` is not declared `mut`, so `&mut (result_ptr as *mut c_void)` passes the address of a temporary copy; the buffer pointer the framework writes is lost and `result_ptr` stays null | `SecKeychainItemCopyContent` returns status 0 with a non-null buffer of `length` bytes: `data` returns `MissingEntitlement` instead of the bytes | return the first `length` bytes of the buffer the framework hands back (with the free check of the next row corrected too) | not executed | KeychainItems.DataAsWritten, KeychainItems.DataAsWrittenLosesBuffer, Passwords.PasswordAsWritten | KeychainItems.Data, Passwords.Password |
| src/keychain/item/mod.rs:27-36, 68-71, 93-96 | `Error::maybe_from_OSStatus(..)` returns `None` on success, so the `.unwrap()` after it panics when the call SUCCEEDS and drops the error when it fails | `SecKeychainItemFreeContent` returns 0 after `attribute` found the account "bob": `account()` panics instead of returning "bob"; likewise every successful `SecKeychainItemCopyContent` in `class` panics | panic when the call fails and carry on when it succeeds | not executed | KeychainItems.ClassOfAsWritten, KeychainItems.DataOfLocalsAsWritten, KeychainItems.DataFreeCheckReversed, KeychainItems.AttributeAsWritten, KeychainItems.AttributeAsWrittenReadsOnlyOnFailedFree | KeychainItems.ClassOf, KeychainItems.DataOfLocals, KeychainItems.Attribute, KeychainItems.AttributeReadsFirstMatch |
