/**
 * Item queries of the older API (src/query.rs): a record of optional
 * filters, set by builder methods, turned into the pairs of a query
 * dictionary in a fixed key order.
 */
module Query {
  import opened Wrappers
  import opened Ffi
  import opened CoreFoundation
  import opened Attrs
  import opened Items

  /** `SecMatchLimit`: how many items a query may return. */
  datatype MatchLimit = MatchOne | MatchNumber(count: usize) | MatchAll

  /**
   * `SecMatchLimit::as_CFType`: the `kSecMatchLimitOne`/`kSecMatchLimitAll`
   * constants, or the count converted with `as i64`.
   */
  function MatchLimitValue(m: MatchLimit): Value
  {
    match m
    case MatchOne => Constant(kSecMatchLimitOne)
    case MatchNumber(n) => Number(UsizeAsI64(n))
    case MatchAll => Constant(kSecMatchLimitAll)
  }

  /** The match limit a value stands for, if any. */
  function MatchLimitOfValue(v: Value): Option<MatchLimit>
  {
    match v
    case Constant(kSecMatchLimitOne) => Some(MatchOne)
    case Constant(kSecMatchLimitAll) => Some(MatchAll)
    case Number(n) => if n >= 0 then Some(MatchNumber(n)) else None
    case _ => None
  }

  /**
   * A match limit is recovered from its value unless it is a count of 2^63
   * or more, which `as i64` turns into a negative number.
   */
  lemma MatchLimitRoundTrip(m: MatchLimit)
    ensures m.MatchNumber? && m.count >= 0x8000_0000_0000_0000 ==> MatchLimitValue(m).number < 0
    ensures !(m.MatchNumber? && m.count >= 0x8000_0000_0000_0000) ==> MatchLimitOfValue(MatchLimitValue(m)) == Some(m)
  {
  }

  /** `SecItemQueryParams`: every filter is optional. */
  datatype QueryParams = QueryParams(
    applicationLabel: Option<AttrApplicationLabel>,
    applicationTag: Option<AttrApplicationTag>,
    itemClass: Option<SecClass>,
    permanent: Option<bool>,
    keyClass: Option<AttrKeyClass>,
    keyType: Option<AttrKeyType>,
    labelAttr: Option<AttrLabel>,
    matchLimit: Option<MatchLimit>,
    returnRef: Option<bool>,
    synchronizable: Option<bool>,
    tokenId: Option<AttrTokenId>,
    useOperationPrompt: Option<string>)

  /**
   * The value a query holds for a dictionary key, if that filter is set:
   * the view of a query under which its setters are specified.
   */
  function FieldValue(q: QueryParams, key: SecConst): Option<Value>
  {
    if key.kSecAttrApplicationLabel? then
      (if q.applicationLabel.Some? then Some(AsCFType(ApplicationLabelAttr(q.applicationLabel.value))) else None)
    else if key.kSecAttrApplicationTag? then
      (if q.applicationTag.Some? then Some(AsCFType(ApplicationTagAttr(q.applicationTag.value))) else None)
    else if key.kSecClass? then
      (if q.itemClass.Some? then Some(Constant(SecClassConst(q.itemClass.value))) else None)
    else if key.kSecAttrIsPermanent? then
      (if q.permanent.Some? then Some(Boolean(q.permanent.value)) else None)
    else if key.kSecAttrKeyClass? then
      (if q.keyClass.Some? then Some(Constant(KeyClassConst(q.keyClass.value))) else None)
    else if key.kSecAttrKeyType? then
      (if q.keyType.Some? then Some(Constant(KeyTypeConst(q.keyType.value))) else None)
    else if key.kSecAttrLabel? then
      (if q.labelAttr.Some? then Some(AsCFType(LabelAttr(q.labelAttr.value))) else None)
    else if key.kSecMatchLimit? then
      (if q.matchLimit.Some? then Some(MatchLimitValue(q.matchLimit.value)) else None)
    else if key.kSecReturnRef? then
      (if q.returnRef.Some? then Some(Boolean(q.returnRef.value)) else None)
    else if key.kSecAttrSynchronizable? then
      (if q.synchronizable.Some? then Some(Boolean(q.synchronizable.value)) else None)
    else if key.kSecAttrTokenID? then
      (if q.tokenId.Some? then Some(Constant(TokenIdConst(q.tokenId.value))) else None)
    else if key.kSecUseOperationPrompt? then
      (if q.useOperationPrompt.Some? then Some(Text(q.useOperationPrompt.value)) else None)
    else None
  }

  /** `SecItemQueryParams::new`: no filter set. */
  function NewQuery(): (q: QueryParams)
    ensures forall key :: FieldValue(q, key).None?
  {
    QueryParams(None, None, None, None, None, None, None, None, None, None, None, None)
  }

  /** `application_label`: sets that filter and leaves every other one as it was. */
  function WithApplicationLabel(q: QueryParams, appLabel: AttrApplicationLabel): (r: QueryParams)
    ensures FieldValue(r, kSecAttrApplicationLabel) == Some(Data(appLabel.bytes))
    ensures forall key :: key != kSecAttrApplicationLabel ==> FieldValue(r, key) == FieldValue(q, key)
  {
    q.(applicationLabel := Some(appLabel))
  }

  /** `application_tag`: sets that filter and leaves every other one as it was. */
  function WithApplicationTag(q: QueryParams, tag: AttrApplicationTag): (r: QueryParams)
    ensures FieldValue(r, kSecAttrApplicationTag) == Some(Data(tag.bytes))
    ensures forall key :: key != kSecAttrApplicationTag ==> FieldValue(r, key) == FieldValue(q, key)
  {
    q.(applicationTag := Some(tag))
  }

  /** `permanent`: sets that filter and leaves every other one as it was. */
  function WithPermanent(q: QueryParams, value: bool): (r: QueryParams)
    ensures FieldValue(r, kSecAttrIsPermanent) == Some(Boolean(value))
    ensures forall key :: key != kSecAttrIsPermanent ==> FieldValue(r, key) == FieldValue(q, key)
  {
    q.(permanent := Some(value))
  }

  /** `key_class`: sets that filter and leaves every other one as it was. */
  function WithKeyClass(q: QueryParams, keyClass: AttrKeyClass): (r: QueryParams)
    ensures FieldValue(r, kSecAttrKeyClass) == Some(Constant(KeyClassConst(keyClass)))
    ensures forall key :: key != kSecAttrKeyClass ==> FieldValue(r, key) == FieldValue(q, key)
  {
    q.(keyClass := Some(keyClass))
  }

  /** `key_type`: sets that filter and leaves every other one as it was. */
  function WithKeyType(q: QueryParams, keyType: AttrKeyType): (r: QueryParams)
    ensures FieldValue(r, kSecAttrKeyType) == Some(Constant(KeyTypeConst(keyType)))
    ensures forall key :: key != kSecAttrKeyType ==> FieldValue(r, key) == FieldValue(q, key)
  {
    q.(keyType := Some(keyType))
  }

  /** `label`: sets that filter and leaves every other one as it was. */
  function WithLabel(q: QueryParams, itemLabel: AttrLabel): (r: QueryParams)
    ensures FieldValue(r, kSecAttrLabel) == Some(Text(itemLabel.text))
    ensures forall key :: key != kSecAttrLabel ==> FieldValue(r, key) == FieldValue(q, key)
  {
    q.(labelAttr := Some(itemLabel))
  }

  /** `synchronizable`: sets that filter and leaves every other one as it was. */
  function WithSynchronizable(q: QueryParams, value: bool): (r: QueryParams)
    ensures FieldValue(r, kSecAttrSynchronizable) == Some(Boolean(value))
    ensures forall key :: key != kSecAttrSynchronizable ==> FieldValue(r, key) == FieldValue(q, key)
  {
    q.(synchronizable := Some(value))
  }

  /** `token_id`: sets that filter and leaves every other one as it was. */
  function WithTokenId(q: QueryParams, tokenId: AttrTokenId): (r: QueryParams)
    ensures FieldValue(r, kSecAttrTokenID) == Some(Constant(TokenIdConst(tokenId)))
    ensures forall key :: key != kSecAttrTokenID ==> FieldValue(r, key) == FieldValue(q, key)
  {
    q.(tokenId := Some(tokenId))
  }

  /** `use_operation_prompt`: sets that filter and leaves every other one as it was. */
  function WithUseOperationPrompt(q: QueryParams, prompt: string): (r: QueryParams)
    ensures FieldValue(r, kSecUseOperationPrompt) == Some(Text(prompt))
    ensures forall key :: key != kSecUseOperationPrompt ==> FieldValue(r, key) == FieldValue(q, key)
  {
    q.(useOperationPrompt := Some(prompt))
  }

  /** Setting a filter twice keeps only the second value. */
  lemma SetterLastWins(q: QueryParams, first: bool, second: bool)
    ensures WithPermanent(WithPermanent(q, first), second) == WithPermanent(q, second)
    ensures FieldValue(WithPermanent(WithPermanent(q, first), second), kSecAttrIsPermanent) == Some(Boolean(second))
  {
  }

  /** Number of filters a query can carry. */
  const QueryKeyCount: nat := 12

  /** The `i`-th key a query dictionary is built in, in the order `into_CFDictionary` emits them. */
  function KeyAt(i: nat): SecConst
    requires i < QueryKeyCount
  {
    if i == 0 then kSecAttrApplicationLabel
    else if i == 1 then kSecAttrApplicationTag
    else if i == 2 then kSecClass
    else if i == 3 then kSecAttrIsPermanent
    else if i == 4 then kSecAttrKeyClass
    else if i == 5 then kSecAttrKeyType
    else if i == 6 then kSecAttrLabel
    else if i == 7 then kSecMatchLimit
    else if i == 8 then kSecReturnRef
    else if i == 9 then kSecAttrSynchronizable
    else if i == 10 then kSecAttrTokenID
    else kSecUseOperationPrompt
  }

  /** The position of `key` in the key order, if it is one of the query's keys. */
  function KeyIndex(key: SecConst): (r: Option<nat>)
    ensures r.Some? ==> r.value < QueryKeyCount
  {
    if key.kSecAttrApplicationLabel? then Some(0)
    else if key.kSecAttrApplicationTag? then Some(1)
    else if key.kSecClass? then Some(2)
    else if key.kSecAttrIsPermanent? then Some(3)
    else if key.kSecAttrKeyClass? then Some(4)
    else if key.kSecAttrKeyType? then Some(5)
    else if key.kSecAttrLabel? then Some(6)
    else if key.kSecMatchLimit? then Some(7)
    else if key.kSecReturnRef? then Some(8)
    else if key.kSecAttrSynchronizable? then Some(9)
    else if key.kSecAttrTokenID? then Some(10)
    else if key.kSecUseOperationPrompt? then Some(11)
    else None
  }

  /** Every position of the key order is found again from its key. */
  lemma KeyIndexOfKeyAt(i: nat)
    requires i < QueryKeyCount
    ensures KeyIndex(KeyAt(i)) == Some(i)
  {
  }

  /** A key of the order is the one at its own position. */
  lemma KeyAtOfKeyIndex(key: SecConst)
    requires KeyIndex(key).Some?
    ensures KeyAt(KeyIndex(key).value) == key
  {
  }

  /** Only the query's own keys can hold a filter. */
  lemma FieldKeyIsQueryKey(q: QueryParams, key: SecConst)
    requires FieldValue(q, key).Some?
    ensures KeyIndex(key).Some?
  {
  }

  /** The pair for `key`, when the query sets that filter. */
  function Entry(q: QueryParams, key: SecConst): seq<Pair>
  {
    if FieldValue(q, key).Some? then [(key, FieldValue(q, key).value)] else []
  }

  /** The pair for one key is the only pair `Entry` can hold. */
  lemma EntryMembers(q: QueryParams, entryKey: SecConst, key: SecConst, value: Value)
    ensures (key, value) in Entry(q, entryKey) <==> key == entryKey && FieldValue(q, key) == Some(value)
  {
  }

  /** The pairs of the filters the query sets among the first `n` keys, in key order. */
  function PairsUpTo(q: QueryParams, n: nat): seq<Pair>
    requires n <= QueryKeyCount
  {
    if n == 0 then [] else PairsUpTo(q, n - 1) + Entry(q, KeyAt(n - 1))
  }

  /** Keys 0 to 2 of the order, spelled out as `into_CFDictionary` pushes them. */
  lemma PairsThrough3(q: QueryParams)
    ensures PairsUpTo(q, 3) ==
      []
      + (if q.applicationLabel.Some? then [(kSecAttrApplicationLabel, AsCFType(ApplicationLabelAttr(q.applicationLabel.value)))] else [])
      + (if q.applicationTag.Some? then [(kSecAttrApplicationTag, AsCFType(ApplicationTagAttr(q.applicationTag.value)))] else [])
      + (if q.itemClass.Some? then [(kSecClass, Constant(SecClassConst(q.itemClass.value)))] else [])
  {
    assert Entry(q, KeyAt(0)) == (if q.applicationLabel.Some? then [(kSecAttrApplicationLabel, AsCFType(ApplicationLabelAttr(q.applicationLabel.value)))] else []);
    assert PairsUpTo(q, 1) == PairsUpTo(q, 0) + Entry(q, KeyAt(0));
    assert Entry(q, KeyAt(1)) == (if q.applicationTag.Some? then [(kSecAttrApplicationTag, AsCFType(ApplicationTagAttr(q.applicationTag.value)))] else []);
    assert PairsUpTo(q, 2) == PairsUpTo(q, 1) + Entry(q, KeyAt(1));
    assert Entry(q, KeyAt(2)) == (if q.itemClass.Some? then [(kSecClass, Constant(SecClassConst(q.itemClass.value)))] else []);
    assert PairsUpTo(q, 3) == PairsUpTo(q, 2) + Entry(q, KeyAt(2));
  }

  /** Keys 3 to 5 of the order, spelled out as `into_CFDictionary` pushes them. */
  lemma PairsThrough6(q: QueryParams)
    ensures PairsUpTo(q, 6) ==
      PairsUpTo(q, 3)
      + (if q.permanent.Some? then [(kSecAttrIsPermanent, Boolean(q.permanent.value))] else [])
      + (if q.keyClass.Some? then [(kSecAttrKeyClass, Constant(KeyClassConst(q.keyClass.value)))] else [])
      + (if q.keyType.Some? then [(kSecAttrKeyType, Constant(KeyTypeConst(q.keyType.value)))] else [])
  {
    assert Entry(q, KeyAt(3)) == (if q.permanent.Some? then [(kSecAttrIsPermanent, Boolean(q.permanent.value))] else []);
    assert PairsUpTo(q, 4) == PairsUpTo(q, 3) + Entry(q, KeyAt(3));
    assert Entry(q, KeyAt(4)) == (if q.keyClass.Some? then [(kSecAttrKeyClass, Constant(KeyClassConst(q.keyClass.value)))] else []);
    assert PairsUpTo(q, 5) == PairsUpTo(q, 4) + Entry(q, KeyAt(4));
    assert Entry(q, KeyAt(5)) == (if q.keyType.Some? then [(kSecAttrKeyType, Constant(KeyTypeConst(q.keyType.value)))] else []);
    assert PairsUpTo(q, 6) == PairsUpTo(q, 5) + Entry(q, KeyAt(5));
  }

  /** Keys 6 to 8 of the order, spelled out as `into_CFDictionary` pushes them. */
  lemma PairsThrough9(q: QueryParams)
    ensures PairsUpTo(q, 9) ==
      PairsUpTo(q, 6)
      + (if q.labelAttr.Some? then [(kSecAttrLabel, AsCFType(LabelAttr(q.labelAttr.value)))] else [])
      + (if q.matchLimit.Some? then [(kSecMatchLimit, MatchLimitValue(q.matchLimit.value))] else [])
      + (if q.returnRef.Some? then [(kSecReturnRef, Boolean(q.returnRef.value))] else [])
  {
    assert Entry(q, KeyAt(6)) == (if q.labelAttr.Some? then [(kSecAttrLabel, AsCFType(LabelAttr(q.labelAttr.value)))] else []);
    assert PairsUpTo(q, 7) == PairsUpTo(q, 6) + Entry(q, KeyAt(6));
    assert Entry(q, KeyAt(7)) == (if q.matchLimit.Some? then [(kSecMatchLimit, MatchLimitValue(q.matchLimit.value))] else []);
    assert PairsUpTo(q, 8) == PairsUpTo(q, 7) + Entry(q, KeyAt(7));
    assert Entry(q, KeyAt(8)) == (if q.returnRef.Some? then [(kSecReturnRef, Boolean(q.returnRef.value))] else []);
    assert PairsUpTo(q, 9) == PairsUpTo(q, 8) + Entry(q, KeyAt(8));
  }

  /** Keys 9 to 11 of the order, spelled out as `into_CFDictionary` pushes them. */
  lemma PairsThrough12(q: QueryParams)
    ensures PairsUpTo(q, 12) ==
      PairsUpTo(q, 9)
      + (if q.synchronizable.Some? then [(kSecAttrSynchronizable, Boolean(q.synchronizable.value))] else [])
      + (if q.tokenId.Some? then [(kSecAttrTokenID, Constant(TokenIdConst(q.tokenId.value)))] else [])
      + (if q.useOperationPrompt.Some? then [(kSecUseOperationPrompt, Text(q.useOperationPrompt.value))] else [])
  {
    assert Entry(q, KeyAt(9)) == (if q.synchronizable.Some? then [(kSecAttrSynchronizable, Boolean(q.synchronizable.value))] else []);
    assert PairsUpTo(q, 10) == PairsUpTo(q, 9) + Entry(q, KeyAt(9));
    assert Entry(q, KeyAt(10)) == (if q.tokenId.Some? then [(kSecAttrTokenID, Constant(TokenIdConst(q.tokenId.value)))] else []);
    assert PairsUpTo(q, 11) == PairsUpTo(q, 10) + Entry(q, KeyAt(10));
    assert Entry(q, KeyAt(11)) == (if q.useOperationPrompt.Some? then [(kSecUseOperationPrompt, Text(q.useOperationPrompt.value))] else []);
    assert PairsUpTo(q, 12) == PairsUpTo(q, 11) + Entry(q, KeyAt(11));
  }

  /**
   * `into_CFDictionary`: pushes one pair for every filter that is set, in the
   * fixed key order, and makes the dictionary of them.
   */
  method IntoCFDictionary(q: QueryParams) returns (d: Dictionary)
    ensures d.pairs == PairsUpTo(q, QueryKeyCount)
  {
    var params: seq<Pair> := [];
    params := params + (if q.applicationLabel.Some? then [(kSecAttrApplicationLabel, AsCFType(ApplicationLabelAttr(q.applicationLabel.value)))] else []);
    params := params + (if q.applicationTag.Some? then [(kSecAttrApplicationTag, AsCFType(ApplicationTagAttr(q.applicationTag.value)))] else []);
    params := params + (if q.itemClass.Some? then [(kSecClass, Constant(SecClassConst(q.itemClass.value)))] else []);
    PairsThrough3(q);
    params := params + (if q.permanent.Some? then [(kSecAttrIsPermanent, Boolean(q.permanent.value))] else []);
    params := params + (if q.keyClass.Some? then [(kSecAttrKeyClass, Constant(KeyClassConst(q.keyClass.value)))] else []);
    params := params + (if q.keyType.Some? then [(kSecAttrKeyType, Constant(KeyTypeConst(q.keyType.value)))] else []);
    PairsThrough6(q);
    params := params + (if q.labelAttr.Some? then [(kSecAttrLabel, AsCFType(LabelAttr(q.labelAttr.value)))] else []);
    params := params + (if q.matchLimit.Some? then [(kSecMatchLimit, MatchLimitValue(q.matchLimit.value))] else []);
    params := params + (if q.returnRef.Some? then [(kSecReturnRef, Boolean(q.returnRef.value))] else []);
    PairsThrough9(q);
    params := params + (if q.synchronizable.Some? then [(kSecAttrSynchronizable, Boolean(q.synchronizable.value))] else []);
    params := params + (if q.tokenId.Some? then [(kSecAttrTokenID, Constant(TokenIdConst(q.tokenId.value)))] else []);
    params := params + (if q.useOperationPrompt.Some? then [(kSecUseOperationPrompt, Text(q.useOperationPrompt.value))] else []);
    PairsThrough12(q);
    d := Dictionary(params);
  }

  /** The rank of a key in the order, past the end for keys a query does not carry. */
  function KeyRank(key: SecConst): (r: nat)
    ensures r <= QueryKeyCount
    ensures r < QueryKeyCount <==> KeyIndex(key).Some?
  {
    match KeyIndex(key)
    case Some(i) => i
    case None => QueryKeyCount
  }

  /** The keys of `pairs` come in strictly increasing key order, all before position `n`. */
  predicate InKeyOrder(pairs: seq<Pair>, n: nat)
  {
    && (forall i :: 0 <= i < |pairs| ==> KeyRank(pairs[i].0) < n)
    && (forall i, j :: 0 <= i < j < |pairs| ==> KeyRank(pairs[i].0) < KeyRank(pairs[j].0))
  }

  /** A key is among the first `n` keys exactly when it is among the first `n - 1` or is the `n`-th. */
  lemma RankStep(key: SecConst, n: nat)
    requires 0 < n <= QueryKeyCount
    ensures KeyRank(key) < n <==> KeyRank(key) < n - 1 || key == KeyAt(n - 1)
  {
    KeyIndexOfKeyAt(n - 1);
    assert KeyRank(KeyAt(n - 1)) == n - 1;
    if KeyIndex(key).Some? {
      KeyAtOfKeyIndex(key);
      assert KeyRank(key) == KeyIndex(key).value;
    }
  }

  /** A pair is among the first `n` keys' pairs exactly when its key is one of them and the query sets it to that value. */
  lemma {:induction false} PairsUpToMembers(q: QueryParams, n: nat, key: SecConst, value: Value)
    requires n <= QueryKeyCount
    ensures (key, value) in PairsUpTo(q, n) <==> KeyRank(key) < n && FieldValue(q, key) == Some(value)
  {
    if n > 0 {
      PairsUpToMembers(q, n - 1, key, value);
      RankStep(key, n);
      EntryMembers(q, KeyAt(n - 1), key, value);
      assert PairsUpTo(q, n) == PairsUpTo(q, n - 1) + Entry(q, KeyAt(n - 1));
    }
  }

  /** The first `n` keys' pairs are emitted in key order. */
  lemma {:induction false} PairsUpToInKeyOrder(q: QueryParams, n: nat)
    requires n <= QueryKeyCount
    ensures InKeyOrder(PairsUpTo(q, n), n)
  {
    if n > 0 {
      PairsUpToInKeyOrder(q, n - 1);
      KeyIndexOfKeyAt(n - 1);
      var prefix := PairsUpTo(q, n - 1);
      var entry := Entry(q, KeyAt(n - 1));
      assert PairsUpTo(q, n) == prefix + entry;
      forall i | 0 <= i < |entry|
        ensures entry[i].0 == KeyAt(n - 1)
      {
      }
    }
  }

  /**
   * `into_CFDictionary` of a query: a pair `(key, value)` is in it exactly
   * when the query sets the filter `key` to `value`.
   */
  lemma QueryPairsMembers(q: QueryParams, key: SecConst, value: Value)
    ensures (key, value) in PairsUpTo(q, QueryKeyCount) <==> FieldValue(q, key) == Some(value)
  {
    PairsUpToMembers(q, QueryKeyCount, key, value);
    if FieldValue(q, key).Some? {
      FieldKeyIsQueryKey(q, key);
    }
  }

  /** `into_CFDictionary` never emits a key twice, and emits keys in the fixed order. */
  lemma QueryPairsDistinctKeys(q: QueryParams)
    ensures InKeyOrder(PairsUpTo(q, QueryKeyCount), QueryKeyCount)
    ensures forall i, j :: 0 <= i < j < |PairsUpTo(q, QueryKeyCount)| ==>
      PairsUpTo(q, QueryKeyCount)[i].0 != PairsUpTo(q, QueryKeyCount)[j].0
  {
    PairsUpToInKeyOrder(q, QueryKeyCount);
  }

  /** Whether the query sets the filter at position `i` of the key order, read off its field. */
  function FilterIsSet(q: QueryParams, i: nat): bool
    requires i < QueryKeyCount
  {
    if i == 0 then q.applicationLabel.Some?
    else if i == 1 then q.applicationTag.Some?
    else if i == 2 then q.itemClass.Some?
    else if i == 3 then q.permanent.Some?
    else if i == 4 then q.keyClass.Some?
    else if i == 5 then q.keyType.Some?
    else if i == 6 then q.labelAttr.Some?
    else if i == 7 then q.matchLimit.Some?
    else if i == 8 then q.returnRef.Some?
    else if i == 9 then q.synchronizable.Some?
    else if i == 10 then q.tokenId.Some?
    else q.useOperationPrompt.Some?
  }

  /** How many of the first `n` filters the query sets. */
  function SetFilterCount(q: QueryParams, n: nat): nat
    requires n <= QueryKeyCount
  {
    if n == 0 then 0 else SetFilterCount(q, n - 1) + (if FilterIsSet(q, n - 1) then 1 else 0)
  }

  /** The key at position `i` holds a value exactly when its field is set. */
  lemma FieldValueAtKey(q: QueryParams, i: nat)
    requires i < QueryKeyCount
    ensures FieldValue(q, KeyAt(i)).Some? == FilterIsSet(q, i)
  {
  }

  /** The first `n` keys give one pair per filter set among them. */
  lemma {:induction false} PairsUpToLength(q: QueryParams, n: nat)
    requires n <= QueryKeyCount
    ensures |PairsUpTo(q, n)| == SetFilterCount(q, n)
  {
    if n > 0 {
      PairsUpToLength(q, n - 1);
      FieldValueAtKey(q, n - 1);
    }
  }

  /** A query with no filter set gives no pairs. */
  lemma EmptyQueryNoPairs()
    ensures PairsUpTo(NewQuery(), QueryKeyCount) == []
  {
    PairsUpToLength(NewQuery(), QueryKeyCount);
  }
}
