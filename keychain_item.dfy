/**
 * Items stored in a keychain (src/keychain/item/mod.rs): reading an item's
 * class, its raw data and one of its string attributes through
 * `SecKeychainItemCopyContent`.
 */
module KeychainItems {
  import opened Wrappers
  import opened Ffi
  import opened Errors
  import opened Utf8
  import opened Attrs
  import opened ItemClass

  /**
   * `FourCharacterCode::from(b"NULL")`: the tag `class` starts from, the
   * four characters read as a big-endian 32-bit number.
   */
  const NullTag: FourCharCode := 0x4E55_4C4C

  /** The panic message of a framework call whose failure the intended reading does not tolerate. */
  const FailedCall: string := "called `Result::unwrap()` on an `Err` value"

  /**
   * `Item::class` as written: `SecKeychainItemCopyContent` writes the class
   * tag into a local that starts as "NULL", and
   * `maybe_from_OSStatus(..).unwrap()` then panics when the call SUCCEEDS,
   * since a success gives `None`. After a failing call the error is dropped
   * and the tag the local holds is converted, panicking when it is not a
   * known class. `copyClass` gives the status and the tag the local holds
   * after the call; `tagOf` is `FourCharacterCode::from` on a class constant.
   */
  method ClassOfAsWritten(item: Ptr, copyClass: Ptr -> StatusReply<FourCharCode>, tagOf: SecConst -> FourCharCode)
    returns (r: Outcome<Class>)
    ensures !r.Err?
    ensures copyClass(item).status == errSecSuccess ==> r.Panic?
    ensures copyClass(item).status != errSecSuccess ==> r == ClassOfTag(copyClass(item).out, tagOf)
  {
    var result := NullTag;
    var reply := copyClass(item);
    result := reply.out;
    var unwrapped := UnwrapMaybeFromOSStatus(reply.status, reply.message);
    if unwrapped.Panic? {
      r := Panic(unwrapped.message);
      return;
    }
    r := ClassOfTag(result, tagOf);
  }

  /**
   * `Item::class` as intended: a failing status panics, and after a
   * successful call the tag is converted, panicking when it is not a known
   * class.
   */
  method ClassOf(item: Ptr, copyClass: Ptr -> StatusReply<FourCharCode>, tagOf: SecConst -> FourCharCode)
    returns (r: Outcome<Class>)
    ensures !r.Err?
    ensures copyClass(item).status != errSecSuccess ==> r.Panic?
    ensures copyClass(item).status == errSecSuccess ==> r == ClassOfTag(copyClass(item).out, tagOf)
  {
    var result := NullTag;
    var reply := copyClass(item);
    result := reply.out;
    if MaybeFromOSStatus(reply.status, reply.message).Some? {
      r := Panic(FailedCall);
      return;
    }
    r := ClassOfTag(result, tagOf);
  }

  /**
   * After a failing call that left the local at "NULL", the code as written
   * panics on the tag whenever no class has "NULL" as its tag; so as written
   * `class` returns a class only when a failing call still writes a known tag.
   */
  lemma ClassOfAsWrittenNullTag(tagOf: SecConst -> FourCharCode)
    requires forall c: Class :: tagOf(ClassConst(c)) != NullTag
    ensures ClassOfTag(NullTag, tagOf).Panic?
  {
  }

  /**
   * What `SecKeychainItemCopyContent` hands back for an item's data: the
   * length written through `&mut length` and the buffer written through
   * the data out-pointer (`None` for the null pointer; otherwise the bytes
   * the buffer holds).
   */
  datatype Content = Content(length: uint32, buffer: Option<seq<byte>>)

  /** The framework's promise: a buffer it returns holds at least `length` bytes. */
  predicate InBounds(length: uint32, buffer: Option<seq<byte>>)
  {
    buffer.Some? ==> length <= |buffer.value|
  }

  const RefusedData: Error := Error(MissingEntitlement, "SecKeychainItemCopyContent refused to return data")

  /**
   * The branches of `Item::data` after the call as written, given the
   * status, the length and the buffer pointer the code inspects, and the
   * status of `SecKeychainItemFreeContent`, whose
   * `maybe_from_OSStatus(..).unwrap()` panics when the free SUCCEEDS and
   * drops the error when it fails.
   */
  function DataOfLocalsAsWritten(status: OSStatus, message: string, length: uint32, resultPtr: Option<seq<byte>>, freeStatus: OSStatus): (r: Outcome<seq<byte>>)
    requires InBounds(length, resultPtr)
    ensures status != errSecSuccess ==> r == Err(Error(KindOfStatus(status), message))
    ensures status == errSecSuccess && resultPtr.None? ==> r == Err(RefusedData)
    ensures r.Ok? <==> status == errSecSuccess && resultPtr.Some? && freeStatus != errSecSuccess
    ensures r.Panic? <==> status == errSecSuccess && resultPtr.Some? && freeStatus == errSecSuccess
    ensures r.Ok? ==> |r.value| == length && r.value == resultPtr.value[..length]
  {
    match MaybeFromOSStatus(status, message)
    case Some(e) => Err(e)
    case None =>
      if resultPtr.None? then Err(RefusedData)
      else
        var result := resultPtr.value[..length];
        match UnwrapMaybeFromOSStatus(freeStatus, "")
        case Panic(m) => Panic(m)
        case Ok(_) => Ok(result)
  }

  /**
   * The same branches as intended: a failing free panics and a successful
   * one lets the copied bytes through.
   */
  function DataOfLocals(status: OSStatus, message: string, length: uint32, resultPtr: Option<seq<byte>>, freeStatus: OSStatus): (r: Outcome<seq<byte>>)
    requires InBounds(length, resultPtr)
    ensures status != errSecSuccess ==> r == Err(Error(KindOfStatus(status), message))
    ensures status == errSecSuccess && resultPtr.None? ==> r == Err(RefusedData)
    ensures r.Ok? <==> status == errSecSuccess && resultPtr.Some? && freeStatus == errSecSuccess
    ensures r.Panic? <==> status == errSecSuccess && resultPtr.Some? && freeStatus != errSecSuccess
    ensures r.Ok? ==> |r.value| == length && r.value == resultPtr.value[..length]
  {
    match MaybeFromOSStatus(status, message)
    case Some(e) => Err(e)
    case None =>
      if resultPtr.None? then Err(RefusedData)
      else
        var result := resultPtr.value[..length];
        if MaybeFromOSStatus(freeStatus, "").Some? then Panic(FailedCall)
        else Ok(result)
  }

  /**
   * `Item::data` as written: `result_ptr` is not `mut`, so
   * `&mut (result_ptr as *mut c_void)` hands the framework a pointer to a
   * temporary copy. The buffer pointer is written there and dropped; the
   * local the code then tests is still null, and the free is never reached.
   */
  method DataAsWritten(item: Ptr, copyContent: Ptr -> StatusReply<Content>, freeStatus: OSStatus)
    returns (r: Outcome<seq<byte>>)
    ensures !r.Ok? && !r.Panic?
    ensures copyContent(item).status != errSecSuccess ==>
      r == Err(Error(KindOfStatus(copyContent(item).status), copyContent(item).message))
    ensures copyContent(item).status == errSecSuccess ==> r == Err(RefusedData)
  {
    var resultPtr: Option<seq<byte>> := None;
    var length: uint32 := 0;
    var reply := copyContent(item);
    length := reply.out.length;
    var temporary := resultPtr;
    temporary := reply.out.buffer;
    r := DataOfLocalsAsWritten(reply.status, reply.message, length, resultPtr, freeStatus);
  }

  /**
   * `Item::data` as intended: the buffer pointer lands in `result_ptr`; a
   * failing status is an error, a null buffer is `MissingEntitlement`, and
   * otherwise exactly `length` bytes are copied out of the buffer, which is
   * then freed, a failing free panicking.
   */
  method Data(item: Ptr, copyContent: Ptr -> StatusReply<Content>, freeStatus: OSStatus)
    returns (r: Outcome<seq<byte>>)
    requires InBounds(copyContent(item).out.length, copyContent(item).out.buffer)
    ensures copyContent(item).status != errSecSuccess ==>
      r == Err(Error(KindOfStatus(copyContent(item).status), copyContent(item).message))
    ensures copyContent(item).status == errSecSuccess && copyContent(item).out.buffer.None? ==> r == Err(RefusedData)
    ensures r.Ok? <==> copyContent(item).status == errSecSuccess && copyContent(item).out.buffer.Some? && freeStatus == errSecSuccess
    ensures r.Ok? ==> r.value == copyContent(item).out.buffer.value[..copyContent(item).out.length]
  {
    var resultPtr: Option<seq<byte>> := None;
    var length: uint32 := 0;
    var reply := copyContent(item);
    length := reply.out.length;
    resultPtr := reply.out.buffer;
    r := DataOfLocals(reply.status, reply.message, length, resultPtr, freeStatus);
  }

  /**
   * The two readings part on every successful call that returns a buffer:
   * as written the pointer is lost and the bytes are never returned,
   * whatever the free would report; as intended they are.
   */
  lemma DataAsWrittenLosesBuffer(length: uint32, bytes: seq<byte>, freeStatus: OSStatus)
    requires length <= |bytes|
    ensures DataOfLocalsAsWritten(errSecSuccess, "", length, None, freeStatus) == Err(RefusedData)
    ensures DataOfLocals(errSecSuccess, "", length, Some(bytes), errSecSuccess) == Ok(bytes[..length])
  {
  }

  /**
   * Even with the pointer kept, the free check as written is reversed: a
   * successful free panics and a failing one lets the bytes through, the
   * opposite of the intended reading.
   */
  lemma DataFreeCheckReversed(length: uint32, bytes: seq<byte>, freeStatus: OSStatus)
    requires length <= |bytes|
    ensures DataOfLocalsAsWritten(errSecSuccess, "", length, Some(bytes), freeStatus).Panic? <==> freeStatus == errSecSuccess
    ensures DataOfLocals(errSecSuccess, "", length, Some(bytes), freeStatus).Panic? <==> freeStatus != errSecSuccess
    ensures freeStatus == errSecSuccess ==> DataOfLocals(errSecSuccess, "", length, Some(bytes), freeStatus) == Ok(bytes[..length])
    ensures freeStatus != errSecSuccess ==> DataOfLocalsAsWritten(errSecSuccess, "", length, Some(bytes), freeStatus) == Ok(bytes[..length])
  {
  }

  /** One entry of a `SecKeychainAttributeList`: its tag and its data (`None` for a null data pointer). */
  datatype ItemAttribute = ItemAttribute(tag: FourCharCode, data: Option<seq<byte>>)

  /**
   * The `iter().find` of `Item::attribute`: the position of the first
   * attribute whose tag decodes (by `kindOfTag`, `AttrKind::from_tag`) to
   * `kind`; attributes whose tag decodes to nothing do not match.
   */
  function FindAttr(attrs: seq<ItemAttribute>, kind: AttrKind, kindOfTag: FourCharCode -> Option<AttrKind>): (i: Option<nat>)
    ensures i.Some? ==> i.value < |attrs| && kindOfTag(attrs[i.value].tag) == Some(kind)
    ensures i.Some? ==> forall j :: 0 <= j < i.value ==> kindOfTag(attrs[j].tag) != Some(kind)
    ensures i.None? <==> forall j :: 0 <= j < |attrs| ==> kindOfTag(attrs[j].tag) != Some(kind)
  {
    if attrs == [] then None
    else if kindOfTag(attrs[0].tag) == Some(kind) then Some(0)
    else
      match FindAttr(attrs[1..], kind, kindOfTag)
      case None => None
      case Some(j) => Some(j + 1)
  }

  /** An attribute whose tag decodes to no kind is stepped over. */
  lemma {:induction false} FindAttrSkipsUnknownTag(a: ItemAttribute, rest: seq<ItemAttribute>, kind: AttrKind, kindOfTag: FourCharCode -> Option<AttrKind>)
    requires kindOfTag(a.tag).None?
    ensures FindAttr([a] + rest, kind, kindOfTag) ==
      (match FindAttr(rest, kind, kindOfTag) case None => None case Some(j) => Some(j + 1))
  {
    assert ([a] + rest)[1..] == rest;
  }

  /** Attributes after the first match do not change the result. */
  lemma {:induction false} FindAttrIgnoresLater(attrs: seq<ItemAttribute>, more: seq<ItemAttribute>, kind: AttrKind, kindOfTag: FourCharCode -> Option<AttrKind>)
    requires FindAttr(attrs, kind, kindOfTag).Some?
    ensures FindAttr(attrs + more, kind, kindOfTag) == FindAttr(attrs, kind, kindOfTag)
  {
    assert forall j :: 0 <= j < |attrs| ==> (attrs + more)[j] == attrs[j];
  }

  /**
   * The closure of `map`: the attribute's data (`unwrap`, which panics on a
   * null pointer) as a `String` (`from_utf8(..).unwrap()`, which panics on
   * invalid UTF-8).
   */
  function AttrText(a: ItemAttribute): (r: Outcome<string>)
    ensures !r.Err?
    ensures r.Ok? <==> a.data.Some? && IsValid(a.data.value)
    ensures r.Ok? ==> Encode(r.value) == a.data.value
  {
    match a.data
    case None => Panic("called `Option::unwrap()` on a `None` value")
    case Some(bytes) =>
      match FromUtf8(bytes)
      case Utf8Error => Panic("called `Result::unwrap()` on an `Err` value: FromUtf8Error")
      case Str(text) => Ok(text)
  }

  const MissingAttribute: string := "missing attribute"

  /**
   * `Item::attribute` as written: reads the attribute list (a failing status
   * is returned as the error), takes the first attribute of kind `kind` as a
   * string, frees the list and reports `NoSuchAttr` when no attribute
   * matched. The free's `maybe_from_OSStatus(..).unwrap()` panics when the
   * free SUCCEEDS and drops the error when it fails.
   */
  function AttributeAsWritten(kind: AttrKind, copyAttributes: StatusReply<seq<ItemAttribute>>,
                              kindOfTag: FourCharCode -> Option<AttrKind>, freeStatus: OSStatus): (r: Outcome<string>)
    ensures copyAttributes.status != errSecSuccess ==>
      r == Err(Error(KindOfStatus(copyAttributes.status), copyAttributes.message))
    ensures copyAttributes.status == errSecSuccess && FindAttr(copyAttributes.out, kind, kindOfTag).None? ==>
      (if freeStatus != errSecSuccess then r.Err? && r.error.kind == NoSuchAttr else r.Panic?)
    ensures copyAttributes.status == errSecSuccess && FindAttr(copyAttributes.out, kind, kindOfTag).Some? ==>
      var a := copyAttributes.out[FindAttr(copyAttributes.out, kind, kindOfTag).value];
      (r.Ok? <==> a.data.Some? && IsValid(a.data.value) && freeStatus != errSecSuccess) &&
      (r.Ok? ==> Encode(r.value) == a.data.value) && !r.Err?
  {
    match OfStatusReply(copyAttributes)
    case Err(e) => Err(e)
    case Panic(m) => Panic(m)
    case Ok(attrs) =>
      var free := UnwrapMaybeFromOSStatus(freeStatus, "");
      match FindAttr(attrs, kind, kindOfTag)
      case None =>
        if free.Panic? then Panic(free.message)
        else Err(Error(NoSuchAttr, MissingAttribute))
      case Some(i) =>
        match AttrText(attrs[i])
        case Ok(s) => if free.Panic? then Panic(free.message) else Ok(s)
        case Err(e) => Err(e)
        case Panic(m) => Panic(m)
  }

  /**
   * `Item::attribute` as intended: the same reading, with a failing free
   * panicking and a successful one letting the result through.
   */
  function Attribute(kind: AttrKind, copyAttributes: StatusReply<seq<ItemAttribute>>,
                     kindOfTag: FourCharCode -> Option<AttrKind>, freeStatus: OSStatus): (r: Outcome<string>)
    ensures copyAttributes.status != errSecSuccess ==>
      r == Err(Error(KindOfStatus(copyAttributes.status), copyAttributes.message))
    ensures copyAttributes.status == errSecSuccess && FindAttr(copyAttributes.out, kind, kindOfTag).None? ==>
      (if freeStatus == errSecSuccess then r.Err? && r.error.kind == NoSuchAttr else r.Panic?)
    ensures copyAttributes.status == errSecSuccess && FindAttr(copyAttributes.out, kind, kindOfTag).Some? ==>
      var a := copyAttributes.out[FindAttr(copyAttributes.out, kind, kindOfTag).value];
      (r.Ok? <==> a.data.Some? && IsValid(a.data.value) && freeStatus == errSecSuccess) &&
      (r.Ok? ==> Encode(r.value) == a.data.value) && !r.Err?
  {
    match OfStatusReply(copyAttributes)
    case Err(e) => Err(e)
    case Panic(m) => Panic(m)
    case Ok(attrs) =>
      var freed := MaybeFromOSStatus(freeStatus, "").None?;
      match FindAttr(attrs, kind, kindOfTag)
      case None =>
        if !freed then Panic(FailedCall)
        else Err(Error(NoSuchAttr, MissingAttribute))
      case Some(i) =>
        match AttrText(attrs[i])
        case Ok(s) => if !freed then Panic(FailedCall) else Ok(s)
        case Err(e) => Err(e)
        case Panic(m) => Panic(m)
  }

  /** The first attribute of the wanted kind is found at its own position. */
  lemma {:induction false} FindAttrAfter(kind: AttrKind, a: ItemAttribute, before: seq<ItemAttribute>, after: seq<ItemAttribute>,
                                         kindOfTag: FourCharCode -> Option<AttrKind>)
    requires kindOfTag(a.tag) == Some(kind)
    requires forall j :: 0 <= j < |before| ==> kindOfTag(before[j].tag) != Some(kind)
    ensures FindAttr(before + [a] + after, kind, kindOfTag) == Some(|before|)
  {
    var attrs := before + [a] + after;
    assert forall j :: 0 <= j < |before| ==> attrs[j] == before[j];
    assert attrs[|before|] == a;
  }

  /**
   * As intended, an attribute list with a matching attribute whose data is
   * valid UTF-8 yields that text once the list is freed: `attribute` reads
   * back what was stored as a string.
   */
  lemma AttributeReadsFirstMatch(kind: AttrKind, text: string, before: seq<ItemAttribute>, after: seq<ItemAttribute>,
                                 tag: FourCharCode, kindOfTag: FourCharCode -> Option<AttrKind>)
    requires kindOfTag(tag) == Some(kind)
    requires forall j :: 0 <= j < |before| ==> kindOfTag(before[j].tag) != Some(kind)
    ensures Attribute(kind, StatusReply(errSecSuccess, "", before + [ItemAttribute(tag, Some(Encode(text)))] + after),
                      kindOfTag, errSecSuccess) == Ok(text)
  {
    FindAttrAfter(kind, ItemAttribute(tag, Some(Encode(text))), before, after, kindOfTag);
    EncodeThenDecode(text);
  }

  /**
   * As written, the same list panics when the free succeeds, and yields the
   * text only when the free fails.
   */
  lemma AttributeAsWrittenReadsOnlyOnFailedFree(kind: AttrKind, text: string, before: seq<ItemAttribute>, after: seq<ItemAttribute>,
                                                tag: FourCharCode, kindOfTag: FourCharCode -> Option<AttrKind>, freeStatus: OSStatus)
    requires kindOfTag(tag) == Some(kind)
    requires forall j :: 0 <= j < |before| ==> kindOfTag(before[j].tag) != Some(kind)
    ensures freeStatus == errSecSuccess ==>
      AttributeAsWritten(kind, StatusReply(errSecSuccess, "", before + [ItemAttribute(tag, Some(Encode(text)))] + after),
                         kindOfTag, freeStatus).Panic?
    ensures freeStatus != errSecSuccess ==>
      AttributeAsWritten(kind, StatusReply(errSecSuccess, "", before + [ItemAttribute(tag, Some(Encode(text)))] + after),
                         kindOfTag, freeStatus) == Ok(text)
  {
    FindAttrAfter(kind, ItemAttribute(tag, Some(Encode(text))), before, after, kindOfTag);
    EncodeThenDecode(text);
  }
}
