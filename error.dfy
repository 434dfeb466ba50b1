/**
 * Errors of the binding (src/error.rs): the closed table from `OSStatus`
 * codes to named error kinds, the fall-back kinds for unknown codes and for
 * structured `CFError`s, and how an error is rendered.
 */
module Errors {
  import opened Wrappers
  import opened Ffi

  type OSStatus = int32

  // The status codes the binding names (src/error.rs:18-142).
  const errSecSuccess: OSStatus := 0
  const errSecAuthFailed: OSStatus := -25293
  const errSecBufferTooSmall: OSStatus := -25301
  const errSecCreateChainFailed: OSStatus := -25318
  const errSecDataTooLarge: OSStatus := -25302
  const errSecDataNotAvailable: OSStatus := -25316
  const errSecDataNotModifiable: OSStatus := -25317
  const errSecDuplicateCallback: OSStatus := -25297
  const errSecDuplicateItem: OSStatus := -25299
  const errSecDuplicateKeychain: OSStatus := -25296
  const errSecInDarkWake: OSStatus := -25320
  const errSecInteractionNotAllowed: OSStatus := -25308
  const errSecInteractionRequired: OSStatus := -25315
  const errSecInvalidCallback: OSStatus := -25298
  const errSecInvalidItemRef: OSStatus := -25304
  const errSecInvalidKeychain: OSStatus := -25295
  const errSecInvalidPrefsDomain: OSStatus := -25319
  const errSecInvalidSearchRef: OSStatus := -25305
  const errSecItemNotFound: OSStatus := -25300
  const errSecKeySizeNotAllowed: OSStatus := -25311
  const errSecMissingEntitlement: OSStatus := -34018
  const errSecNoCertificateModule: OSStatus := -25313
  const errSecNoDefaultKeychain: OSStatus := -25307
  const errSecNoPolicyModule: OSStatus := -25314
  const errSecNoStorageModule: OSStatus := -25312
  const errSecNoSuchAttr: OSStatus := -25303
  const errSecNoSuchClass: OSStatus := -25306
  const errSecNoSuchKeychain: OSStatus := -25294
  const errSecNotAvailable: OSStatus := -25291
  const errSecReadOnly: OSStatus := -25292
  const errSecReadOnlyAttr: OSStatus := -25309
  const errSecWrongSecVersion: OSStatus := -25310

  /** The codes the table names: -25320 through -25291, and -34018. */
  predicate IsKnownStatus(status: int)
  {
    -25320 <= status <= -25291 || status == -34018
  }

  datatype ErrorKind =
    | AuthFailed
    | BufferTooSmall
    | CreateChainFailed
    | DataTooLarge
    | DataNotAvailable
    | DataNotModifiable
    | DuplicateCallback
    | DuplicateItem
    | DuplicateKeychain
    | InDarkWake
    | InteractionNotAllowed
    | InteractionRequired
    | InvalidCallback
    | InvalidItemRef
    | InvalidKeychain
    | InvalidPrefsDomain
    | InvalidSearchRef
    | ItemNotFound
    | KeySizeNotAllowed
    | MissingEntitlement
    | NoCertificateModule
    | NoDefaultKeychain
    | NoPolicyModule
    | NoStorageModule
    | NoSuchAttr
    | NoSuchClass
    | NoSuchKeychain
    | NotAvailable
    | ReadOnly
    | ReadOnlyAttr
    | WrongSecVersion
    | CFError(code: int64, domain: string)
    | OSError(code: int64)
  {
    /** One of the 31 kinds that wrap a status code of their own. */
    predicate IsNamed()
    {
      !CFError? && !OSError?
    }
  }

  /**
   * An error: its kind and the description the framework gave for it. The
   * backtrace the source captures is not modelled.
   */
  datatype Error = Error(kind: ErrorKind, description: string)

  /**
   * What a fallible operation of the binding ends in: `Ok` and `Err` are the
   * Rust `Result`, `Panic` stands for an `unwrap`, `expect` or `assert!`
   * that fails.
   */
  datatype Outcome<T> = Ok(value: T) | Err(error: Error) | Panic(message: string)

  /**
   * `ErrorKind::from(OSStatus)`: the named kind of a known status code, and
   * `OSError` carrying the status widened to 64 bits for any other code,
   * 0 included.
   */
  function KindOfStatus(status: OSStatus): (kind: ErrorKind)
    ensures kind.IsNamed() <==> IsKnownStatus(status)
    ensures !kind.IsNamed() ==> kind == OSError(status)
  {
    if status == errSecAuthFailed then AuthFailed
    else if status == errSecBufferTooSmall then BufferTooSmall
    else if status == errSecCreateChainFailed then CreateChainFailed
    else if status == errSecDataTooLarge then DataTooLarge
    else if status == errSecDataNotAvailable then DataNotAvailable
    else if status == errSecDataNotModifiable then DataNotModifiable
    else if status == errSecDuplicateCallback then DuplicateCallback
    else if status == errSecDuplicateItem then DuplicateItem
    else if status == errSecDuplicateKeychain then DuplicateKeychain
    else if status == errSecInDarkWake then InDarkWake
    else if status == errSecInteractionNotAllowed then InteractionNotAllowed
    else if status == errSecInteractionRequired then InteractionRequired
    else if status == errSecInvalidCallback then InvalidCallback
    else if status == errSecInvalidItemRef then InvalidItemRef
    else if status == errSecInvalidKeychain then InvalidKeychain
    else if status == errSecInvalidPrefsDomain then InvalidPrefsDomain
    else if status == errSecInvalidSearchRef then InvalidSearchRef
    else if status == errSecItemNotFound then ItemNotFound
    else if status == errSecKeySizeNotAllowed then KeySizeNotAllowed
    else if status == errSecMissingEntitlement then MissingEntitlement
    else if status == errSecNoCertificateModule then NoCertificateModule
    else if status == errSecNoDefaultKeychain then NoDefaultKeychain
    else if status == errSecNoPolicyModule then NoPolicyModule
    else if status == errSecNoStorageModule then NoStorageModule
    else if status == errSecNoSuchAttr then NoSuchAttr
    else if status == errSecNoSuchClass then NoSuchClass
    else if status == errSecNoSuchKeychain then NoSuchKeychain
    else if status == errSecNotAvailable then NotAvailable
    else if status == errSecReadOnly then ReadOnly
    else if status == errSecReadOnlyAttr then ReadOnlyAttr
    else if status == errSecWrongSecVersion then WrongSecVersion
    else OSError(status)
  }


  /** The status code a named kind stands for: the table of `ErrorKind::from(OSStatus)` read backwards. */
  function StatusOfKind(kind: ErrorKind): (status: Option<OSStatus>)
    ensures status.Some? <==> kind.IsNamed()
  {
    match kind
    case AuthFailed => Some(errSecAuthFailed)
    case BufferTooSmall => Some(errSecBufferTooSmall)
    case CreateChainFailed => Some(errSecCreateChainFailed)
    case DataTooLarge => Some(errSecDataTooLarge)
    case DataNotAvailable => Some(errSecDataNotAvailable)
    case DataNotModifiable => Some(errSecDataNotModifiable)
    case DuplicateCallback => Some(errSecDuplicateCallback)
    case DuplicateItem => Some(errSecDuplicateItem)
    case DuplicateKeychain => Some(errSecDuplicateKeychain)
    case InDarkWake => Some(errSecInDarkWake)
    case InteractionNotAllowed => Some(errSecInteractionNotAllowed)
    case InteractionRequired => Some(errSecInteractionRequired)
    case InvalidCallback => Some(errSecInvalidCallback)
    case InvalidItemRef => Some(errSecInvalidItemRef)
    case InvalidKeychain => Some(errSecInvalidKeychain)
    case InvalidPrefsDomain => Some(errSecInvalidPrefsDomain)
    case InvalidSearchRef => Some(errSecInvalidSearchRef)
    case ItemNotFound => Some(errSecItemNotFound)
    case KeySizeNotAllowed => Some(errSecKeySizeNotAllowed)
    case MissingEntitlement => Some(errSecMissingEntitlement)
    case NoCertificateModule => Some(errSecNoCertificateModule)
    case NoDefaultKeychain => Some(errSecNoDefaultKeychain)
    case NoPolicyModule => Some(errSecNoPolicyModule)
    case NoStorageModule => Some(errSecNoStorageModule)
    case NoSuchAttr => Some(errSecNoSuchAttr)
    case NoSuchClass => Some(errSecNoSuchClass)
    case NoSuchKeychain => Some(errSecNoSuchKeychain)
    case NotAvailable => Some(errSecNotAvailable)
    case ReadOnly => Some(errSecReadOnly)
    case ReadOnlyAttr => Some(errSecReadOnlyAttr)
    case WrongSecVersion => Some(errSecWrongSecVersion)
    case CFError(_, _) => None
    case OSError(_) => None
  }


  /** Every named kind is the image of exactly the status it stands for. */
  lemma NamedKindRoundTrip(kind: ErrorKind)
    requires kind.IsNamed()
    ensures KindOfStatus(StatusOfKind(kind).value) == kind
  {
  }

  /** Every known status is the status of the kind it maps to. */
  lemma KnownStatusRoundTrip(status: OSStatus)
    requires IsKnownStatus(status)
    ensures StatusOfKind(KindOfStatus(status)) == Some(status)
  {
  }

  /** `ErrorKind::from(OSStatus)` loses nothing: distinct statuses give distinct kinds. */
  lemma KindOfStatusInjective(s1: OSStatus, s2: OSStatus)
    requires KindOfStatus(s1) == KindOfStatus(s2)
    ensures s1 == s2
  {
    if IsKnownStatus(s1) {
      KnownStatusRoundTrip(s1);
      KnownStatusRoundTrip(s2);
    }
  }

  /** Success is not special to the table: 0 maps to an unknown OS error. */
  lemma SuccessIsUnknownKind()
    ensures KindOfStatus(errSecSuccess) == OSError(0)
  {
  }

  /** `Error::maybe_from_OSStatus`: no error for success, otherwise the kind of the status with the framework's message. */
  function MaybeFromOSStatus(status: OSStatus, message: string): (r: Option<Error>)
    ensures r.None? <==> status == errSecSuccess
    ensures r.Some? ==> r.value.kind == KindOfStatus(status) && r.value.description == message
  {
    if status == errSecSuccess then None
    else Some(Error(KindOfStatus(status), message))
  }

  /**
   * `Error::maybe_from_OSStatus(status).unwrap()`: `Option::unwrap` panics
   * on the `None` that a success gives, and otherwise yields the error.
   */
  function UnwrapMaybeFromOSStatus(status: OSStatus, message: string): (r: Outcome<Error>)
    ensures !r.Err?
    ensures r.Panic? <==> status == errSecSuccess
    ensures r.Ok? ==> r.value == Error(KindOfStatus(status), message)
  {
    match MaybeFromOSStatus(status, message)
    case None => Panic("called `Option::unwrap()` on a `None` value")
    case Some(e) => Ok(e)
  }

  /**
   * How the binding reads a framework call that returns an `OSStatus` and an
   * output: `maybe_from_OSStatus` decides, and the output is taken only on
   * success.
   */
  function OfStatusReply<T>(reply: StatusReply<T>): (r: Outcome<T>)
    ensures !r.Panic?
    ensures r.Err? <==> reply.status != errSecSuccess
    ensures r.Err? ==> Some(r.error) == MaybeFromOSStatus(reply.status, reply.message)
    ensures r.Ok? ==> r.value == reply.out
  {
    match MaybeFromOSStatus(reply.status, reply.message)
    case Some(e) => Err(e)
    case None => Ok(reply.out)
  }

  /** `ErrorKind::from(CFErrorRef)`. */
  function KindOfCFError(e: CFErrorData): ErrorKind
  {
    CFError(e.code, e.domain)
  }

  /**
   * `Error::from(CFErrorRef)`: the error keeps the structured error's code,
   * domain and description, under the `CFError` kind.
   */
  function FromCFError(e: CFErrorData): (r: Error)
    ensures r.kind.CFError? && r.kind.code == e.code && r.kind.domain == e.domain
    ensures r.description == e.description
  {
    Error(KindOfCFError(e), e.description)
  }

  /**
   * How the binding reads a call with a `CFErrorRef` out-parameter: a set
   * error is returned as the error, otherwise the output is taken.
   */
  function OfErrorReply<T>(reply: ErrorReply<T>): (r: Outcome<T>)
    ensures !r.Panic?
    ensures r.Err? <==> reply.error.Some?
    ensures r.Err? ==> r.error == FromCFError(reply.error.value)
    ensures r.Ok? ==> r.value == reply.out
  {
    match reply.error
    case Some(e) => Err(FromCFError(e))
    case None => Ok(reply.out)
  }

  /**
   * A structured error never becomes a named kind, not even when its code is
   * one of the known status codes: it keeps its code and its domain.
   */
  lemma CFErrorIsNeverNamed(e: CFErrorData)
    ensures !FromCFError(e).kind.IsNamed()
    ensures e.code == FromCFError(e).kind.code && e.domain == FromCFError(e).kind.domain
    ensures IsKnownStatus(e.code) ==> FromCFError(e).kind != KindOfStatus(e.code)
  {
  }

  /** The `Display` text of an `ErrorKind`, as its `#[fail(display = ...)]` attribute gives it. */
  function KindText(kind: ErrorKind): (text: string)
    ensures |text| > 0
  {
    match kind
    case AuthFailed => "authentication failed"
    case BufferTooSmall => "buffer too small"
    case CreateChainFailed => "certificate chain creation attempt failed"
    case DataTooLarge => "data too large"
    case DataNotAvailable => "data not available"
    case DataNotModifiable => "data not modifiable"
    case DuplicateCallback => "duplicate callback"
    case DuplicateItem => "duplicate item"
    case DuplicateKeychain => "duplicate keychain"
    case InDarkWake => "in dark wake"
    case InteractionNotAllowed => "interaction not allowed"
    case InteractionRequired => "user interaction required"
    case InvalidCallback => "invalid callback"
    case InvalidItemRef => "invalid item ref"
    case InvalidKeychain => "invalid keychain"
    case InvalidPrefsDomain => "invalid preference domain"
    case InvalidSearchRef => "search ref is invalid"
    case ItemNotFound => "item not found"
    case KeySizeNotAllowed => "key size not allowed"
    case MissingEntitlement => "missing application entitlement (errSecMissingEntitlement)"
    case NoCertificateModule => "no certificate module"
    case NoDefaultKeychain => "no default keychain"
    case NoPolicyModule => "no policy module"
    case NoStorageModule => "no storage module"
    case NoSuchAttr => "no such attr"
    case NoSuchClass => "no such class"
    case NoSuchKeychain => "no such keychain"
    case NotAvailable => "not available"
    case ReadOnly => "read-only"
    case ReadOnlyAttr => "read-only attr"
    case WrongSecVersion => "wrong version"
    case CFError(code, domain) => "Core Foundation error (code: " + Decimal(code) + ", domain: " + domain + ")"
    case OSError(code) => "unknown OS error (code: " + Decimal(code) + ")"
  }
  /** Rust's `{}` rendering of an integer: an optional minus sign and the decimal digits. */
  function Decimal(n: int): string
  {
    if n < 0 then "-" + Digits(-n) else Digits(n)
  }

  function Digits(n: nat): string
    decreases n
  {
    if n < 10 then ["0123456789"[n]] else Digits(n / 10) + ["0123456789"[n % 10]]
  }

  /** `Display for Error`: "description (kind)". */
  function Display(e: Error): (r: string)
    ensures |r| == |e.description| + |KindText(e.kind)| + 3
    ensures r[..|e.description|] == e.description
    ensures r[|e.description|..|e.description| + 2] == " ("
    ensures r[|e.description| + 2..|r| - 1] == KindText(e.kind)
    ensures r[|r| - 1] == ')'
  {
    e.description + " (" + KindText(e.kind) + ")"
  }

  /** The value of a string of decimal digits; the inverse of `Digits`. */
  function DigitsValue(s: string): int
  {
    if s == [] then 0 else DigitsValue(s[..|s| - 1]) * 10 + (s[|s| - 1] as int - '0' as int)
  }

  lemma {:induction false} DigitsAreDigits(n: nat)
    ensures |Digits(n)| > 0
    ensures forall i :: 0 <= i < |Digits(n)| ==> '0' <= Digits(n)[i] <= '9'
    decreases n
  {
    if n >= 10 {
      DigitsAreDigits(n / 10);
    }
  }

  lemma {:induction false} DigitsValueOfDigits(n: nat)
    ensures DigitsValue(Digits(n)) == n
    decreases n
  {
    if n >= 10 {
      var s := Digits(n);
      assert s[..|s| - 1] == Digits(n / 10);
      DigitsValueOfDigits(n / 10);
    }
  }

  /** A rendering starts with '-' exactly for negative numbers and never holds a comma. */
  lemma DecimalShape(n: int)
    ensures |Decimal(n)| > 0
    ensures Decimal(n)[0] == '-' <==> n < 0
    ensures forall i :: 0 <= i < |Decimal(n)| ==> Decimal(n)[i] != ','
  {
    var d := Digits(if n < 0 then -n else n);
    DigitsAreDigits(if n < 0 then -n else n);
    if n < 0 {
      assert Decimal(n) == "-" + d;
      forall i | 0 <= i < |Decimal(n)|
        ensures Decimal(n)[i] != ','
      {
        if i > 0 {
          assert Decimal(n)[i] == d[i - 1];
        }
      }
    } else {
      assert Decimal(n) == d;
      assert '0' <= d[0] <= '9';
    }
  }

  lemma DigitsInjective(m: nat, n: nat)
    requires Digits(m) == Digits(n)
    ensures m == n
  {
    DigitsValueOfDigits(m);
    DigitsValueOfDigits(n);
  }

  /** The first character of a digit string is a digit. */
  lemma {:induction false} DigitsHead(n: nat)
    ensures |Digits(n)| > 0 && '0' <= Digits(n)[0] <= '9'
    decreases n
  {
    if n >= 10 {
      DigitsHead(n / 10);
      assert Digits(n)[0] == Digits(n / 10)[0];
    }
  }

  /** A rendering starts with '-' exactly for negative numbers. */
  lemma DecimalSign(n: int)
    ensures |Decimal(n)| > 0 && (Decimal(n)[0] == '-' <==> n < 0)
  {
    DigitsHead(if n < 0 then -n else n);
  }

  /** Distinct integers are rendered differently. */
  lemma DecimalInjective(a: int, b: int)
    requires Decimal(a) == Decimal(b)
    ensures a == b
  {
    DecimalSign(a);
    DecimalSign(b);
    if a < 0 {
      assert Digits(-a) == Decimal(a)[1..];
      assert Digits(-b) == Decimal(b)[1..];
      DigitsInjective(-a, -b);
    } else {
      DigitsInjective(a, b);
    }
  }

  /** Position of the first comma of `s`, or `|s|` when it has none. */
  function FirstComma(s: string): (i: nat)
    ensures i <= |s|
  {
    if s == [] || s[0] == ',' then 0 else 1 + FirstComma(s[1..])
  }

  lemma {:induction false} FirstCommaAfter(x: string, rest: string)
    requires forall i :: 0 <= i < |x| ==> x[i] != ','
    ensures FirstComma(x + ", " + rest) == |x|
  {
    if x != [] {
      assert (x + ", " + rest)[1..] == x[1..] + ", " + rest;
      FirstCommaAfter(x[1..], rest);
    }
  }

  /** A rendered integer followed by a comma cannot be confused with another one. */
  lemma DecimalCommaPrefix(a: int, b: int, s: string, t: string)
    requires Decimal(a) + ", " + s == Decimal(b) + ", " + t
    ensures a == b && s == t
  {
    DecimalShape(a);
    DecimalShape(b);
    var x, y := Decimal(a), Decimal(b);
    var whole := x + ", " + s;
    FirstCommaAfter(x, s);
    FirstCommaAfter(y, t);
    assert |x| == |y|;
    assert x == whole[..|x|];
    assert y == whole[..|x|];
    DecimalInjective(a, b);
    assert s == whole[|x| + 2..];
    assert t == whole[|x| + 2..];
  }

  lemma OSErrorTextInjective(a: int64, b: int64)
    requires KindText(OSError(a)) == KindText(OSError(b))
    ensures a == b
  {
    var prefix := "unknown OS error (code: ";
    var s1, s2 := KindText(OSError(a)), KindText(OSError(b));
    assert s1 == prefix + Decimal(a) + ")";
    assert s2 == prefix + Decimal(b) + ")";
    assert Decimal(a) == s1[|prefix|..|s1| - 1] == s2[|prefix|..|s2| - 1] == Decimal(b);
    DecimalInjective(a, b);
  }

  /** The text inside the parentheses of a `CFError` kind's rendering. */
  lemma CFErrorTextInner(code: int64, domain: string)
    ensures KindText(CFError(code, domain))
         == "Core Foundation error (code: " + (Decimal(code) + ", " + ("domain: " + domain)) + ")"
  {
  }

  lemma CFErrorTextInjective(a: int64, d1: string, b: int64, d2: string)
    requires KindText(CFError(a, d1)) == KindText(CFError(b, d2))
    ensures a == b && d1 == d2
  {
    var prefix := "Core Foundation error (code: ";
    var inner1, inner2 := Decimal(a) + ", " + ("domain: " + d1), Decimal(b) + ", " + ("domain: " + d2);
    CFErrorTextInner(a, d1);
    CFErrorTextInner(b, d2);
    var s := KindText(CFError(a, d1));
    assert inner1 == s[|prefix|..|s| - 1];
    assert inner2 == s[|prefix|..|s| - 1];
    DecimalCommaPrefix(a, b, "domain: " + d1, "domain: " + d2);
    assert d1 == ("domain: " + d1)[8..];
    assert d2 == ("domain: " + d2)[8..];
  }

  lemma KindTextStart(kind: ErrorKind)
    requires !kind.IsNamed()
    ensures KindText(kind)[0] == if kind.OSError? then 'u' else 'C'
  {
    match kind
    case OSError(code) =>
    case CFError(code, domain) =>
  }

  /** The text of a kind built from a status or a structured error gives back its code (and domain). */
  lemma KindTextInjective(k1: ErrorKind, k2: ErrorKind)
    requires !k1.IsNamed() && !k2.IsNamed()
    requires KindText(k1) == KindText(k2)
    ensures k1 == k2
  {
    KindTextStart(k1);
    KindTextStart(k2);
    if k1.OSError? && k2.OSError? {
      OSErrorTextInjective(k1.code, k2.code);
    } else if k1.CFError? && k2.CFError? {
      CFErrorTextInjective(k1.code, k1.domain, k2.code, k2.domain);
    }
  }

  /** For a given description, the rendering of an error from a status or a structured error determines it. */
  lemma DisplayDeterminesKind(e1: Error, e2: Error)
    requires !e1.kind.IsNamed() && !e2.kind.IsNamed()
    requires e1.description == e2.description
    requires Display(e1) == Display(e2)
    ensures e1 == e2
  {
    var n := |e1.description| + 2;
    assert KindText(e1.kind) == Display(e1)[n..|Display(e1)| - 1] == Display(e2)[n..|Display(e2)| - 1] == KindText(e2.kind);
    KindTextInjective(e1.kind, e2.kind);
  }
}
