/**
 * Access-control flags for keychain items (src/access.rs): three enums of
 * single-bit flags, a 64-bit word (`CFOptionFlags`) that they are ORed
 * into, and the framework call that turns an accessibility value and such a
 * word into a `SecAccessControl` object.
 */
module Access {
  import opened Wrappers
  import opened Ffi
  import opened Attrs
  import opened Errors

  /** `SecAccessConstraint`: who has to be present to use the item. */
  datatype AccessConstraint = UserPresence | BiometryAny | BiometryCurrentSet | DevicePasscode

  /** `SecAccessConjunction`: how several constraints combine. */
  datatype AccessConjunction = And | Or

  /** `SecAccessOption`: further options. */
  datatype AccessOption = PrivateKeyUsage | ApplicationPassword

  /** A value of any of the three flag enums (the implementors of `SecAccessControlFlag`). */
  datatype AccessFlag =
    | ConstraintFlag(constraint: AccessConstraint)
    | ConjunctionFlag(conjunction: AccessConjunction)
    | OptionFlag(option: AccessOption)

  /** `CFOptionFlags`, an unsigned 64-bit word. */
  type OptionFlags = bv64

  /** The bit position of each flag. */
  function BitIndex(f: AccessFlag): (i: nat)
    ensures i < 64
  {
    match f
    case ConstraintFlag(UserPresence) => 0
    case ConstraintFlag(BiometryAny) => 1
    case ConstraintFlag(BiometryCurrentSet) => 3
    case ConstraintFlag(DevicePasscode) => 4
    case ConjunctionFlag(Or) => 14
    case ConjunctionFlag(And) => 15
    case OptionFlag(PrivateKeyUsage) => 30
    case OptionFlag(ApplicationPassword) => 31
  }

  /**
   * `From<F> for CFOptionFlags` for the three flag enums: every flag is a
   * single bit, and distinct flags are distinct bits.
   */
  function FlagBits(f: AccessFlag): (b: OptionFlags)
    ensures b != 0 && b & (b - 1) == 0
  {
    match f
    case ConstraintFlag(UserPresence) => 1
    case ConstraintFlag(BiometryAny) => 1 << 1
    case ConstraintFlag(BiometryCurrentSet) => 1 << 3
    case ConstraintFlag(DevicePasscode) => 1 << 4
    case ConjunctionFlag(Or) => 1 << 14
    case ConjunctionFlag(And) => 1 << 15
    case OptionFlag(PrivateKeyUsage) => 1 << 30
    case OptionFlag(ApplicationPassword) => 1 << 31
  }

  /** A flag's bit is the one at its position. */
  lemma FlagBitsAtIndex(f: AccessFlag)
    ensures FlagBits(f) == 1 << BitIndex(f)
  {
  }

  /** Distinct flags sit at distinct bit positions, so their bits never overlap. */
  lemma FlagBitsDisjoint(f: AccessFlag, g: AccessFlag)
    requires f != g
    ensures BitIndex(f) != BitIndex(g)
    ensures FlagBits(f) & FlagBits(g) == 0
  {
  }

  /** The OR of the bits of `flags`, taken from the first to the last. */
  function FoldFlags(flags: seq<AccessFlag>): OptionFlags
  {
    if flags == [] then 0 else FoldFlags(flags[..|flags| - 1]) | FlagBits(flags[|flags| - 1])
  }

  /** A bit set in an OR is set in one of its operands. */
  lemma OrHasBit(a: OptionFlags, b: OptionFlags, c: OptionFlags)
    ensures (a | b) & c != 0 <==> a & c != 0 || b & c != 0
  {
    assert (a | b) & c == (a & c) | (b & c);
  }

  /** A flag's bit is set in the fold of `flags` if and only if the flag occurs in `flags`. */
  lemma {:induction false} FoldMembership(flags: seq<AccessFlag>, f: AccessFlag)
    ensures FoldFlags(flags) & FlagBits(f) != 0 <==> f in flags
  {
    if flags != [] {
      var init, last := flags[..|flags| - 1], flags[|flags| - 1];
      assert flags == init + [last];
      FoldMembership(init, f);
      OrHasBit(FoldFlags(init), FlagBits(last), FlagBits(f));
      if last != f {
        FlagBitsDisjoint(last, f);
      }
    }
  }

  /** Folding flags that all occur in `ys` adds nothing to the fold of `ys`. */
  lemma {:induction false} FoldSubset(xs: seq<AccessFlag>, ys: seq<AccessFlag>)
    requires forall f :: f in xs ==> f in ys
    ensures FoldFlags(xs) | FoldFlags(ys) == FoldFlags(ys)
  {
    if xs != [] {
      var init, last := xs[..|xs| - 1], xs[|xs| - 1];
      assert last in xs;
      forall f | f in init
        ensures f in ys
      {
        assert f in xs;
      }
      FoldSubset(init, ys);
      FoldMembership(ys, last);
      SingleBitAbsorbed(FlagBits(last), FoldFlags(ys));
    }
  }

  /** A single bit that is set in a word is absorbed by it. */
  lemma SingleBitAbsorbed(b: OptionFlags, w: OptionFlags)
    requires b & (b - 1) == 0
    requires w & b != 0
    ensures b | w == w
  {
  }

  /**
   * The fold depends only on which flags occur: order and repetition do not
   * matter.
   */
  lemma FoldSetDetermined(xs: seq<AccessFlag>, ys: seq<AccessFlag>)
    requires forall f :: f in xs <==> f in ys
    ensures FoldFlags(xs) == FoldFlags(ys)
  {
    FoldSubset(xs, ys);
    FoldSubset(ys, xs);
  }

  /** The fold of a concatenation is the OR of the folds. */
  lemma {:induction false} FoldAppend(xs: seq<AccessFlag>, ys: seq<AccessFlag>)
    ensures FoldFlags(xs + ys) == FoldFlags(xs) | FoldFlags(ys)
    decreases |ys|
  {
    if ys == [] {
      assert xs + ys == xs;
    } else {
      var init := ys[..|ys| - 1];
      assert (xs + ys)[..|xs + ys| - 1] == xs + init;
      assert (xs + ys)[|xs + ys| - 1] == ys[|ys| - 1];
      FoldAppend(xs, init);
    }
  }

  /** `SecAccessControlFlags`: the word of flags added so far. */
  class AccessControlFlags {
    var bits: OptionFlags

    /** `new` and `default`: no flag set. */
    constructor ()
      ensures bits == 0
    {
      bits := 0;
    }

    /** `add`: sets the flag's bit and no other; no combination of flags is refused. */
    method Add(f: AccessFlag)
      modifies this
      ensures bits == old(bits) | FlagBits(f)
    {
      bits := bits | FlagBits(f);
    }
  }

  /**
   * Adding a flag sets its bit, keeps every other bit, and adding it again
   * changes nothing.
   */
  lemma AddSetsOnlyItsBit(word: OptionFlags, f: AccessFlag, g: AccessFlag)
    requires g != f
    ensures (word | FlagBits(f)) & FlagBits(f) != 0
    ensures (word | FlagBits(f)) & FlagBits(g) == word & FlagBits(g)
    ensures (word | FlagBits(f)) | FlagBits(f) == word | FlagBits(f)
  {
    FlagBitsDisjoint(f, g);
    OrSetsAndKeeps(word, FlagBits(f), FlagBits(g));
  }

  /** OR-ing in a non-zero mask sets its bits, keeps the bits of any mask disjoint from it, and is idempotent. */
  lemma OrSetsAndKeeps(word: OptionFlags, x: OptionFlags, y: OptionFlags)
    requires x != 0 && x & y == 0
    ensures (word | x) & x != 0
    ensures (word | x) & y == word & y
    ensures (word | x) | x == word | x
  {
  }

  /** Two flags can be added in either order. */
  lemma AddCommutes(word: OptionFlags, f: AccessFlag, g: AccessFlag)
    ensures (word | FlagBits(f)) | FlagBits(g) == (word | FlagBits(g)) | FlagBits(f)
  {
  }

  /** `From<&[F]> for SecAccessControlFlags`: a fresh word with every flag of the slice added, in order. */
  method FromFlags(flags: seq<AccessFlag>) returns (result: AccessControlFlags)
    ensures fresh(result)
    ensures result.bits == FoldFlags(flags)
  {
    result := new AccessControlFlags();
    for i := 0 to |flags|
      invariant result.bits == FoldFlags(flags[..i])
    {
      assert flags[..i + 1][..i] == flags[..i];
      result.Add(flags[i]);
    }
    assert flags[..|flags|] == flags;
  }

  /**
   * `SecAccessControl::create_with_flags`: the framework is given the
   * accessibility constant and the word; the result is an error exactly when
   * the framework sets its error out-parameter, and the object it returned
   * otherwise.
   */
  function CreateWithFlags(protection: AttrAccessible, flags: OptionFlags,
                           framework: (SecConst, OptionFlags) -> ErrorReply<Ptr>): (r: Outcome<Ptr>)
    ensures !r.Panic?
    ensures r.Err? <==> framework(AccessibleConst(protection), flags).error.Some?
    ensures r.Err? ==> r.error == FromCFError(framework(AccessibleConst(protection), flags).error.value)
    ensures r.Ok? ==> r.value == framework(AccessibleConst(protection), flags).out
  {
    var reply := framework(AccessibleConst(protection), flags);
    if reply.error.None? then Ok(reply.out) else Err(FromCFError(reply.error.value))
  }
}
