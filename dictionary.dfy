/**
 * The builder for the parameter dictionaries handed to the framework
 * (src/dictionary.rs): an append-only list of (key, value) pairs.
 */
module Dictionaries {
  import opened Ffi
  import opened CoreFoundation
  import opened Attrs

  /** `DictionaryBuilder`: the pairs added so far, in the order they were added. */
  class DictionaryBuilder {
    var pairs: seq<Pair>

    /** `DictionaryBuilder::new`: no pairs yet. */
    constructor ()
      ensures pairs == []
    {
      pairs := [];
    }

    /** `add`: appends the pair at the end; earlier pairs, including ones with the same key, stay. */
    method Add(key: SecConst, value: Value)
      modifies this
      ensures pairs == old(pairs) + [(key, value)]
    {
      pairs := pairs + [(key, value)];
    }

    /** `add_attr`: appends the attribute under its own kind, as its Core Foundation value. */
    method AddAttr(attr: TAttr)
      modifies this
      ensures pairs == old(pairs) + [(AttrConst(Kind(attr)), AsCFType(attr))]
    {
      Add(AttrConst(Kind(attr)), AsCFType(attr));
    }

    /** `add_boolean`: appends a `CFBoolean`. */
    method AddBoolean(key: SecConst, value: bool)
      modifies this
      ensures pairs == old(pairs) + [(key, Boolean(value))]
    {
      Add(key, Boolean(value));
    }

    /** `add_number`: appends a `CFNumber` made from an `i64`. */
    method AddNumber(key: SecConst, value: int64)
      modifies this
      ensures pairs == old(pairs) + [(key, Number(value))]
    {
      Add(key, Number(value));
    }

    /** `add_string`: appends a `CFString`. */
    method AddString(key: SecConst, value: string)
      modifies this
      ensures pairs == old(pairs) + [(key, Text(value))]
    {
      Add(key, Text(value));
    }

    /** `From<DictionaryBuilder> for Dictionary`: the dictionary of the pairs, in insertion order. */
    function ToDictionary(): (d: Dictionary)
      reads this
      ensures d.pairs == pairs
    {
      Dictionary(pairs)
    }
  }

  /**
   * `add` does no de-duplication: after adding a key twice, the pairs hold
   * two more pairs with that key than before, and the first value is not
   * replaced.
   */
  lemma AddTwiceKeepsBoth(pairs: seq<Pair>, key: SecConst, v1: Value, v2: Value)
    ensures Occurrences(pairs + [(key, v1)] + [(key, v2)], key) == Occurrences(pairs, key) + 2
    ensures (pairs + [(key, v1)] + [(key, v2)])[|pairs|] == (key, v1)
  {
    OccurrencesAppend(pairs, (key, v1), key);
    OccurrencesAppend(pairs + [(key, v1)], (key, v2), key);
  }

  /** Adding a pair leaves the number of pairs with every other key unchanged. */
  lemma AddLeavesOtherKeys(pairs: seq<Pair>, key: SecConst, value: Value, other: SecConst)
    requires other != key
    ensures Occurrences(pairs + [(key, value)], other) == Occurrences(pairs, other)
  {
    OccurrencesAppend(pairs, (key, value), other);
  }
}
