/**
 * The Core Foundation values the binding puts into parameter dictionaries:
 * booleans, 64-bit numbers, strings, byte buffers, the framework's named
 * string constants, nested dictionaries and opaque framework objects.
 */
module CoreFoundation {
  import opened Ffi

  datatype Value =
    | Boolean(flag: bool)          // CFBoolean
    | Number(number: int64)        // CFNumber made from an i64
    | Text(text: string)           // CFString made from a Rust string
    | Data(bytes: seq<byte>)       // CFData
    | Constant(constant: SecConst) // one of the framework's CFString constants
    | Nested(dictionary: Dictionary)
    | Object(handle: Ptr)          // SecAccessControl, SecKeychain and other framework objects

  /**
   * A `CFDictionary` as the binding hands it over: the (key, value) pairs in
   * the order they were supplied to `CFDictionary::from_CFType_pairs`.
   * What the framework makes of repeated keys is not modelled.
   */
  datatype Dictionary = Dictionary(pairs: seq<(SecConst, Value)>)

  type Pair = (SecConst, Value)

  /** The keys of `pairs`, in order. */
  function Keys(pairs: seq<Pair>): (keys: seq<SecConst>)
    ensures |keys| == |pairs|
    ensures forall i :: 0 <= i < |pairs| ==> keys[i] == pairs[i].0
  {
    if pairs == [] then [] else [pairs[0].0] + Keys(pairs[1..])
  }

  /** How many pairs of `pairs` have key `key`. */
  function Occurrences(pairs: seq<Pair>, key: SecConst): nat
  {
    if pairs == [] then 0
    else (if pairs[0].0 == key then 1 else 0) + Occurrences(pairs[1..], key)
  }

  /** Appending a pair adds one occurrence of its key and none of any other. */
  lemma {:induction false} OccurrencesAppend(pairs: seq<Pair>, pair: Pair, key: SecConst)
    ensures Occurrences(pairs + [pair], key) == Occurrences(pairs, key) + (if pair.0 == key then 1 else 0)
  {
    if pairs == [] {
      assert pairs + [pair] == [pair];
    } else {
      assert (pairs + [pair])[1..] == pairs[1..] + [pair];
      OccurrencesAppend(pairs[1..], pair, key);
    }
  }

  /** Appending three pairs adds one occurrence of a key for each of them that has it. */
  lemma OccurrencesAppendThree(pairs: seq<Pair>, p0: Pair, p1: Pair, p2: Pair, key: SecConst)
    ensures Occurrences(pairs + [p0, p1, p2], key)
         == Occurrences(pairs, key) + (if p0.0 == key then 1 else 0) + (if p1.0 == key then 1 else 0) + (if p2.0 == key then 1 else 0)
  {
    OccurrencesAppend(pairs, p0, key);
    OccurrencesAppend(pairs + [p0], p1, key);
    OccurrencesAppend(pairs + [p0] + [p1], p2, key);
    assert pairs + [p0, p1, p2] == pairs + [p0] + [p1] + [p2];
  }

  /** A key occurs in `pairs` exactly when it is among their keys. */
  lemma {:induction false} OccurrencesPositive(pairs: seq<Pair>, key: SecConst)
    ensures Occurrences(pairs, key) > 0 <==> key in Keys(pairs)
  {
    if pairs != [] {
      OccurrencesPositive(pairs[1..], key);
      assert Keys(pairs) == [pairs[0].0] + Keys(pairs[1..]);
    }
  }
}
