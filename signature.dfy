/**
 * Signatures (src/signature.rs): the bytes a signing operation produced,
 * tagged with the algorithm that produced them.
 *
 * The algorithm type is a parameter: the `keychain` API tags signatures
 * with a `KeyAlgorithm`, the older `SecKey::sign` with a `SecKeyAlgorithm`.
 */
module Signatures {
  import opened Ffi

  /** `Signature`: an algorithm and the signature bytes. */
  datatype Signature<Alg> = Signature(alg: Alg, bytes: seq<byte>)

  /** `Signature::new`: accepts any algorithm and any bytes, and gives both back unchanged. */
  function New<Alg>(alg: Alg, bytes: seq<byte>): (s: Signature<Alg>)
    ensures Algorithm(s) == alg
    ensures AsBytes(s) == bytes
  {
    Signature(alg, bytes)
  }

  /** `Signature::algorithm`. */
  function Algorithm<Alg>(s: Signature<Alg>): Alg
  {
    s.alg
  }

  /** `Signature::as_bytes`. */
  function AsBytes<Alg>(s: Signature<Alg>): seq<byte>
  {
    s.bytes
  }

  /** `Signature::into_vec`. */
  function IntoVec<Alg>(s: Signature<Alg>): seq<byte>
  {
    s.bytes
  }

  /** `AsRef<[u8]> for Signature`. */
  function AsRef<Alg>(s: Signature<Alg>): seq<byte>
  {
    AsBytes(s)
  }

  /** `From<Signature> for Vec<u8>`. */
  function IntoBytes<Alg>(s: Signature<Alg>): seq<byte>
  {
    IntoVec(s)
  }

  /** A signature is exactly its algorithm and its bytes: rebuilding it from the two accessors gives it back. */
  lemma NewOfAccessors<Alg>(s: Signature<Alg>)
    ensures New(Algorithm(s), AsBytes(s)) == s
  {
  }

  /** The four byte views of a signature agree. */
  lemma ByteViewsAgree<Alg>(s: Signature<Alg>)
    ensures AsRef(s) == AsBytes(s)
    ensures IntoBytes(s) == IntoVec(s)
    ensures IntoVec(s) == AsBytes(s)
  {
  }
}
