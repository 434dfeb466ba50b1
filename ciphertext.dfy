/**
 * Ciphertexts (src/ciphertext.rs): the bytes an encryption produced,
 * tagged with the key algorithm that produced them.
 */
module Ciphertexts {
  import opened Ffi
  import opened KeyAlgorithms

  /** `Ciphertext`: an algorithm and the ciphertext bytes. */
  datatype Ciphertext = Ciphertext(alg: KeyAlgorithm, bytes: seq<byte>)

  /** `Ciphertext::new`: accepts any algorithm and any bytes, and gives both back unchanged. */
  function New(alg: KeyAlgorithm, bytes: seq<byte>): (s: Ciphertext)
    ensures Algorithm(s) == alg
    ensures AsBytes(s) == bytes
  {
    Ciphertext(alg, bytes)
  }

  /** `Ciphertext::algorithm`. */
  function Algorithm(s: Ciphertext): KeyAlgorithm
  {
    s.alg
  }

  /** `Ciphertext::as_bytes`. */
  function AsBytes(s: Ciphertext): seq<byte>
  {
    s.bytes
  }

  /** `Ciphertext::into_vec`. */
  function IntoVec(s: Ciphertext): seq<byte>
  {
    s.bytes
  }

  /** `AsRef<[u8]> for Ciphertext`. */
  function AsRef(s: Ciphertext): seq<byte>
  {
    AsBytes(s)
  }

  /** `From<Ciphertext> for Vec<u8>`. */
  function IntoBytes(s: Ciphertext): seq<byte>
  {
    IntoVec(s)
  }

  /** A ciphertext is exactly its algorithm and its bytes: rebuilding it from the two accessors gives it back. */
  lemma NewOfAccessors(s: Ciphertext)
    ensures New(Algorithm(s), AsBytes(s)) == s
  {
  }

  /** The four byte views of a ciphertext agree. */
  lemma ByteViewsAgree(s: Ciphertext)
    ensures AsRef(s) == AsBytes(s)
    ensures IntoBytes(s) == IntoVec(s)
    ensures IntoVec(s) == AsBytes(s)
  {
  }
}
