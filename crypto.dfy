/**
 * The shared symmetric cipher (`Aes128State`) as an opaque collaborator, and
 * the one step every outgoing inner message goes through: serialise, then
 * encrypt, aborting (an `unwrap` panic) when either fails.
 */
module Crypto {
  import opened Wrappers
  import opened Wire

  datatype CryptoError = CryptoError

  datatype Cipher = Cipher(encrypt: Bytes -> Result<Bytes, CryptoError>,
                           decrypt: Bytes -> Result<Bytes, CryptoError>) {

    /** Decrypting a ciphertext this cipher produced gives the plaintext back. */
    ghost predicate RoundTrips() {
      forall p :: encrypt(p).Success? ==> decrypt(encrypt(p).value) == Success(p)
    }
  }

  /** Which `unwrap` aborted the packet construction. */
  datatype Panic = SerializeFailed | EncryptFailed

  /** How an effectful call ended: normally, or by a panic. */
  datatype Outcome = Completed | Panicked(reason: Panic)

  /** `aes.encrypt(&m.write_to_bytes().unwrap()).unwrap()` */
  function Seal<M(!new)>(aes: Cipher, codec: Codec<M>, m: M): (r: Result<Bytes, Panic>)
    ensures r.Success? <==> codec.write(m).Some? && aes.encrypt(codec.write(m).value).Success?
    ensures r.Success? ==> r.value == aes.encrypt(codec.write(m).value).value
    ensures r == Failure(SerializeFailed) <==> codec.write(m).None?
  {
    match codec.write(m)
    case None => Failure(SerializeFailed)
    case Some(plain) =>
      match aes.encrypt(plain)
      case Success(cipherText) => Success(cipherText)
      case Failure(_) => Failure(EncryptFailed)
  }

  /** What a receiver holding the same cipher does with a payload: decrypt, then parse. */
  function Open<M(!new)>(aes: Cipher, codec: Codec<M>, data: Bytes): Option<M> {
    match aes.decrypt(data)
    case Failure(_) => None
    case Success(plain) => codec.parse(plain)
  }

  /** A sealed payload opens to the message it was sealed from. */
  lemma SealThenOpen<M(!new)>(aes: Cipher, codec: Codec<M>, m: M)
    requires aes.RoundTrips() && codec.RoundTrips()
    ensures Seal(aes, codec, m).Success? ==> Open(aes, codec, Seal(aes, codec, m).value) == Some(m)
  {
  }
}
