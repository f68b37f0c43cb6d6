/** Identifiers and HMAC receipts (core_v3/receipts.py).
  *
  * A message authentication code is a constructor applied to the key and the signed body, so only the
  * holder of the key can produce the code that verification recomputes.
  */
module Signing {

  datatype Option<+T> = None | Some(value: T)

  type Id = string

  datatype Mac<B> = Mac(key: Id, body: B)
  datatype Signature<B> = Unsigned | Signature(hmacSha256: bool, keyId: Id, value: Mac<B>)
  datatype Signer = Signer(key: Id, keyId: Id)

  /** The signature field that ReceiptSigner.sign adds to a body. */
  function Sign<B>(signer: Signer, body: B): Signature<B> {
    Signature(true, signer.keyId, Mac(signer.key, body))
  }

  predicate VerifySignature<B(==)>(signer: Signer, body: B, signature: Signature<B>) {
    && signature.Signature?
    && signature.hmacSha256
    && signature.keyId == signer.keyId
    && signature.value == Mac(signer.key, body)
  }

  /** A body verifies under a signature exactly when that signer produced the signature for that body. */
  lemma VerifiesExactlySigned<B>(signer: Signer, body: B, signature: Signature<B>)
    ensures VerifySignature(signer, body, signature) <==> signature == Sign(signer, body)
  {
  }
}
