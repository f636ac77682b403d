/** The notification as a provider receives it, and the visible text decoded from a plaintext one. */
module Payload {

  /** One notification to deliver. `blob` is the opaque data field (base64 ciphertext or an
      encoded plaintext blob); `encrypted` is what `is_encrypted()` reports for it. */
  datatype MessagePayload = MessagePayload(blob: string, encrypted: bool)

  /** The title and body carried by a plaintext payload once its blob is decoded. */
  datatype DecryptedPayloadBlob = DecryptedPayloadBlob(title: string, body: string)
}
