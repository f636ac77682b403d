/** The gateway's error taxonomy, as far as the providers produce it. */
module Errors {
  import FcmMessages

  datatype Error =
    /** The token is permanently invalid for the backend; the text says why. */
    | BadDeviceToken(reason: string)
    /** The platform credential configured for the token's app is invalid. */
    | BadApnsCredentials
    /** The gateway's own backend API key was refused. */
    | BadFcmApiKey
    /** Any other per-message reason the backend reported, passed on unchanged. */
    | FcmResponse(response: FcmMessages.ErrorReason)
    /** Any other transport failure, passed on unchanged. */
    | Fcm(transport: FcmMessages.FcmError)
    /** A plaintext payload whose blob did not decode into a title and body. */
    | BlobDecode(detail: string)
    /** A payload that could not be serialised into the message's data section. */
    | PayloadSerialize(detail: string)
}
