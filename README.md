# Push-dispatch core of echo-server, modelled in Dafny

echo-server is a push-notification gateway. Its providers take a device token and a
notification payload, send one message to a push backend and turn the outcome into the
gateway's error taxonomy. This project models the two providers of that core:

- the **FCM provider** (`src/providers/fcm.rs`): which message is built for an encrypted
  or a plaintext payload, with the `fcm` library's message and notification builders as
  classes mutated step by step; how the backend's answer is classified into `Error`; and
  clone and equality, which look at the API key only;
- the **Noop provider** (`src/providers/noop.rs`): the in-memory recorder, a class whose
  `notifications` map from token to the payloads sent to it is updated in place.

Files: `wrappers.dfy` (Option, Result), `payload.dfy` (the payload and the decoded blob),
`fcm_message.dfy` (the `fcm` library's message, builders, response and error types),
`error.dfy` (the error taxonomy), `fcm.dfy` (the FCM provider), `noop.dfy` (the Noop
provider).

The serialiser behind `message_builder.data(&payload)?` and the blob decoder
`DecryptedPayloadBlob::from_base64_encoded` are parameters of
`FcmProvider.SendNotification` (`serialize` and `decode`). The remote service that answers
a send is the parameter `backend`. The send itself goes through the provider's own
`Client`, whose ghost logs record every message handed to it and the answer each send got.
"No send happens" is therefore a statement about the provider's client: it is left
unchanged.

The blob is decoded only for a payload that is not encrypted (fcm.rs:40-53). A payload
that cannot be serialised into the data section also stops the send, with its own error
(fcm.rs:41, 61).

## Model

| member | source | states |
|---|---|---|
| `Fcm.BuildMessage` | src/providers/fcm.rs:38-63 | Every message goes to the given token under the provider's API key and carries the serialised original payload as data. An encrypted payload gives a data-only message with priority High and content-available true. A plaintext payload gives a visible notification whose title and body are exactly the decoded ones, with no priority or content-available set. A message is built exactly when serialisation succeeds and, for plaintext, decoding does; a decode failure is reported as such and takes precedence over a serialisation failure. |
| `Fcm.Classify` | src/providers/fcm.rs:68-93 | Success exactly when the backend answered without an error reason. `BadDeviceToken` exactly for MissingRegistration, InvalidRegistration and NotRegistered, with the texts "Missing registration for token", "Invalid token registration" and "Token is not registered". `BadApnsCredentials` exactly for InvalidApnsCredential. Any other reason is passed on unchanged as `FcmResponse`. `BadFcmApiKey` exactly for an Unauthorized transport failure; any other transport failure is passed on unchanged as `Fcm`. Classification never yields a payload error. |
| `Fcm.ClassifyDistinguishesOutcomes` | src/providers/fcm.rs:68-93 | Two backend answers get the same result exactly when they carry the same error reason or the same transport failure: the other response fields are ignored, and no two distinct outcomes are merged. |
| `Fcm.FcmProvider.SendNotification` | src/providers/fcm.rs:30-94 | Drives the builders step by step. When `BuildMessage` yields a message, exactly that message is handed once to the provider's own client, and the result is `Classify` of the answer the client logged. Otherwise the client is left unchanged (no send) and the building error is returned, so an undecodable plaintext payload never reaches the client. |
| `Fcm.Client.Send` | src/providers/fcm.rs:51 | One send: the message is appended to the client's log and the backend's answer to it is returned and logged. |
| `Fcm.FcmProvider.constructor` | src/providers/fcm.rs:20-25 | The provider holds the given API key and a newly created client that has sent nothing. |
| `Fcm.FcmProvider.Eq` | src/providers/fcm.rs:114-118 | Equal exactly when the API keys are equal, and the client plays no part. Equivalently, two providers are equal exactly when they build the same message (or the same error) from every token, payload, serialiser and decoder. |
| `Fcm.FcmProvider.Clone` | src/providers/fcm.rs:101-106 | The clone is a new provider with the same API key, equal to the original both ways, whose client is newly created, distinct from the original's and has sent nothing. |
| `Fcm.FcmProvider.CloneFrom` | src/providers/fcm.rs:108-111 | After the call the provider has the source's API key, equals the source both ways, and holds a newly created client that has sent nothing. |
| `Fcm.EqIsEquivalence` | src/providers/fcm.rs:114-118 | Equality, which compares API keys only, is reflexive, symmetric and transitive. |
| `FcmMessages.MessageBuilder.constructor` | src/providers/fcm.rs:38 | A new builder addresses the token under the API key and has no data, notification, priority or content-available set. |
| `FcmMessages.MessageBuilder.SetData` | src/providers/fcm.rs:41 | Succeeds exactly when the payload serialises. On success the data section becomes the serialised payload. On failure it returns the serialiser's error and leaves the builder unchanged. |
| `FcmMessages.MessageBuilder.SetPriority` | src/providers/fcm.rs:46 | Sets the priority and changes nothing else. |
| `FcmMessages.MessageBuilder.SetContentAvailable` | src/providers/fcm.rs:47 | Sets content-available and changes nothing else. |
| `FcmMessages.MessageBuilder.SetNotification` | src/providers/fcm.rs:60 | Sets the notification section and changes nothing else. |
| `FcmMessages.MessageBuilder.Finalize` | src/providers/fcm.rs:49 | The message carries exactly the builder's current key, token and sections. |
| `FcmMessages.NotificationBuilder.constructor` | src/providers/fcm.rs:55 | A new notification builder has neither title nor body. |
| `FcmMessages.NotificationBuilder.SetTitle` | src/providers/fcm.rs:56 | Sets the title and keeps the body. |
| `FcmMessages.NotificationBuilder.SetBody` | src/providers/fcm.rs:57 | Sets the body and keeps the title. |
| `FcmMessages.NotificationBuilder.Finalize` | src/providers/fcm.rs:58 | The notification carries exactly the builder's title and body. |
| `Noop.NoopProvider.constructor` | src/providers/noop.rs:17-19 | A new provider has recorded nothing: the map is empty. |
| `Noop.NoopProvider.Clone` | src/providers/noop.rs:9 | The derived clone is a new provider with the same record. It is equal to the original under the derived equality, which compares the whole record. |
| `Noop.NoopProvider.Eq` | src/providers/noop.rs:9 | Equal exactly when the whole records are equal: the same tokens, each with the same history. |
| `Noop.SameHistoriesSameRecord` | src/providers/noop.rs:9-12 | Two records are the same exactly when they have the same key set and every token has the same history in both. |
| `Noop.NoopProvider.Bootstrap` | src/providers/noop.rs:46-48 | The new record is `Bootstrapped` of the old one. |
| `Noop.NoopProvider.SendNotification` | src/providers/noop.rs:25-39 | Always returns `Ok(())`. The new record is `Appended` of the old one. The lookup behind `get_mut(&token).unwrap()` is proved always to find the entry, so the unwrap never panics. |
| `Noop.UnwrapFinds` | src/providers/noop.rs:33-35 | After bootstrapping a token, the lookup behind `get_mut(&token).unwrap()` finds that token's history (empty if it had none), so the unwrap never fails. |
| `Noop.Bootstrapped` | src/providers/noop.rs:46-48 | The key set gains the token. An existing entry and all other entries are untouched. A missing entry becomes empty. |
| `Noop.BootstrapIdempotent` | src/providers/noop.rs:46-48 | Bootstrapping a token twice gives the same record as bootstrapping it once. |
| `Noop.Appended` | src/providers/noop.rs:33-36 | After one send the key set is the old key set plus the token. The token's entry is its old sequence, or empty if it had none, followed by the payload. Every other token's entry is unchanged. |
| `Noop.ReplayRecordsInOrder` | src/providers/noop.rs:33-36 | After any sequence of sends, each token's entry is its old sequence followed by exactly the payloads sent to it, in the order sent. A token has an entry exactly when it had one before or was sent to, so a token never sent to stays absent. |

## Left out

- `src/state.rs` (the shared state holder: store connection, telemetry and metrics) is not part of this model. It only wraps the store client and the tracing setup.
- The remote side of `self.client.send(...).await` is the parameter `backend`; the client only logs what it sent and the answer. Async execution, timeouts and cancellation are not modelled.
- The payload serialiser and the blob decoder are the parameters `serialize` and `decode`. Base64 decoding and blob parsing (`src/blob.rs`) are not part of this model, and neither is the serialised JSON form of the data section (a string here).
- `MessagePayload` (`src/handlers/push_message.rs`) is not part of this model. The payload is reduced to its blob and the flag that `is_encrypted()` reports.
- `src/error.rs` is not part of this model. The error variants that `?` produces for a decode failure and a serialisation failure are named `BlobDecode` and `PayloadSerialize` here, carrying an opaque detail.
- The `fcm` library's further error reasons are folded into `OtherReason(name)`, and its transport errors other than Unauthorized into `OtherTransport(cause)`. A response keeps only a message id, the error reason and two counters.
- Tracing spans, `Debug` formatting, the `#[cfg(debug_assertions)]` gating of the Noop provider and the `async_trait` plumbing carry no behaviour the model states.
- Concurrency: the Noop record is modelled for one owner making calls one after another.
