/** The FCM-backed provider: which message is built for a payload, and how the outcome of
    the send is sorted into the gateway's error taxonomy. */
module Fcm {
  import opened Wrappers
  import opened Payload
  import opened FcmMessages
  import opened Errors

  /** The message `send_notification` hands to the client, or the error that stops it before
      any send: an encrypted payload becomes a data-only, high-priority, content-available
      message; a plaintext one carries its decoded title and body as a visible notification
      and the payload itself as data. */
  function BuildMessage(apiKey: string, token: string, payload: MessagePayload,
                        serialize: MessagePayload -> Result<Json, string>,
                        decode: string -> Result<DecryptedPayloadBlob, string>): (r: Result<Message, Error>)
    // every message goes to `token` under the provider's key, with the payload as data
    ensures r.Ok? ==> r.value.apiKey == apiKey && r.value.to == token
    ensures r.Ok? ==> serialize(payload).Ok? && r.value.data == Some(serialize(payload).value)
    // encrypted: data-only, forced to high priority and content-available
    ensures r.Ok? && payload.encrypted ==>
              && r.value.notification == None
              && r.value.priority == Some(High)
              && r.value.contentAvailable == Some(true)
    // plaintext: the visible section is exactly the decoded title and body
    ensures r.Ok? && !payload.encrypted ==>
              && decode(payload.blob).Ok?
              && r.value.notification == Some(Notification(Some(decode(payload.blob).value.title),
                                                           Some(decode(payload.blob).value.body)))
              && r.value.priority == None
              && r.value.contentAvailable == None
    // a message is built exactly when every step that can fail succeeds
    ensures r.Err? <==> serialize(payload).Err? || (!payload.encrypted && decode(payload.blob).Err?)
    // a decode failure wins over a serialisation failure, since decoding comes first
    ensures !payload.encrypted && decode(payload.blob).Err? ==>
              r == Err(BlobDecode(decode(payload.blob).error))
    ensures (payload.encrypted || decode(payload.blob).Ok?) && serialize(payload).Err? ==>
              r == Err(PayloadSerialize(serialize(payload).error))
  {
    if payload.encrypted then
      match serialize(payload)
      case Err(e) => Err(PayloadSerialize(e))
      case Ok(d) => Ok(Message(apiKey, token, Some(d), None, Some(High), Some(true)))
    else
      match decode(payload.blob)
      case Err(e) => Err(BlobDecode(e))
      case Ok(blob) =>
        match serialize(payload)
        case Err(e) => Err(PayloadSerialize(e))
        case Ok(d) =>
          Ok(Message(apiKey, token, Some(d), Some(Notification(Some(blob.title), Some(blob.body))), None, None))
  }

  /** True of the three reasons that mean the token itself is dead. */
  predicate IsTokenReason(reason: ErrorReason)
  {
    reason.MissingRegistration? || reason.InvalidRegistration? || reason.NotRegistered?
  }

  /** The outcome of a send as far as classification looks at it: the reported reason of a
      response that arrived, or the transport failure. */
  function Observed(result: Result<FcmResponse, FcmError>): Result<Option<ErrorReason>, FcmError>
  {
    match result
    case Ok(response) => Ok(response.error)
    case Err(e) => Err(e)
  }

  /** The result of `send_notification` for the backend's answer to the send. */
  function Classify(result: Result<FcmResponse, FcmError>): (r: Result<(), Error>)
    // success exactly when the backend answered and reported no error
    ensures r.Ok? <==> result.Ok? && result.value.error.None?
    // a dead token exactly for the three token reasons, each with its own text
    ensures (r.Err? && r.error.BadDeviceToken?) <==>
              result.Ok? && result.value.error.Some? && IsTokenReason(result.value.error.value)
    ensures result.Ok? && result.value.error == Some(MissingRegistration) ==>
              r == Err(BadDeviceToken("Missing registration for token"))
    ensures result.Ok? && result.value.error == Some(InvalidRegistration) ==>
              r == Err(BadDeviceToken("Invalid token registration"))
    ensures result.Ok? && result.value.error == Some(NotRegistered) ==>
              r == Err(BadDeviceToken("Token is not registered"))
    // a platform-credential fault exactly for InvalidApnsCredential
    ensures r == Err(BadApnsCredentials) <==>
              result.Ok? && result.value.error == Some(InvalidApnsCredential)
    // every other reason is passed on unchanged
    ensures (r.Err? && r.error.FcmResponse?) <==>
              result.Ok? && result.value.error.Some? && result.value.error.value.OtherReason?
    ensures r.Err? && r.error.FcmResponse? ==> r.error.response == result.value.error.value
    // an API-key fault exactly for an unauthorized transport
    ensures r == Err(BadFcmApiKey) <==> result == Err(Unauthorized)
    // every other transport failure is passed on unchanged
    ensures (r.Err? && r.error.Fcm?) <==> result.Err? && result.error != Unauthorized
    ensures r.Err? && r.error.Fcm? ==> r.error.transport == result.error
    // classification never reports a payload problem
    ensures !(r.Err? && (r.error.BlobDecode? || r.error.PayloadSerialize?))
  {
    match result
    case Ok(response) =>
      (match response.error
       case None => Ok(())
       case Some(MissingRegistration) => Err(BadDeviceToken("Missing registration for token"))
       case Some(InvalidRegistration) => Err(BadDeviceToken("Invalid token registration"))
       case Some(NotRegistered) => Err(BadDeviceToken("Token is not registered"))
       case Some(InvalidApnsCredential) => Err(BadApnsCredentials)
       case Some(e) => Err(Error.FcmResponse(e)))
    case Err(Unauthorized) => Err(BadFcmApiKey)
    case Err(e) => Err(Fcm(e))
  }

  /** Two answers from the backend are classified alike exactly when they report the same
      reason or the same transport failure: the other fields of a response play no part, and
      no two distinct outcomes are merged into one error. */
  lemma ClassifyDistinguishesOutcomes(x: Result<FcmResponse, FcmError>,
                                      y: Result<FcmResponse, FcmError>)
    ensures Classify(x) == Classify(y) <==> Observed(x) == Observed(y)
  {
  }

  /** The network client the provider owns. Its ghost logs record every message handed to
      it and the answer each send produced; `backend` stands for the remote service. */
  class Client {
    ghost var handed: seq<Message>
    ghost var answers: seq<Result<FcmResponse, FcmError>>

    constructor ()
      ensures handed == [] && answers == []
    {
      handed, answers := [], [];
    }

    /** `client.send(message).await`: one delivery attempt, answered by the backend. */
    method Send(message: Message, backend: Message -> Result<FcmResponse, FcmError>)
      returns (answer: Result<FcmResponse, FcmError>)
      modifies this
      ensures answer == backend(message)
      ensures handed == old(handed) + [message] && answers == old(answers) + [answer]
    {
      answer := backend(message);
      handed, answers := handed + [message], answers + [answer];
    }
  }

  class FcmProvider {
    var apiKey: string
    var client: Client

    constructor (apiKey: string)
      ensures this.apiKey == apiKey && fresh(client) && client.handed == []
    {
      this.apiKey := apiKey;
      client := new Client();
    }

    /** Providers are equal when their API keys are; the client plays no part. Equal
        providers are exactly those that build the same message from every input. */
    predicate Eq(other: FcmProvider): (equal: bool)
      reads this, other
      ensures equal <==>
                forall token, payload, serialize, decode {:trigger BuildMessage(apiKey, token, payload, serialize, decode)} ::
                  BuildMessage(apiKey, token, payload, serialize, decode)
                  == BuildMessage(other.apiKey, token, payload, serialize, decode)
    {
      // an encrypted payload that serialises always yields a message carrying the key
      var serialize := (p: MessagePayload) => Ok("");
      var decode := (b: string) => Err("");
      var probe := MessagePayload("", true);
      assert BuildMessage(apiKey, "", probe, serialize, decode).value.apiKey == apiKey;
      apiKey == other.apiKey
    }

    method Clone() returns (c: FcmProvider)
      ensures fresh(c) && fresh(c.client) && c.client != client && c.client.handed == []
      ensures c.apiKey == apiKey && c.Eq(this) && this.Eq(c)
    {
      c := new FcmProvider(apiKey);
    }

    method CloneFrom(source: FcmProvider)
      modifies this
      ensures fresh(client) && client.handed == []
      ensures apiKey == source.apiKey && Eq(source) && source.Eq(this)
    {
      apiKey := source.apiKey;
      client := new Client();
    }

    /** One delivery attempt through the provider's own client. `serialize` and `decode`
        stand for the payload serialiser and the blob decoder, `backend` for the remote
        service that answers the client's send. */
    method SendNotification(token: string, payload: MessagePayload,
                            serialize: MessagePayload -> Result<Json, string>,
                            decode: string -> Result<DecryptedPayloadBlob, string>,
                            backend: Message -> Result<FcmResponse, FcmError>)
      returns (r: Result<(), Error>)
      modifies client
      // when the message can be built, exactly that message is handed to the client, once,
      // and the result is the classified answer to it
      ensures BuildMessage(apiKey, token, payload, serialize, decode).Ok? ==>
                && client.handed == old(client.handed) + [BuildMessage(apiKey, token, payload, serialize, decode).value]
                && client.answers == old(client.answers) + [backend(client.handed[|client.handed| - 1])]
                && r == Classify(client.answers[|client.answers| - 1])
      // otherwise the client is never used and the building error is returned
      ensures BuildMessage(apiKey, token, payload, serialize, decode).Err? ==>
                && unchanged(client)
                && r == Err(BuildMessage(apiKey, token, payload, serialize, decode).error)
    {
      var builder := new MessageBuilder(apiKey, token);
      var message: Message;
      if payload.encrypted {
        var d := builder.SetData(serialize, payload);
        if d.Err? {
          return Err(PayloadSerialize(d.error));
        }
        builder.SetPriority(High);
        builder.SetContentAvailable(true);
        message := builder.Finalize();
      } else {
        var decoded := decode(payload.blob);
        if decoded.Err? {
          return Err(BlobDecode(decoded.error));
        }
        var blob := decoded.value;
        var notificationBuilder := new NotificationBuilder();
        notificationBuilder.SetTitle(blob.title);
        notificationBuilder.SetBody(blob.body);
        var notification := notificationBuilder.Finalize();
        builder.SetNotification(notification);
        var d := builder.SetData(serialize, payload);
        if d.Err? {
          return Err(PayloadSerialize(d.error));
        }
        message := builder.Finalize();
      }
      var answer := client.Send(message, backend);
      r := Classify(answer);
    }
  }

  /** Equality of providers is an equivalence relation. */
  lemma EqIsEquivalence(a: FcmProvider, b: FcmProvider, c: FcmProvider)
    ensures a.Eq(a)
    ensures a.Eq(b) ==> b.Eq(a)
    ensures a.Eq(b) && b.Eq(c) ==> a.Eq(c)
  {
  }
}
