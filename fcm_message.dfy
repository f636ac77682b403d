/** The parts of the `fcm` client library that the provider drives: the message it builds,
    the two builders it mutates step by step, and the response and error types of a send. */
module FcmMessages {
  import opened Wrappers
  import opened Payload

  /** The payload as serialised into the message's data section. */
  type Json = string

  datatype Priority = Normal | High

  /** The visible part of a message; the library leaves an unset field out. */
  datatype Notification = Notification(title: Option<string>, body: Option<string>)

  /** A finalised message: credential, destination token and the optional sections. */
  datatype Message = Message(
    apiKey: string,
    to: string,
    data: Option<Json>,
    notification: Option<Notification>,
    priority: Option<Priority>,
    contentAvailable: Option<bool>)

  /** Per-message error reasons the backend can report; every reason the provider does not
      single out is `OtherReason`, named as the backend names it. */
  datatype ErrorReason =
    | MissingRegistration
    | InvalidRegistration
    | NotRegistered
    | InvalidApnsCredential
    | OtherReason(name: string)

  /** Transport-level failures of a send. */
  datatype FcmError = Unauthorized | OtherTransport(cause: string)

  /** What the backend answers to a send that reached it. Only `error` is read by the provider. */
  datatype FcmResponse = Response(
    messageId: Option<int>,
    error: Option<ErrorReason>,
    success: Option<nat>,
    failure: Option<nat>)

  class NotificationBuilder {
    var title: Option<string>
    var body: Option<string>

    constructor ()
      ensures title == None && body == None
    {
      title, body := None, None;
    }

    method SetTitle(t: string)
      modifies this
      ensures title == Some(t) && body == old(body)
    {
      title := Some(t);
    }

    method SetBody(b: string)
      modifies this
      ensures body == Some(b) && title == old(title)
    {
      body := Some(b);
    }

    method Finalize() returns (n: Notification)
      ensures n.title == title && n.body == body
    {
      n := Notification(title, body);
    }
  }

  class MessageBuilder {
    const apiKey: string
    const to: string
    var data: Option<Json>
    var notification: Option<Notification>
    var priority: Option<Priority>
    var contentAvailable: Option<bool>

    /** The message `Finalize` would produce now. */
    function Current(): Message
      reads this
    {
      Message(apiKey, to, data, notification, priority, contentAvailable)
    }

    constructor (apiKey: string, to: string)
      ensures Current() == Message(apiKey, to, None, None, None, None)
    {
      this.apiKey, this.to := apiKey, to;
      data, notification, priority, contentAvailable := None, None, None, None;
    }

    /** Serialises `payload` into the data section; a serialisation failure is returned and
        leaves the builder as it was. */
    method SetData(serialize: MessagePayload -> Result<Json, string>, payload: MessagePayload)
      returns (r: Result<(), string>)
      modifies this
      ensures r.Ok? <==> serialize(payload).Ok?
      ensures r.Err? ==> r.error == serialize(payload).error
      ensures Current() == if r.Ok? then old(Current()).(data := Some(serialize(payload).value))
                           else old(Current())
    {
      match serialize(payload)
      case Ok(d) =>
        data := Some(d);
        r := Ok(());
      case Err(e) =>
        r := Err(e);
    }

    method SetNotification(n: Notification)
      modifies this
      ensures Current() == old(Current()).(notification := Some(n))
    {
      notification := Some(n);
    }

    method SetPriority(p: Priority)
      modifies this
      ensures Current() == old(Current()).(priority := Some(p))
    {
      priority := Some(p);
    }

    method SetContentAvailable(b: bool)
      modifies this
      ensures Current() == old(Current()).(contentAvailable := Some(b))
    {
      contentAvailable := Some(b);
    }

    method Finalize() returns (m: Message)
      ensures m.apiKey == apiKey && m.to == to && m.data == data
      ensures m.notification == notification && m.priority == priority
      ensures m.contentAvailable == contentAvailable
    {
      m := Current();
    }
  }
}
