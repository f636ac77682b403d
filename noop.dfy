/** The in-memory recorder used in debug and test builds: for every token, the payloads
    sent to it, in order. */
module Noop {
  import opened Wrappers
  import opened Payload
  import opened Errors

  /** Token to the payloads sent to it so far. */
  type Record = map<string, seq<MessagePayload>>

  /** The payloads recorded for `token`; none for a token that has no entry. */
  function History(m: Record, token: string): seq<MessagePayload>
  {
    if token in m then m[token] else []
  }

  /** The entry for `token` as `get_mut` finds it. */
  function GetMut(m: Record, token: string): Option<seq<MessagePayload>>
  {
    if token in m then Some(m[token]) else None
  }

  /** The record after `bootstrap(token)`: an existing entry is kept as it is, a missing one
      becomes empty, and nothing else changes. */
  function Bootstrapped(m: Record, token: string): (r: Record)
    ensures r.Keys == m.Keys + {token}
    ensures token in m ==> r == m
    ensures r[token] == History(m, token)
    ensures forall u :: u in m ==> r[u] == m[u]
  {
    if token in m then m else m[token := []]
  }

  /** The record after one `send_notification(token, payload)`. */
  function Appended(m: Record, token: string, payload: MessagePayload): (r: Record)
    // the key set grows by `token` and by nothing else
    ensures r.Keys == m.Keys + {token}
    // the payload goes at the end of `token`'s history
    ensures r[token] == History(m, token) + [payload]
    // every other token keeps its entry
    ensures forall u :: u in m && u != token ==> r[u] == m[u]
  {
    m[token := History(m, token) + [payload]]
  }

  /** Two records are the same exactly when they have the same tokens and every token has
      the same history in both. */
  lemma SameHistoriesSameRecord(a: Record, b: Record)
    ensures a == b <==> a.Keys == b.Keys && forall t :: History(a, t) == History(b, t)
  {
    if a.Keys == b.Keys && forall t :: History(a, t) == History(b, t) {
      forall t | t in a
        ensures a[t] == b[t]
      {
        assert History(a, t) == History(b, t);
      }
    }
  }

  /** After `bootstrap(token)` the lookup behind `get_mut(&token).unwrap()` finds the
      token's history, so the unwrap never fails. */
  lemma UnwrapFinds(m: Record, token: string)
    ensures GetMut(Bootstrapped(m, token), token) == Some(History(m, token))
  {
  }

  /** Bootstrapping twice is bootstrapping once. */
  lemma BootstrapIdempotent(m: Record, token: string)
    ensures Bootstrapped(Bootstrapped(m, token), token) == Bootstrapped(m, token)
  {
  }

  /** One call of `send_notification`. */
  datatype Send = Send(token: string, payload: MessagePayload)

  /** The record after the given sends, made one after another. */
  function Replay(m: Record, sends: seq<Send>): Record
    decreases |sends|
  {
    if sends == [] then m else Replay(Appended(m, sends[0].token, sends[0].payload), sends[1..])
  }

  /** The payloads among `sends` addressed to `token`, in order. */
  function PayloadsFor(sends: seq<Send>, token: string): seq<MessagePayload>
    decreases |sends|
  {
    if sends == [] then []
    else (if sends[0].token == token then [sends[0].payload] else []) + PayloadsFor(sends[1..], token)
  }

  /** After any sequence of sends, each token's entry is its old history followed by exactly
      the payloads sent to it, in the order sent; and a token has an entry exactly when it
      had one before or was sent to, so a token never sent to stays absent. */
  lemma {:induction false} ReplayRecordsInOrder(m: Record, sends: seq<Send>, token: string)
    ensures History(Replay(m, sends), token) == History(m, token) + PayloadsFor(sends, token)
    ensures token in Replay(m, sends) <==>
              token in m || exists i :: 0 <= i < |sends| && sends[i].token == token
    decreases |sends|
  {
    if sends != [] {
      var m' := Appended(m, sends[0].token, sends[0].payload);
      ReplayRecordsInOrder(m', sends[1..], token);
      assert History(m', token) ==
        History(m, token) + (if sends[0].token == token then [sends[0].payload] else []);
      if token in Replay(m, sends) && token !in m && sends[0].token != token {
        var i :| 0 <= i < |sends[1..]| && sends[1..][i].token == token;
        assert sends[i + 1].token == token;
      }
      if token !in m && sends[0].token != token && token !in Replay(m, sends) {
        forall i | 0 < i < |sends|
          ensures sends[i].token != token
        {
          assert sends[i] == sends[1..][i - 1];
        }
      }
    }
  }

  class NoopProvider {
    var notifications: Record

    /** `new()`: nothing recorded. */
    constructor ()
      ensures notifications == map[]
    {
      notifications := map[];
    }

    /** The derived equality compares the whole record: the same tokens, each with the
        same history. */
    predicate Eq(other: NoopProvider): (equal: bool)
      reads this, other
      ensures equal <==>
                && notifications.Keys == other.notifications.Keys
                && forall t :: History(notifications, t) == History(other.notifications, t)
    {
      SameHistoriesSameRecord(notifications, other.notifications);
      notifications == other.notifications
    }

    /** The derived clone: a new provider holding the same record. */
    method Clone() returns (c: NoopProvider)
      ensures fresh(c) && c.notifications == notifications && c.Eq(this)
    {
      c := new NoopProvider();
      c.notifications := notifications;
    }

    /** Insert an empty history for a token that has none. */
    method Bootstrap(token: string)
      modifies this
      ensures notifications == Bootstrapped(old(notifications), token)
    {
      if token !in notifications {
        notifications := notifications[token := []];
      }
    }

    /** Record `payload` as sent to `token`; never fails. */
    method SendNotification(token: string, payload: MessagePayload) returns (r: Result<(), Error>)
      modifies this
      ensures r == Ok(())
      ensures notifications == Appended(old(notifications), token, payload)
    {
      Bootstrap(token);
      // `get_mut(&token).unwrap()`: the entry Bootstrap guarantees is always found
      match GetMut(notifications, token) {
        case None =>
          assert false;
        case Some(history) =>
          notifications := notifications[token := history + [payload]];
      }
      r := Ok(());
    }
  }
}
