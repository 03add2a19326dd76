/** What a session does with its outgoing messages while no connection is attached (`SessionStub`). */
module SendBuffer {
  import opened Collections

  /** A protocol message; the parts stand for whole responses and notifications. */
  datatype Message = Message(responses: seq<int>, notifications: seq<int>)

  const EMPTY := Message([], [])

  /** The responses of some messages, one message after the other. */
  function Responses(messages: seq<Message>): seq<int> {
    if messages == [] then [] else messages[0].responses + Responses(messages[1..])
  }

  function Notifications(messages: seq<Message>): seq<int> {
    if messages == [] then [] else messages[0].notifications + Notifications(messages[1..])
  }

  lemma {:induction false} ResponsesSnoc(messages: seq<Message>, message: Message)
    ensures Responses(messages + [message]) == Responses(messages) + message.responses
  {
    if messages == [] {
      assert messages + [message] == [message] && [message][1..] == [];
    } else {
      assert (messages + [message])[1..] == messages[1..] + [message];
      ResponsesSnoc(messages[1..], message);
      Reassociate(messages[0].responses, Responses(messages[1..]), message.responses);
    }
  }

  lemma {:induction false} NotificationsSnoc(messages: seq<Message>, message: Message)
    ensures Notifications(messages + [message]) == Notifications(messages) + message.notifications
  {
    if messages == [] {
      assert messages + [message] == [message] && [message][1..] == [];
    } else {
      assert (messages + [message])[1..] == messages[1..] + [message];
      NotificationsSnoc(messages[1..], message);
      Reassociate(messages[0].notifications, Notifications(messages[1..]), message.notifications);
    }
  }

  /** Repeated fields are appended when one message is merged into another. */
  function Merged(a: Message, b: Message): Message {
    Message(a.responses + b.responses, a.notifications + b.notifications)
  }

  datatype Handed = Handed(connection: nat, message: Message)

  function Messages(handed: seq<Handed>): seq<Message> {
    seq(|handed|, i requires 0 <= i < |handed| => handed[i].message)
  }

  /** What was sent is what was handed over, followed by what is buffered. */
  predicate Conserved(handed: seq<Message>, buffered: Message, sent: seq<Message>) {
    && Responses(handed) + buffered.responses == Responses(sent)
    && Notifications(handed) + buffered.notifications == Notifications(sent)
  }

  lemma SendBuffered(handed: seq<Message>, buffered: Message, sent: seq<Message>, message: Message)
    requires Conserved(handed, buffered, sent)
    ensures Conserved(handed, Merged(buffered, message), sent + [message])
  {
    ResponsesSnoc(sent, message);
    NotificationsSnoc(sent, message);
    Reassociate(Responses(handed), buffered.responses, message.responses);
    Reassociate(Notifications(handed), buffered.notifications, message.notifications);
  }

  lemma HandOver(handed: seq<Message>, buffered: Message, sent: seq<Message>)
    requires Conserved(handed, buffered, sent)
    ensures Conserved(handed + [buffered], EMPTY, sent)
  {
    ResponsesSnoc(handed, buffered);
    NotificationsSnoc(handed, buffered);
  }

  lemma MessagesSnoc(handed: seq<Handed>, next: Handed)
    ensures Messages(handed + [next]) == Messages(handed) + [next.message]
  {
  }

  class Session {
    var connection: Option<nat>
    var sendMessage: Option<Message>

    // All messages given to `Send`, and all messages handed to connections.
    ghost var sent: seq<Message>
    ghost var handed: seq<Handed>

    function Buffered(): Message
      reads this
    {
      if sendMessage.Some? then sendMessage.value else EMPTY
    }

    /** Nothing is lost, repeated or reordered, and nothing is held back from an attached connection. */
    ghost predicate Valid()
      reads this
    {
      && Conserved(Messages(handed), Buffered(), sent)
      && (connection.Some? ==> sendMessage.None?)
    }

    constructor ()
      ensures Valid() && connection.None? && sent == [] && handed == []
    {
      connection, sendMessage, sent, handed := None, None, [], [];
    }

    /** Attaching hands the buffered message over, to the new connection. */
    method SetConnection(to: Option<nat>)
      requires Valid()
      modifies this`connection, this`sendMessage, this`handed
      ensures Valid() && connection == to
      ensures to.Some? ==> sendMessage.None?
      ensures to.None? ==> Buffered() == old(Buffered())
      ensures handed == old(handed) +
                if to.Some? && old(sendMessage).Some? then [Handed(to.value, old(sendMessage).value)] else []
    {
      connection := to;
      if connection.Some? && sendMessage.Some? {
        var message := sendMessage.value;
        sendMessage := None;
        HandOver(Messages(handed), message, sent);
        MessagesSnoc(handed, Handed(connection.value, message));
        handed := handed + [Handed(connection.value, message)];
      }
    }

    /** A message goes to the connection, or is merged into the buffer; the first one is swapped into it. */
    method Send(message: Message) returns (left: Message)
      requires Valid()
      modifies this`sendMessage, this`sent, this`handed
      ensures Valid() && sent == old(sent) + [message]
      ensures handed == old(handed) + if connection.Some? then [Handed(connection.value, message)] else []
      ensures connection.None? ==> Buffered().responses == old(Buffered()).responses + message.responses
      ensures connection.None? ==> Buffered().notifications == old(Buffered()).notifications + message.notifications
      ensures left == if connection.None? && old(sendMessage).None? then EMPTY else message
    {
      left := message;
      SendBuffered(Messages(handed), Buffered(), sent, message);
      assert Merged(EMPTY, message) == message;
      sent := sent + [message];
      if connection.Some? {
        HandOver(Messages(handed), message, sent);
        MessagesSnoc(handed, Handed(connection.value, message));
        handed := handed + [Handed(connection.value, message)];
      } else if sendMessage.Some? {
        sendMessage := Some(Merged(sendMessage.value, message));
      } else {
        sendMessage := Some(message);
        left := EMPTY;
      }
    }

    /**
     * At any time the connections have been handed, in order, the first of the responses and notifications that were
     * sent; and all of them while a connection is attached.
     */
    lemma NothingLost()
      requires Valid()
      ensures Responses(Messages(handed)) <= Responses(sent)
      ensures Notifications(Messages(handed)) <= Notifications(sent)
      ensures connection.Some? ==> Responses(Messages(handed)) == Responses(sent)
      ensures connection.Some? ==> Notifications(Messages(handed)) == Notifications(sent)
    {
      var r, n := Responses(Messages(handed)), Notifications(Messages(handed));
      assert r <= r + Buffered().responses && n <= n + Buffered().notifications;
      assert r + [] == r && n + [] == n;
    }
  }
}
