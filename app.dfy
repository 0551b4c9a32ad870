/**
 The top-level component of one tab: the connectivity flag and the last
 generic message received from another tab.
 */
module App {
  import opened Events

  /** The text of the test message the button sends. */
  const TestText := "Hello from the frontend!"

  class Shell {
    const socket: Socket
    var isConnected: bool
    var lastMessage: Option<Message>

    /** Mounting: the flag starts as the socket's own state, and no message is known yet. */
    constructor (socket: Socket, socketConnected: bool)
      ensures this.socket == socket
      ensures isConnected == socketConnected && lastMessage == None
    {
      this.socket := socket;
      isConnected := socketConnected;
      lastMessage := None;
    }

    method OnConnect()
      modifies this
      ensures isConnected && lastMessage == old(lastMessage)
    {
      isConnected := true;
    }

    method OnDisconnect()
      modifies this
      ensures !isConnected && lastMessage == old(lastMessage)
    {
      isConnected := false;
    }

    /** A `message` relayed from another tab replaces the last message. */
    method OnMessage(data: Message)
      modifies this
      ensures lastMessage == Some(data) && isConnected == old(isConnected)
    {
      lastMessage := Some(data);
    }

    /**
     The test button: one `message` stamped with the clock reading `now`.
     The tab's own state is not touched (only the socket is modified).
     */
    method HandleTestMessage(now: int)
      modifies socket
      ensures socket.outbox == old(socket.outbox) + [MessageEvent(Message(TestText, now))]
    {
      socket.SendMessage(Message(TestText, now));
    }
  }
}
