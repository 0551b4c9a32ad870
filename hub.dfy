/**
 The server's broadcast hub. It keeps the set of live connections and, for
 the purpose of the model, one inbox per connection id: the sequence of
 events the transport has handed to that connection. The relay rule is
 asymmetric: a `message` goes to every connection except its sender, while
 `climateChange` and `mediaControl` go to every connection, the sender
 included. Payloads are relayed as received.
 */
module Hub {
  import opened Events

  /** A connection id, as assigned by the transport on handshake. */
  type ConnId = nat

  /** The hub's observable state, as a value. */
  datatype HubState = HubState(connected: set<ConnId>, inbox: map<ConnId, seq<Event>>)

  /** Every live connection has an inbox. */
  predicate Valid(s: HubState) {
    s.connected <= s.inbox.Keys
  }

  const Empty := HubState({}, map[])

  /** The connections that receive an event sent by `sender`. */
  function Recipients(connected: set<ConnId>, sender: ConnId, e: Event): (r: set<ConnId>)
    ensures r <= connected
    ensures forall c :: c in connected && c != sender ==> c in r
    ensures sender in r <==> sender in connected && !e.MessageEvent?
  {
    match e
    case MessageEvent(_) => connected - {sender}   // socket.broadcast.emit
    case _ => connected                             // io.emit
  }

  /** Hands `e` once to each of `recipients`, leaving every other inbox alone. */
  function Deliver(inbox: map<ConnId, seq<Event>>, recipients: set<ConnId>, e: Event)
    : (r: map<ConnId, seq<Event>>)
    ensures r.Keys == inbox.Keys
    ensures forall c :: c in inbox && c in recipients ==> r[c] == inbox[c] + [e]
    ensures forall c :: c in inbox && c !in recipients ==> r[c] == inbox[c]
  {
    map c | c in inbox :: if c in recipients then inbox[c] + [e] else inbox[c]
  }

  /** A handshake completes: `c` becomes live; no inbox changes and nothing is sent. */
  function Connect(s: HubState, c: ConnId): (r: HubState)
    ensures r.connected == s.connected + {c}
    ensures c in r.inbox && r.inbox.Keys == s.inbox.Keys + {c}
    ensures forall d :: d in s.inbox ==> r.inbox[d] == s.inbox[d]
    ensures c !in s.inbox ==> r.inbox[c] == []
    ensures Valid(s) ==> Valid(r)
  {
    if c in s.inbox then HubState(s.connected + {c}, s.inbox)
    else HubState(s.connected + {c}, s.inbox[c := []])
  }

  /** A connection drops: `c` is no longer live; no inbox changes and nothing is sent. */
  function Disconnect(s: HubState, c: ConnId): (r: HubState)
    ensures r.connected == s.connected - {c}
    ensures c !in r.connected
    ensures r.inbox == s.inbox
    ensures Valid(s) ==> Valid(r)
  {
    HubState(s.connected - {c}, s.inbox)
  }

  /** The hub's reaction to event `e` arriving on the live connection `sender`. */
  function Relay(s: HubState, sender: ConnId, e: Event): (r: HubState)
    requires Valid(s) && sender in s.connected
    ensures Valid(r) && r.connected == s.connected && r.inbox.Keys == s.inbox.Keys
    // every other live connection receives the event exactly once, unchanged
    ensures forall c :: c in s.connected && c != sender ==> r.inbox[c] == s.inbox[c] + [e]
    // a message never comes back to its sender ...
    ensures e.MessageEvent? ==> r.inbox[sender] == s.inbox[sender]
    // ... while climate and media updates do, exactly once
    ensures !e.MessageEvent? ==> r.inbox[sender] == s.inbox[sender] + [e]
    // connections that are not live receive nothing
    ensures forall c :: c in s.inbox && c !in s.connected ==> r.inbox[c] == s.inbox[c]
    // relay only appends
    ensures forall c :: c in s.inbox ==> s.inbox[c] <= r.inbox[c]
  {
    HubState(s.connected, Deliver(s.inbox, Recipients(s.connected, sender, e), e))
  }

  /** One thing that can happen at the hub. */
  datatype Action = Join(id: ConnId) | Leave(id: ConnId) | Send(sender: ConnId, event: Event)

  /**
   One action. An event can only arrive on a live connection, so a `Send`
   from an id that is not connected leaves the state as it is.
   */
  function Step(s: HubState, a: Action): (r: HubState)
    requires Valid(s)
    ensures Valid(r) && s.inbox.Keys <= r.inbox.Keys
  {
    match a
    case Join(c) => Connect(s, c)
    case Leave(c) => Disconnect(s, c)
    case Send(c, e) => if c in s.connected then Relay(s, c, e) else s
  }

  /** A sequence of actions processed one at a time, in order. */
  function Run(s: HubState, acts: seq<Action>): (r: HubState)
    requires Valid(s)
    ensures Valid(r) && s.inbox.Keys <= r.inbox.Keys
    decreases |acts|
  {
    if acts == [] then s else Run(Step(s, acts[0]), acts[1..])
  }

  /** Running a trace in two parts is running it whole. */
  lemma {:induction false} RunAppend(s: HubState, a: seq<Action>, b: seq<Action>)
    requires Valid(s)
    ensures Run(s, a + b) == Run(Run(s, a), b)
    decreases |a|
  {
    if a == [] {
      assert a + b == b;
    } else {
      assert (a + b)[0] == a[0];
      assert (a + b)[1..] == a[1..] + b;
      RunAppend(Step(s, a[0]), a[1..], b);
    }
  }

  /**
   Along any run, inboxes only grow at the end: what a connection had
   received stays a prefix of what it has received, so arrival order is kept.
   */
  lemma {:induction false} RunOnlyAppends(s: HubState, acts: seq<Action>, c: ConnId)
    requires Valid(s) && c in s.inbox
    ensures c in Run(s, acts).inbox
    ensures s.inbox[c] <= Run(s, acts).inbox[c]
    decreases |acts|
  {
    if acts != [] {
      var t := Step(s, acts[0]);
      assert c in t.inbox && s.inbox[c] <= t.inbox[c];
      RunOnlyAppends(t, acts[1..], c);
    }
  }

  /**
   No backlog: while `c` stays disconnected, nothing is added to its inbox,
   whatever the other connections send.
   */
  lemma {:induction false} NoBacklog(s: HubState, acts: seq<Action>, c: ConnId)
    requires Valid(s) && c in s.inbox && c !in s.connected
    requires forall i :: 0 <= i < |acts| ==> acts[i] != Join(c)
    ensures c !in Run(s, acts).connected
    ensures Run(s, acts).inbox[c] == s.inbox[c]
    decreases |acts|
  {
    if acts != [] {
      var t := Step(s, acts[0]);
      assert c !in t.connected && t.inbox[c] == s.inbox[c] by {
        assert acts[0] != Join(c);
      }
      NoBacklog(t, acts[1..], c);
    }
  }

  /** The generic messages among `evs`, in order. */
  function Messages(evs: seq<Event>): seq<Message> {
    if evs == [] then []
    else (if evs[0].MessageEvent? then [evs[0].message] else []) + Messages(evs[1..])
  }

  lemma {:induction false} MessagesAppend(a: seq<Event>, b: seq<Event>)
    ensures Messages(a + b) == Messages(a) + Messages(b)
    decreases |a|
  {
    if a == [] {
      assert a + b == b;
    } else {
      assert (a + b)[0] == a[0];
      assert (a + b)[1..] == a[1..] + b;
      MessagesAppend(a[1..], b);
    }
  }

  /**
   A connection never sees its own messages: if every `message` in a run is
   sent by `c`, then no message is added to `c`'s inbox.
   */
  lemma {:induction false} OwnMessagesNotEchoed(s: HubState, acts: seq<Action>, c: ConnId)
    requires Valid(s) && c in s.inbox
    requires forall i :: 0 <= i < |acts| && acts[i].Send? && acts[i].event.MessageEvent?
                         ==> acts[i].sender == c
    ensures Messages(Run(s, acts).inbox[c]) == Messages(s.inbox[c])
    decreases |acts|
  {
    if acts != [] {
      var t := Step(s, acts[0]);
      assert Messages(t.inbox[c]) == Messages(s.inbox[c]) by {
        match acts[0]
        case Join(_) =>
        case Leave(_) =>
        case Send(d, e) =>
          if d in s.connected && c in s.connected && !(c == d && e.MessageEvent?) {
            assert !e.MessageEvent?;
            assert t.inbox[c] == s.inbox[c] + [e];
            MessagesAppend(s.inbox[c], [e]);
            assert Messages([e]) == [];
          }
      }
      OwnMessagesNotEchoed(t, acts[1..], c);
    }
  }

  /**
   The hub as the server holds it: the connection set and the inboxes are
   fields that connect, disconnect and each relay update in place.
   */
  class Server {
    var connected: set<ConnId>
    var inbox: map<ConnId, seq<Event>>

    function State(): HubState
      reads this
    {
      HubState(connected, inbox)
    }

    constructor ()
      ensures State() == Empty
    {
      connected := {};
      inbox := map[];
    }

    method OnConnection(c: ConnId)
      requires Valid(State())
      modifies this
      ensures State() == Connect(old(State()), c)
    {
      connected := connected + {c};
      if c !in inbox {
        inbox := inbox[c := []];
      }
    }

    method OnDisconnect(c: ConnId)
      requires Valid(State())
      modifies this
      ensures State() == Disconnect(old(State()), c)
    {
      connected := connected - {c};
    }

    /** The transport's fan-out: one recipient at a time, each exactly once. */
    method Emit(recipients: set<ConnId>, e: Event)
      requires recipients <= inbox.Keys
      modifies this
      ensures connected == old(connected)
      ensures inbox == Deliver(old(inbox), recipients, e)
    {
      var pending := recipients;
      while pending != {}
        invariant pending <= recipients
        invariant connected == old(connected)
        invariant inbox == Deliver(old(inbox), recipients - pending, e)
        decreases pending
      {
        var c :| c in pending;
        inbox := inbox[c := inbox[c] + [e]];
        pending := pending - {c};
      }
    }

    /** The three handlers the server installs on each connection. */
    method OnEvent(sender: ConnId, e: Event)
      requires Valid(State()) && sender in connected
      modifies this
      ensures State() == Relay(old(State()), sender, e)
    {
      match e {
        case MessageEvent(_) =>
          // to every other connection
          Emit(connected - {sender}, e);
        case ClimateChange(_) =>
          // to every connection, the sender included
          Emit(connected, e);
        case MediaControl(_) =>
          Emit(connected, e);
      }
    }
  }
}
