/**
 The hub and the tabs together. Each tab keeps one local copy of every
 shared slice (the last generic message, the media state, the climate
 record) and applies the events of its inbox in arrival order. Because the
 hub relays climate and media updates to every live connection in the order
 it receives them, every tab that stays connected sees the same stream of
 those updates, and so ends on the same, most recently relayed, values.
 */
module Sync {
  import opened Events
  import opened Hub
  import App
  import MediaPlayer
  import ClimateControl

  /** What one tab holds of the shared slices. */
  datatype TabView = TabView(lastMessage: Option<Message>, media: MediaState, climate: ClimateState)

  /**
   The tab's handlers for one received event: the message handler, the media
   handler and the climate handler each overwrite their own slice with the
   payload and leave the other slices alone.
   */
  function Receive(t: TabView, e: Event): (r: TabView)
    ensures r.lastMessage == (if e.MessageEvent? then Some(e.message) else t.lastMessage)
    ensures r.media == (if e.MediaControl? then e.media else t.media)
    ensures r.climate == (if e.ClimateChange? then e.climate else t.climate)
  {
    match e
    case MessageEvent(m) => t.(lastMessage := Some(m))
    case MediaControl(x) => t.(media := x)
    case ClimateChange(x) => t.(climate := x)
  }

  /**
   One received event, handled by the tab's own components: the shell takes
   a message, the media player a media update, the climate panel a climate
   record. The view they hold afterwards is `Receive` of the view before.
   Only a climate record makes the tab send anything: the panel's send
   effect broadcasts the record again.
   */
  method Dispatch(shell: App.Shell, player: MediaPlayer.Player, panel: ClimateControl.Panel, e: Event)
    modifies shell, player, panel, panel.socket
    ensures TabView(shell.lastMessage, player.Current(), panel.state)
              == Receive(old(TabView(shell.lastMessage, player.Current(), panel.state)), e)
    ensures shell.isConnected == old(shell.isConnected)
    ensures e.ClimateChange? ==> panel.socket.outbox == old(panel.socket.outbox) + [e]
    ensures !e.ClimateChange? ==> panel.socket.outbox == old(panel.socket.outbox)
  {
    match e
    case MessageEvent(m) =>
      shell.OnMessage(m);
    case MediaControl(x) =>
      var _, _ := player.HandleMediaUpdate(x);
    case ClimateChange(x) =>
      panel.HandleClimateUpdate(x);
  }

  /** The events of an inbox, handled in arrival order. */
  function ReceiveAll(t: TabView, evs: seq<Event>): TabView
    decreases |evs|
  {
    if evs == [] then t else Receive(ReceiveAll(t, evs[..|evs| - 1]), evs[|evs| - 1])
  }

  /** Receiving the same event twice is receiving it once: an echo is harmless. */
  lemma {:induction false} ReceiveIdempotent(t: TabView, e: Event)
    ensures Receive(Receive(t, e), e) == Receive(t, e)
  {
    match e
    case MessageEvent(m) =>
    case MediaControl(x) =>
    case ClimateChange(x) =>
  }

  /** The climate and media updates among `evs`, in order. */
  function Shared(evs: seq<Event>): seq<Event>
    decreases |evs|
  {
    if evs == [] then []
    else
      var last := evs[|evs| - 1];
      Shared(evs[..|evs| - 1]) + (if last.MessageEvent? then [] else [last])
  }

  lemma {:induction false} SharedAppend(a: seq<Event>, b: seq<Event>)
    ensures Shared(a + b) == Shared(a) + Shared(b)
    decreases |b|
  {
    if b == [] {
      assert a + b == a;
    } else {
      var last := b[|b| - 1];
      assert (a + b)[..|a + b| - 1] == a + b[..|b| - 1];
      assert (a + b)[|a + b| - 1] == last;
      SharedAppend(a, b[..|b| - 1]);
    }
  }

  /** The latest climate record among `evs`, if any. */
  function LatestClimate(evs: seq<Event>): Option<ClimateState>
    decreases |evs|
  {
    if evs == [] then None
    else if evs[|evs| - 1].ClimateChange? then Some(evs[|evs| - 1].climate)
    else LatestClimate(evs[..|evs| - 1])
  }

  /** The latest media state among `evs`, if any. */
  function LatestMedia(evs: seq<Event>): Option<MediaState>
    decreases |evs|
  {
    if evs == [] then None
    else if evs[|evs| - 1].MediaControl? then Some(evs[|evs| - 1].media)
    else LatestMedia(evs[..|evs| - 1])
  }

  /** The latest generic message among `evs`, if any. */
  function LatestMessage(evs: seq<Event>): Option<Message>
    decreases |evs|
  {
    if evs == [] then None
    else if evs[|evs| - 1].MessageEvent? then Some(evs[|evs| - 1].message)
    else LatestMessage(evs[..|evs| - 1])
  }

  /**
   Last received wins: after handling an inbox, each slice holds the payload
   of the latest event of its kind, or its old value when there was none.
   */
  lemma {:induction false} SlicesAreLatest(t: TabView, evs: seq<Event>)
    ensures ReceiveAll(t, evs).climate
              == (if LatestClimate(evs).Some? then LatestClimate(evs).value else t.climate)
    ensures ReceiveAll(t, evs).media
              == (if LatestMedia(evs).Some? then LatestMedia(evs).value else t.media)
    ensures ReceiveAll(t, evs).lastMessage
              == (if LatestMessage(evs).Some? then LatestMessage(evs) else t.lastMessage)
    decreases |evs|
  {
    if evs != [] {
      SlicesAreLatest(t, evs[..|evs| - 1]);
    }
  }

  /** Generic messages do not bear on the climate and media slices. */
  lemma {:induction false} LatestOfShared(evs: seq<Event>)
    ensures LatestClimate(Shared(evs)) == LatestClimate(evs)
    ensures LatestMedia(Shared(evs)) == LatestMedia(evs)
    decreases |evs|
  {
    if evs != [] {
      var init := evs[..|evs| - 1];
      var last := evs[|evs| - 1];
      LatestOfShared(init);
      if last.MessageEvent? {
        assert Shared(evs) == Shared(init);
        assert LatestClimate(evs) == LatestClimate(init);
        assert LatestMedia(evs) == LatestMedia(init);
      } else {
        var sh := Shared(init) + [last];
        assert Shared(evs) == sh;
        assert sh[..|sh| - 1] == Shared(init);
        assert sh[|sh| - 1] == last;
      }
    }
  }

  /** When `b` holds an update of a kind, what came before it in `a` no longer matters. */
  lemma {:induction false} LatestAppend(a: seq<Event>, b: seq<Event>)
    ensures LatestClimate(b).Some? ==> LatestClimate(a + b) == LatestClimate(b)
    ensures LatestMedia(b).Some? ==> LatestMedia(a + b) == LatestMedia(b)
    ensures LatestClimate(b).None? ==> LatestClimate(a + b) == LatestClimate(a)
    ensures LatestMedia(b).None? ==> LatestMedia(a + b) == LatestMedia(a)
    decreases |b|
  {
    if b == [] {
      assert a + b == a;
    } else {
      assert (a + b)[..|a + b| - 1] == a + b[..|b| - 1];
      assert (a + b)[|a + b| - 1] == b[|b| - 1];
      LatestAppend(a, b[..|b| - 1]);
    }
  }

  /** The climate and media updates the hub relays along a run, in relay order. */
  function RelayedShared(s: HubState, acts: seq<Action>): seq<Event>
    requires Valid(s)
    decreases |acts|
  {
    if acts == [] then []
    else
      RelayedBy(s, acts[0]) + RelayedShared(Step(s, acts[0]), acts[1..])
  }

  /** The climate or media update that one action makes the hub relay, if any. */
  function RelayedBy(s: HubState, a: Action): seq<Event> {
    if a.Send? && a.sender in s.connected && !a.event.MessageEvent? then [a.event] else []
  }

  /** One step of `SameSharedStream`. */
  lemma {:induction false} StepShared(s: HubState, a: Action, c: ConnId)
    requires Valid(s) && c in s.connected && a != Leave(c)
    ensures c in Step(s, a).connected
    ensures Shared(Step(s, a).inbox[c]) == Shared(s.inbox[c]) + RelayedBy(s, a)
  {
  }

  /**
   Every connection that stays connected along a run receives exactly the
   same climate and media updates, in the same order: those the hub relayed.
   */
  lemma {:induction false} SameSharedStream(s: HubState, acts: seq<Action>, c: ConnId)
    requires Valid(s) && c in s.connected
    requires forall i :: 0 <= i < |acts| ==> acts[i] != Leave(c)
    ensures c in Run(s, acts).connected
    ensures Shared(Run(s, acts).inbox[c]) == Shared(s.inbox[c]) + RelayedShared(s, acts)
    decreases |acts|
  {
    if acts == [] {
      assert Shared(s.inbox[c]) + [] == Shared(s.inbox[c]);
    } else {
      var a, rest := acts[0], acts[1..];
      var t := Step(s, a);
      var before, now, later := Shared(s.inbox[c]), RelayedBy(s, a), RelayedShared(t, rest);
      assert c in Run(s, acts).connected
          && Shared(Run(s, acts).inbox[c]) == (before + now) + later by {
        assert a != Leave(c);
        StepShared(s, a, c);
        assert forall i :: 0 <= i < |rest| ==> rest[i] != Leave(c) by {
          forall i | 0 <= i < |rest| ensures rest[i] != Leave(c) {
            assert rest[i] == acts[i + 1];
          }
        }
        SameSharedStream(t, rest, c);
        assert Run(s, acts) == Run(t, rest);
      }
      assert RelayedShared(s, acts) == now + later;
    }
  }

  /**
   Convergence. Two tabs that stay connected along a run and then handle
   their inboxes show the same climate record, namely the last one the hub
   relayed, whatever they showed before; likewise for the media state.
   */
  lemma {:induction false} LastRelayedWins(s: HubState, acts: seq<Action>, c: ConnId, t: TabView)
    requires Valid(s) && c in s.connected
    requires forall i :: 0 <= i < |acts| ==> acts[i] != Leave(c)
    ensures LatestClimate(RelayedShared(s, acts)).Some? ==>
              ReceiveAll(t, Run(s, acts).inbox[c]).climate
                == LatestClimate(RelayedShared(s, acts)).value
    ensures LatestMedia(RelayedShared(s, acts)).Some? ==>
              ReceiveAll(t, Run(s, acts).inbox[c]).media
                == LatestMedia(RelayedShared(s, acts)).value
  {
    var inbox := Run(s, acts).inbox[c];
    var relayed := RelayedShared(s, acts);
    SameSharedStream(s, acts, c);
    SlicesAreLatest(t, inbox);
    LatestOfShared(inbox);
    LatestAppend(Shared(s.inbox[c]), relayed);
  }

  /**
   One relay seen from the tabs: a climate or media update from `sender` is
   shown by every live tab, the sender included; a generic message is shown
   by every other live tab and leaves the sender's view as it was.
   */
  lemma {:induction false} RelayAsSeenByTabs(s: HubState, sender: ConnId, e: Event, c: ConnId, t: TabView)
    requires Valid(s) && sender in s.connected && c in s.connected
    ensures e.ClimateChange? ==>
              ReceiveAll(t, Relay(s, sender, e).inbox[c]).climate == e.climate
    ensures e.MediaControl? ==>
              ReceiveAll(t, Relay(s, sender, e).inbox[c]).media == e.media
    ensures e.MessageEvent? && c != sender ==>
              ReceiveAll(t, Relay(s, sender, e).inbox[c]).lastMessage == Some(e.message)
    ensures e.MessageEvent? ==>
              ReceiveAll(t, Relay(s, sender, e).inbox[sender]) == ReceiveAll(t, s.inbox[sender])
  {
    var inbox := Relay(s, sender, e).inbox[c];
    if !e.MessageEvent? || c != sender {
      assert inbox == s.inbox[c] + [e];
      assert inbox[..|inbox| - 1] == s.inbox[c];
    }
  }

  // Three tabs, ids 1, 2 and 3.

  const Tabs: seq<Action> := [Join(1), Join(2), Join(3)]

  const ThreeIdle := HubState({1, 2, 3}, map[1 := [], 2 := [], 3 := []])

  lemma {:induction false} TabsJoin()
    ensures Run(Empty, Tabs) == ThreeIdle
  {
  }

  /** The three tabs join, then `a` happens. */
  lemma {:induction false} AfterJoin(a: Action)
    ensures Run(Empty, Tabs + [a]) == Step(ThreeIdle, a)
  {
    TabsJoin();
    RunAppend(Empty, Tabs, [a]);
    assert Run(ThreeIdle, [a]) == Run(Step(ThreeIdle, a), []);
  }

  /**
   Tab 1 sends {24, 2, "Eco"}: all three tabs, tab 1 included, show it. Tab 2
   then sends {18, 4, "Max AC"}: all three tabs end on that record.
   */
  lemma {:induction false} ClimateScenario(t1: TabView, t2: TabView, t3: TabView)
    ensures var s := Run(Empty, Tabs + [Send(1, ClimateChange(ClimateState(24, 2, "Eco")))]);
            && {1, 2, 3} <= s.inbox.Keys
            && ReceiveAll(t1, s.inbox[1]).climate == ClimateState(24, 2, "Eco")
            && ReceiveAll(t2, s.inbox[2]).climate == ClimateState(24, 2, "Eco")
            && ReceiveAll(t3, s.inbox[3]).climate == ClimateState(24, 2, "Eco")
    ensures var s := Run(Empty, Tabs + [Send(1, ClimateChange(ClimateState(24, 2, "Eco"))),
                                        Send(2, ClimateChange(ClimateState(18, 4, "Max AC")))]);
            && {1, 2, 3} <= s.inbox.Keys
            && ReceiveAll(t1, s.inbox[1]).climate == ClimateState(18, 4, "Max AC")
            && ReceiveAll(t2, s.inbox[2]).climate == ClimateState(18, 4, "Max AC")
            && ReceiveAll(t3, s.inbox[3]).climate == ClimateState(18, 4, "Max AC")
  {
    var e1 := ClimateChange(ClimateState(24, 2, "Eco"));
    var e2 := ClimateChange(ClimateState(18, 4, "Max AC"));
    AfterJoin(Send(1, e1));
    var s1 := Relay(ThreeIdle, 1, e1);
    RelayAsSeenByTabs(ThreeIdle, 1, e1, 1, t1);
    RelayAsSeenByTabs(ThreeIdle, 1, e1, 2, t2);
    RelayAsSeenByTabs(ThreeIdle, 1, e1, 3, t3);
    TabsJoin();
    assert Tabs + [Send(1, e1), Send(2, e2)] == (Tabs + [Send(1, e1)]) + [Send(2, e2)];
    RunAppend(Empty, Tabs + [Send(1, e1)], [Send(2, e2)]);
    assert Run(s1, [Send(2, e2)]) == Run(Relay(s1, 2, e2), []);
    RelayAsSeenByTabs(s1, 2, e2, 1, t1);
    RelayAsSeenByTabs(s1, 2, e2, 2, t2);
    RelayAsSeenByTabs(s1, 2, e2, 3, t3);
  }

  /** Tab 1 sends a message: tabs 2 and 3 show it; tab 1's view does not change. */
  lemma {:induction false} MessageScenario(t1: TabView, t2: TabView, t3: TabView)
    ensures var s := Run(Empty, Tabs + [Send(1, MessageEvent(Message("hi", 0)))]);
            && {1, 2, 3} <= s.inbox.Keys
            && ReceiveAll(t1, s.inbox[1]) == t1
            && ReceiveAll(t2, s.inbox[2]).lastMessage == Some(Message("hi", 0))
            && ReceiveAll(t3, s.inbox[3]).lastMessage == Some(Message("hi", 0))
  {
    var e := MessageEvent(Message("hi", 0));
    AfterJoin(Send(1, e));
    RelayAsSeenByTabs(ThreeIdle, 1, e, 1, t1);
    RelayAsSeenByTabs(ThreeIdle, 1, e, 2, t2);
    RelayAsSeenByTabs(ThreeIdle, 1, e, 3, t3);
  }

  // The climate panel's send effect, seen from the hub.

  /**
   A tab `c` alone on the hub, with climate records waiting in `pending` to
   be sent, run for `rounds` rounds. In each round the hub relays the first
   pending record, which comes back to `c` because climate updates reach
   their sender too; the panel then shows the record and, when `resend`
   holds, sends it out again. `resend == true` is the emit at the end of
   `ClimateControl.Panel.HandleClimateUpdate` (see also `Dispatch`), the
   send effect firing after every replacement of the record; `resend ==
   false` is a panel that only shows what it receives.
   */
  function LoneTab(s: HubState, c: ConnId, pending: seq<ClimateState>, rounds: nat, resend: bool)
    : (r: (HubState, seq<ClimateState>))
    requires Valid(s) && s.connected == {c}
    ensures Valid(r.0) && r.0.connected == {c} && r.0.inbox.Keys == s.inbox.Keys
    decreases rounds
  {
    if rounds == 0 || pending == [] then (s, pending)
    else
      var x := pending[0];
      var answer := if resend then [x] else [];
      LoneTab(Relay(s, c, ClimateChange(x)), c, pending[1..] + answer, rounds - 1, resend)
  }

  /** `k` copies of the same climate update. */
  function Copies(x: ClimateState, k: nat): (r: seq<Event>)
    ensures |r| == k
    ensures forall i :: 0 <= i < k ==> r[i] == ClimateChange(x)
  {
    if k == 0 then [] else Copies(x, k - 1) + [ClimateChange(x)]
  }

  /**
   As written, one record sent by a lone tab never stops travelling: after
   any number of rounds the same record is still waiting to be sent, and the
   tab has received it once per round.
   */
  lemma {:induction false} EchoNeverSettles(s: HubState, c: ConnId, x: ClimateState, rounds: nat)
    requires Valid(s) && s.connected == {c}
    ensures LoneTab(s, c, [x], rounds, true).1 == [x]
    ensures LoneTab(s, c, [x], rounds, true).0.inbox[c] == s.inbox[c] + Copies(x, rounds)
    decreases rounds
  {
    if rounds == 0 {
      assert s.inbox[c] + [] == s.inbox[c];
    } else {
      var s1 := Relay(s, c, ClimateChange(x));
      assert [x][1..] + [x] == [x];
      assert LoneTab(s, c, [x], rounds, true) == LoneTab(s1, c, [x], rounds - 1, true);
      EchoNeverSettles(s1, c, x, rounds - 1);
      CopiesShift(x, rounds - 1);
    }
  }

  lemma {:induction false} CopiesShift(x: ClimateState, k: nat)
    ensures [ClimateChange(x)] + Copies(x, k) == Copies(x, k + 1)
  {
  }

  /**
   When a received record is shown but not sent again, the same lone tab is
   quiet after one round: nothing waits to be sent, and the tab has received
   its record exactly once.
   */
  lemma {:induction false} EchoSettles(s: HubState, c: ConnId, x: ClimateState, rounds: nat)
    requires Valid(s) && s.connected == {c} && rounds >= 1
    ensures LoneTab(s, c, [x], rounds, false).1 == []
    ensures LoneTab(s, c, [x], rounds, false).0.inbox[c] == s.inbox[c] + [ClimateChange(x)]
  {
    var s1 := Relay(s, c, ClimateChange(x));
    assert [x][1..] + [] == [];
    assert LoneTab(s, c, [x], rounds, false) == LoneTab(s1, c, [], rounds - 1, false);
  }
}
