# Shared-state synchronisation of the vehicle-dashboard demo, in Dafny

The dashboard is a browser page with media, climate, telephony and theme
panels. A small socket server relays three kinds of update between the open
tabs:

- `message`: a generic chat-like payload. It goes to every other tab and
  never back to its sender.
- `climateChange`: the climate record `{temp, fan, mode}`. It goes to every
  tab, the sender included.
- `mediaControl`: the media state `{idx, playing}`. It also goes to every
  tab, the sender included.

This project models that relay hub and the per-tab state that the panels
keep and reconcile against it. It then proves properties of the model.

- `events.dfy` (module `Events`): the event contract. It has the payload
  records, the `Event` datatype whose constructor is the wire tag, and the
  client `Socket`. Each `send*` wrapper of the socket appends exactly one
  tagged event to its `outbox`.
- `hub.dfy` (module `Hub`): the server. The hub's state is a value
  `HubState`: the set of live connection ids plus one inbox (a sequence of
  events) per id. `Connect`, `Disconnect` and `Relay` are its transitions,
  and `Run` applies a trace of them. The class `Server` holds the same state
  in fields that its handlers update in place. Each handler is proved
  against the matching function. The fan-out `Emit` hands the event to one
  recipient at a time.
- `app.dfy` (module `App`): the top-level component of a tab. It holds the
  connectivity flag and the last message received.
- `media_player.dfy` (module `MediaPlayer`): the media panel. It has the
  wrap-around index arithmetic and the class `Player` with next, previous,
  toggle, the received-update handler and the playback-rejection revert.
- `climate_control.dfy` (module `ClimateControl`): the climate panel. It has
  the single-field edit, the domains of the controls, and the class `Panel`.
  The panel sends its whole record whenever the record is replaced: on
  mount, after a local edit, and after a received update.
- `telephony.dfy` (module `Telephony`): the call log and the incoming-call
  slot.
- `theme_toggle.dfy` (module `ThemeToggle`): the default mode and the
  dark/light toggle.
- `sync.dfy` (module `Sync`): the hub and the tabs together. A tab's view of
  the three shared slices is folded over its inbox. The main result is that
  every tab that stays connected receives the same stream of climate and
  media updates in the same order, so all such tabs end on the most recently
  relayed values. `Sync.Dispatch` ties the view to the tab's own handler
  methods. Two three-tab scenarios are proved here, and so is the climate
  echo loop listed under Findings.

Clocks, the call history file and the playlist are parameters:

- `HandleTestMessage(now)` takes the time of `new Date()`.
- `SimulateIncoming(id, time)` takes `Date.now()` and `new Date()`.
- `Telephony.Panel` is built from the bundled call history.
- `Player` is built from the playlist length.
- `App.Shell` is built from the socket's `connected` flag at mount.

## Model

| member | source | states |
|---|---|---|
| `Events.Tag` | frontend/src/socket.js:10-19 | the three event kinds carry three distinct wire names: `message`, `mediaControl` and `climateChange` |
| `Events.Socket.constructor` | frontend/src/socket.js:7 | a freshly created socket has emitted nothing |
| `Events.Socket.SendMessage` | frontend/src/socket.js:10-12 | emits exactly one event, tagged `message`, carrying the payload unchanged; nothing else changes |
| `Events.Socket.SendMediaUpdate` | frontend/src/socket.js:13-15 | emits exactly one event, tagged `mediaControl`, carrying the state unchanged; nothing else changes |
| `Events.Socket.SendClimateUpdate` | frontend/src/socket.js:17-19 | emits exactly one event, tagged `climateChange`, carrying the record unchanged; nothing else changes |
| `Hub.Recipients` | backend/server.js:30-48 | recipients are live connections and include every live connection other than the sender; the sender is included if and only if the event is not a `message` |
| `Hub.Connect` | backend/server.js:26-27 | the id becomes live and gets an inbox if it had none; no existing inbox changes, nothing is sent, the invariant is kept |
| `Hub.Disconnect` | backend/server.js:51-53 | the id is no longer live; no inbox changes and nothing is sent |
| `Hub.Relay` | backend/server.js:30-48 | every other live connection gets the event exactly once, unchanged; a `message` leaves the sender's inbox as it was, while `climateChange`/`mediaControl` reach the sender exactly once; non-live ids get nothing; every inbox only grows at the end |
| `Hub.Step` | backend/server.js:26-53 | one connect, disconnect or received event keeps every live connection's inbox and never drops an inbox |
| `Hub.Run` | backend/server.js:26-53 | any trace keeps the invariant and never drops an inbox |
| `Hub.RunOnlyAppends` | backend/server.js:33-47 | along any trace, each inbox before is a prefix of the inbox after, so per-recipient arrival order is kept |
| `Hub.NoBacklog` | backend/server.js:26-53 | while a connection stays disconnected, nothing is added to its inbox, whatever the others send |
| `Hub.OwnMessagesNotEchoed` | backend/server.js:30-34 | if every `message` in a trace comes from `c`, no message is added to `c`'s inbox |
| `Hub.Server.constructor` | backend/server.js:18-23 | a new server has no connections and no inboxes |
| `Hub.Server.OnConnection` | backend/server.js:26-27 | the fields change exactly as `Connect` says |
| `Hub.Server.OnDisconnect` | backend/server.js:51-53 | the fields change exactly as `Disconnect` says |
| `Hub.Server.Emit` | backend/server.js:40 | after the fan-out, each recipient's inbox has the event appended once and every other inbox is unchanged |
| `Hub.Server.OnEvent` | backend/server.js:29-48 | the three handlers change the fields exactly as `Relay` says |
| `App.Shell.constructor` | frontend/src/App.jsx:11-12 | the flag starts as the socket's own state, and `lastMessage` starts empty |
| `App.Shell.OnConnect` | frontend/src/App.jsx:16-19 | the flag becomes true whatever it was; `lastMessage` is unchanged |
| `App.Shell.OnDisconnect` | frontend/src/App.jsx:22-25 | the flag becomes false whatever it was; `lastMessage` is unchanged |
| `App.Shell.OnMessage` | frontend/src/App.jsx:28-31 | `lastMessage` becomes the payload; the flag is unchanged |
| `App.Shell.HandleTestMessage` | frontend/src/App.jsx:47-49 | exactly one `message` with the fixed text and the given time is emitted; the tab's own state is untouched |
| `MediaPlayer.NextIndex` | frontend/src/components/MediaPlayer.jsx:49 | the result stays in `[0, n)`; it is `idx + 1` except that the last track wraps to 0 |
| `MediaPlayer.PrevIndex` | frontend/src/components/MediaPlayer.jsx:55 | the result stays in `[0, n)`; it is `idx - 1` except that the first track wraps to `n - 1` |
| `MediaPlayer.PrevNextInverse` | frontend/src/components/MediaPlayer.jsx:49-55 | previous undoes next and next undoes previous on every valid index |
| `MediaPlayer.FullCycle` | frontend/src/components/MediaPlayer.jsx:48-50 | `n` presses of next come back to the starting track |
| `MediaPlayer.Player.constructor` | frontend/src/components/MediaPlayer.jsx:8-9 | the panel starts on track 0, not playing |
| `MediaPlayer.Player.HandleNext` | frontend/src/components/MediaPlayer.jsx:48-52 | the index moves to the next track, `playing` is kept, and exactly the new `{idx, playing}` is emitted |
| `MediaPlayer.Player.HandlePrev` | frontend/src/components/MediaPlayer.jsx:54-58 | the index moves to the previous track, `playing` is kept, and exactly the new `{idx, playing}` is emitted |
| `MediaPlayer.Player.HandleTogglePlay` | frontend/src/components/MediaPlayer.jsx:61-65 | `playing` flips (so two toggles restore it), the index is kept, and the new state is emitted |
| `MediaPlayer.Player.HandleMediaUpdate` | frontend/src/components/MediaPlayer.jsx:29-32 | afterwards the local state equals the payload; a field is set if and only if it differed, so the echo of the tab's own send sets nothing; nothing is emitted |
| `MediaPlayer.Player.PlaybackRejected` | frontend/src/components/MediaPlayer.jsx:17-21 | `playing` becomes false, the index is kept, nothing is emitted |
| `ClimateControl.ApplyEdit` | frontend/src/components/ClimateControl.jsx:37-42 | only the named field changes, to the given value; an edit the controls can produce keeps the record in its domain |
| `ClimateControl.EditsKeepDomain` | frontend/src/components/ClimateControl.jsx:71-104 | from a record in the domain, any sequence of slider and button edits stays in the domain (temp 16..30, fan 1..5, mode Auto/Eco/Max AC) |
| `ClimateControl.Panel.constructor` | frontend/src/components/ClimateControl.jsx:9-34 | the record starts as `{22, 3, "Auto"}`, which is in the domain, and the mount run of the send effect emits it |
| `ClimateControl.Panel.HandleStateChange` | frontend/src/components/ClimateControl.jsx:31-42 | the record becomes the single-field edit of the old one, stays in the domain for control input, and exactly one `climateChange` with the whole new record is emitted |
| `ClimateControl.Panel.HandleClimateUpdate` | frontend/src/components/ClimateControl.jsx:17-34 | the payload replaces the whole record without validation, so the domain holds afterwards if and only if the payload was in it; the send effect then emits the record once more |
| `Telephony.LogCall` | frontend/src/components/Telephony.jsx:16-23 | the new log is one longer, starts with the call marked with the outcome, and is followed by the old log unchanged |
| `Telephony.Panel.constructor` | frontend/src/components/Telephony.jsx:5-6 | the log is the bundled history and there is no incoming call |
| `Telephony.Panel.SimulateIncoming` | frontend/src/components/Telephony.jsx:8-10 | the slot holds the fixed caller with type `incoming`; the log is unchanged |
| `Telephony.Panel.TimeoutExpires` | frontend/src/components/Telephony.jsx:11-13 | the slot is cleared, whatever call it holds; the log is unchanged |
| `Telephony.Panel.Answer` | frontend/src/components/Telephony.jsx:16-19 | the call is logged as `answered` in front of the old log, and the slot is cleared |
| `Telephony.Panel.Reject` | frontend/src/components/Telephony.jsx:21-24 | the call is logged as `rejected` in front of the old log, and the slot is cleared |
| `ThemeToggle.InitialMode` | frontend/src/components/ThemeToggle.jsx:5 | no stored mode and an empty stored mode both give `dark`; any other stored mode is used as it is; the result is never empty |
| `ThemeToggle.Toggle` | frontend/src/components/ThemeToggle.jsx:19 | the result is `dark` or `light`, and it is `light` exactly when the mode was `dark` |
| `ThemeToggle.ToggleTwice` | frontend/src/components/ThemeToggle.jsx:19 | two clicks restore `dark` and `light`; an unknown stored mode ends as `light` |
| `Sync.Receive` | frontend/src/App.jsx:28-31 | a received event overwrites exactly the slice of its own kind with its payload (the message handler here, and likewise the media handler at MediaPlayer.jsx:29-32 and the climate handler at ClimateControl.jsx:18-20) and leaves the other two slices as they were |
| `Sync.Dispatch` | frontend/src/components/MediaPlayer.jsx:28-35 | handing an event to the tab's own handler methods (`App.Shell.OnMessage`, `MediaPlayer.Player.HandleMediaUpdate`, `ClimateControl.Panel.HandleClimateUpdate`) leaves exactly the view `Receive` gives, keeps the connectivity flag, and sends the record again exactly when the event is a climate update; so every result about `Receive` holds for the handlers |
| `Sync.ReceiveIdempotent` | frontend/src/components/ClimateControl.jsx:17-20 | handling the same received event twice gives the same view as handling it once |
| `Sync.SlicesAreLatest` | frontend/src/App.jsx:28-31 | after handling an inbox, each slice holds the payload of the latest event of its kind, or its old value when there was none |
| `Sync.SameSharedStream` | backend/server.js:37-48 | every connection that stays connected along a trace receives exactly the climate and media updates the hub relayed, in relay order |
| `Sync.LastRelayedWins` | backend/server.js:37-48 | every tab that stays connected ends on the last relayed climate record and the last relayed media state, whatever it showed before |
| `Sync.RelayAsSeenByTabs` | backend/server.js:30-48 | after one relay, every live tab shows a climate or media update, the sender included; every other live tab shows a message, and the sender's view is unchanged |
| `Sync.ClimateScenario` | backend/server.js:37-41 | three tabs: after tab 1 sends {24, 2, Eco}, all three show it; after tab 2 then sends {18, 4, Max AC}, all three show that |
| `Sync.MessageScenario` | backend/server.js:30-34 | three tabs: tab 1's message is shown by tabs 2 and 3, and tab 1's view is unchanged |
| `Sync.LoneTab` | frontend/src/components/ClimateControl.jsx:31-34 | a lone tab on the hub for a number of rounds: each round relays the first pending record back to the tab, which (with `resend`, the emit that ends `ClimateControl.Panel.HandleClimateUpdate`) queues it to be sent again; the hub keeps only that tab live and keeps every inbox |
| `Sync.EchoNeverSettles` | frontend/src/components/ClimateControl.jsx:17-34 | as written, a lone tab that sends one record still has that record waiting to be sent after any number of rounds, and it has received the record once per round |
| `Sync.EchoSettles` | frontend/src/components/ClimateControl.jsx:17-34 | when a received record is shown but not re-sent, the lone tab is quiet after one round and has received its record exactly once |

## Findings

| source | as written | input that shows it | evidently intended | confidence | as-written member | corrected member |
|---|---|---|---|---|---|---|
| frontend/src/components/ClimateControl.jsx:17-34 | The send effect depends on the identity of the record. A received payload is always a new object, so after `setClimateState(data)` the effect sends the received record again. The hub returns it to every tab, the sender included, so the exchange never ends. With k tabs each round can multiply the traffic by up to k (fewer when several received records are batched into one render). | One tab connected; it mounts, which sends `{22, 3, "Auto"}` (or the user moves any slider). | A received update is shown and is not sent again, as the media panel does. The echo is then harmless and the traffic stops after one relay. | high; not executed (follows from React's identity check on effect dependencies) | `Sync.EchoNeverSettles` | `Sync.EchoSettles` |

`ClimateControl.Panel.HandleClimateUpdate` models the code as written,
re-send included. The tab view in `Sync` (`Receive`, `ReceiveAll`) is the
same with or without the re-send, and `Sync.Dispatch` proves that the
handler methods produce it. The traffic is what differs: `Sync.LoneTab`
with `resend` true is the code as written, and with `resend` false it is
the intended panel.

A repeated climate update leaves a tab's view unchanged
(`Sync.ReceiveIdempotent`), but the panel sends it again (the finding
above).

## Left out

- The socket.io transport is not modelled: handshake, CORS origin and
  methods, the port, reconnection, best-effort delivery, and what happens to
  the client `outbox` while disconnected. The hub's inboxes stand for what
  the transport hands to each connection.
- `console.log` calls and all JSX rendering are left out.
- MediaPlayer.Player.HandleMediaUpdate: each state setter is modelled as
  taking effect before the next event is handled. The source's listener
  compares the payload with the `idx` and `playing` of the last render, and
  setters called from socket callbacks wait for the next render; that
  snapshot is not modelled. Example: a tab on `{0, false}` receives
  `{1, false}` and then `{0, false}` before it re-renders. The source ends
  on idx 1 (the second update equals the stale snapshot and is skipped),
  while the model ends on the last payload, `{0, false}`. So "the state
  equals the payload", and the media halves of `Sync.SlicesAreLatest`,
  `Sync.LastRelayedWins` and `Sync.Dispatch`, hold when every update is
  rendered before the next one arrives. For the climate panel the same
  batching means its send effect fires once per render, not once per
  received record.
- Handler registration and removal (`socket.on` / `socket.off` in effects)
  are not modelled. Each handler is a method that is called when its event
  arrives.
- True multi-tab concurrency is not modelled. An interleaving is a trace of
  hub actions applied one at a time (`Hub.Run`), and each tab handles its
  inbox in order (`Sync.ReceiveAll`).
- In `Hub.Step`, an event from an id that is not live changes nothing. The
  server only runs handlers of live sockets.
- The generic message payload is opaque JSON in the source. Here it is the
  record the test button sends, `{text, timestamp}`. A falsy received
  payload (for example `null`, which the page then does not display) is not
  modelled.
- ThemeToggle's DOM `classList` and `localStorage` writes are left out. Its
  component state is left out too; only the initial-mode and toggle
  expressions are modelled.
- The `<audio>` play and pause calls are left out. Only the revert of
  `playing` when playback start is rejected is kept
  (`MediaPlayer.Player.PlaybackRejected`).
- The playlist contents and the `Array.isArray` guard are not modelled. The
  player takes the playlist length, and the handlers require that a track is
  shown, as the rendered buttons do.
- `Number(e.target.value)` is not modelled. The climate edits take integers,
  and `FromControls` says which values the sliders and buttons produce.
  `handleStateChange` with a field name other than the three is never
  called, so it is not modelled.
- The 10-second `setTimeout` in Telephony is the explicit step
  `TimeoutExpires`. Its timing is not modelled.
- The climate panel's send-receive loop is modelled for a lone tab only
  (`Sync.LoneTab`), round by round. Its growth with several tabs is
  described, not proved.
- `frontend/src/components/Navigation.jsx` is not part of this model:
  floating-point geometry, map calls, geolocation and route fetching.
- `frontend/src/components/VehicleInfo.jsx` is not part of this model:
  random, floating-point gauges and animation.
- `frontend/api.js`, `frontend/src/components/UserList.js` and
  `frontend/src/server/server.js` are not part of this model: HTTP fetch
  plumbing.
- `frontend/src/main.jsx` is not part of this model: React bootstrap only.
