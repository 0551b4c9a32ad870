/**
 The climate panel of one tab: one record `{temp, fan, mode}`. A local edit
 replaces one field; a received `climateChange` replaces the whole record
 without validation. The panel sends its whole record whenever the record is
 replaced, which happens on mount, after every local edit and after every
 received update (the record is a new object each time).
 */
module ClimateControl {
  import opened Events

  /** The modes offered by the mode buttons, in button order. */
  const Modes: seq<string> := ["Auto", "Eco", "Max AC"]

  const Initial := ClimateState(22, 3, "Auto")

  /** The ranges of the temperature and fan sliders, and the mode buttons. */
  predicate InDomain(s: ClimateState) {
    16 <= s.temp <= 30 && 1 <= s.fan <= 5 && s.mode in Modes
  }

  /** A change to one field, as the panel's controls produce it. */
  datatype Edit = SetTemp(temp: int) | SetFan(fan: int) | SetMode(mode: string)

  /** An edit that the slider or button could have produced. */
  predicate FromControls(ed: Edit) {
    match ed
    case SetTemp(t) => 16 <= t <= 30
    case SetFan(f) => 1 <= f <= 5
    case SetMode(m) => m in Modes
  }

  /** The record after a local edit: the named field takes the value, the others stay. */
  function ApplyEdit(s: ClimateState, ed: Edit): (r: ClimateState)
    ensures r.temp == (if ed.SetTemp? then ed.temp else s.temp)
    ensures r.fan == (if ed.SetFan? then ed.fan else s.fan)
    ensures r.mode == (if ed.SetMode? then ed.mode else s.mode)
    ensures InDomain(s) && FromControls(ed) ==> InDomain(r)
  {
    match ed
    case SetTemp(t) => s.(temp := t)
    case SetFan(f) => s.(fan := f)
    case SetMode(m) => s.(mode := m)
  }

  /** A sequence of local edits, applied in order. */
  function ApplyEdits(s: ClimateState, eds: seq<Edit>): (r: ClimateState)
    decreases |eds|
  {
    if eds == [] then s else ApplyEdits(ApplyEdit(s, eds[0]), eds[1..])
  }

  /** Starting in the domain, any sequence of control edits stays in the domain. */
  lemma {:induction false} EditsKeepDomain(s: ClimateState, eds: seq<Edit>)
    requires InDomain(s)
    requires forall i :: 0 <= i < |eds| ==> FromControls(eds[i])
    ensures InDomain(ApplyEdits(s, eds))
    decreases |eds|
  {
    if eds != [] {
      EditsKeepDomain(ApplyEdit(s, eds[0]), eds[1..]);
    }
  }

  /** The climate panel of one tab. */
  class Panel {
    const socket: Socket
    var state: ClimateState

    /** Mounting: the initial record, which the send effect broadcasts at once. */
    constructor (socket: Socket)
      modifies socket
      ensures this.socket == socket
      ensures state == Initial && InDomain(state)
      ensures socket.outbox == old(socket.outbox) + [ClimateChange(Initial)]
    {
      this.socket := socket;
      state := Initial;
      socket.SendClimateUpdate(Initial);
    }

    /** A slider or mode button: update one field, then send the whole record. */
    method HandleStateChange(ed: Edit)
      modifies this, socket
      ensures state == ApplyEdit(old(state), ed)
      ensures old(InDomain(state)) && FromControls(ed) ==> InDomain(state)
      ensures socket.outbox == old(socket.outbox) + [ClimateChange(state)]
    {
      state := ApplyEdit(state, ed);
      socket.SendClimateUpdate(state);
    }

    /**
     A received `climateChange`: the payload replaces the record unchecked, so
     the domain holds afterwards only when the payload was in it; the send
     effect then broadcasts the record again.
     */
    method HandleClimateUpdate(data: ClimateState)
      modifies this, socket
      ensures state == data
      ensures InDomain(state) <==> InDomain(data)
      ensures socket.outbox == old(socket.outbox) + [ClimateChange(data)]
    {
      state := data;
      socket.SendClimateUpdate(state);
    }
  }
}
