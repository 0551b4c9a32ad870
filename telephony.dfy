/**
 The telephony panel: a call log and an incoming-call slot. Answering or
 rejecting logs the call at the front of the log and clears the slot; a
 timer armed by each simulated call clears the slot when it expires.
 */
module Telephony {
  import opened Events

  /** One call record; `kind` is the record's `type` field. */
  datatype Call = Call(id: int, name: string, number: string, kind: string, time: int)

  /** The log after a call ends with `outcome`: the call, so marked, in front of the old log. */
  function LogCall(log: seq<Call>, c: Call, outcome: string): (r: seq<Call>)
    ensures |r| == |log| + 1
    ensures r[0] == c.(kind := outcome)
    ensures r[1..] == log
  {
    [c.(kind := outcome)] + log
  }

  class Panel {
    var calls: seq<Call>
    var incoming: Option<Call>

    /** `initialCalls` is the bundled call history. */
    constructor (initialCalls: seq<Call>)
      ensures calls == initialCalls && incoming == None
    {
      calls := initialCalls;
      incoming := None;
    }

    /**
     A simulated incoming call; `id` and `time` are two clock readings. The
     timer it arms is the separate step `TimeoutExpires`.
     */
    method SimulateIncoming(id: int, time: int)
      modifies this
      ensures incoming == Some(Call(id, "Anna Kumar", "+91 98765 43210", "incoming", time))
      ensures calls == old(calls)
    {
      incoming := Some(Call(id, "Anna Kumar", "+91 98765 43210", "incoming", time));
    }

    /** The timer fires: the slot is cleared, whichever call it then holds. */
    method TimeoutExpires()
      modifies this
      ensures incoming == None && calls == old(calls)
    {
      incoming := None;
    }

    method Answer(c: Call)
      modifies this
      ensures calls == LogCall(old(calls), c, "answered")
      ensures incoming == None
    {
      calls := LogCall(calls, c, "answered");
      incoming := None;
    }

    method Reject(c: Call)
      modifies this
      ensures calls == LogCall(old(calls), c, "rejected")
      ensures incoming == None
    {
      calls := LogCall(calls, c, "rejected");
      incoming := None;
    }
  }
}
