/**
 The message contract shared by the hub and every dashboard tab: the three
 kinds of update that travel over the channel, their payloads, and the
 client-side socket whose `send*` wrappers each emit exactly one of them.
 */
module Events {

  datatype Option<T> = None | Some(value: T)

  /** A generic chat-like message. The hub never looks inside it. */
  datatype Message = Message(text: string, timestamp: int)

  /** Media transport state: the track index and the playing flag. */
  datatype MediaState = MediaState(idx: int, playing: bool)

  /** Climate settings. The mode is a free string: nothing on the channel validates it. */
  datatype ClimateState = ClimateState(temp: int, fan: int, mode: string)

  /** One update on the channel; the constructor is the event tag, the field its payload. */
  datatype Event =
    | MessageEvent(message: Message)
    | MediaControl(media: MediaState)
    | ClimateChange(climate: ClimateState)

  /** The event name used on the wire. Distinct kinds get distinct names. */
  function Tag(e: Event): (t: string)
    ensures t == "message" <==> e.MessageEvent?
    ensures t == "mediaControl" <==> e.MediaControl?
    ensures t == "climateChange" <==> e.ClimateChange?
  {
    match e
    case MessageEvent(_) => "message"
    case MediaControl(_) => "mediaControl"
    case ClimateChange(_) => "climateChange"
  }

  /**
   The client's single shared socket. Emitting is modelled as appending to
   `outbox`; what the transport then does with the outbox is not modelled.
   */
  class Socket {
    var outbox: seq<Event>

    constructor ()
      ensures outbox == []
    {
      outbox := [];
    }

    method SendMessage(m: Message)
      modifies this
      ensures outbox == old(outbox) + [MessageEvent(m)]
      ensures Tag(outbox[|outbox| - 1]) == "message"
    {
      outbox := outbox + [MessageEvent(m)];
    }

    method SendMediaUpdate(s: MediaState)
      modifies this
      ensures outbox == old(outbox) + [MediaControl(s)]
      ensures Tag(outbox[|outbox| - 1]) == "mediaControl"
    {
      outbox := outbox + [MediaControl(s)];
    }

    method SendClimateUpdate(d: ClimateState)
      modifies this
      ensures outbox == old(outbox) + [ClimateChange(d)]
      ensures Tag(outbox[|outbox| - 1]) == "climateChange"
    {
      outbox := outbox + [ClimateChange(d)];
    }
  }
}
