/**
 The media panel of one tab: a track index into a playlist of `n` tracks and
 a playing flag. Local next/previous/toggle update the state and broadcast
 the new `{idx, playing}`; a received `mediaControl` re-applies only the
 fields that differ.
 */
module MediaPlayer {
  import opened Events

  /**
   The track after `idx`, wrapping from the last track to the first. The
   operands are never negative, so the source's `%` agrees with Dafny's.
   */
  function NextIndex(idx: int, n: int): (r: int)
    requires 0 <= idx < n
    ensures 0 <= r < n
    ensures idx < n - 1 ==> r == idx + 1
    ensures idx == n - 1 ==> r == 0
  {
    (idx + 1) % n
  }

  /** The track before `idx`, wrapping from the first track to the last. */
  function PrevIndex(idx: int, n: int): (r: int)
    requires 0 <= idx < n
    ensures 0 <= r < n
    ensures 0 < idx ==> r == idx - 1
    ensures idx == 0 ==> r == n - 1
  {
    (idx - 1 + n) % n
  }

  /** Previous undoes next, and next undoes previous, on every valid index. */
  lemma {:induction false} PrevNextInverse(idx: int, n: int)
    requires 0 <= idx < n
    ensures PrevIndex(NextIndex(idx, n), n) == idx
    ensures NextIndex(PrevIndex(idx, n), n) == idx
  {
    if idx == n - 1 {
      assert NextIndex(idx, n) == 0;
    } else {
      assert NextIndex(idx, n) == idx + 1;
    }
    if idx == 0 {
      assert PrevIndex(idx, n) == n - 1;
    } else {
      assert PrevIndex(idx, n) == idx - 1;
    }
  }

  /** `k` presses of next. */
  function Advance(idx: int, n: int, k: nat): (r: int)
    requires 0 <= idx < n
    ensures 0 <= r < n
  {
    if k == 0 then idx else NextIndex(Advance(idx, n, k - 1), n)
  }

  /** Before the end of the playlist is reached, `k` presses of next move `k` tracks on. */
  lemma {:induction false} AdvanceNoWrap(idx: int, n: int, k: nat)
    requires 0 <= idx && idx + k < n
    ensures Advance(idx, n, k) == idx + k
  {
    if k > 0 {
      AdvanceNoWrap(idx, n, k - 1);
    }
  }

  /** Pressing next `a` times and then `b` times is pressing it `a + b` times. */
  lemma {:induction false} AdvanceAdd(idx: int, n: int, a: nat, b: nat)
    requires 0 <= idx < n
    ensures Advance(idx, n, a + b) == Advance(Advance(idx, n, a), n, b)
  {
    if b > 0 {
      AdvanceAdd(idx, n, a, b - 1);
    }
  }

  /** A full cycle of `n` presses of next comes back to the starting track. */
  lemma {:induction false} FullCycle(idx: int, n: int)
    requires 0 <= idx < n
    ensures Advance(idx, n, n) == idx
  {
    AdvanceNoWrap(idx, n, n - 1 - idx);
    AdvanceAdd(idx, n, n - 1 - idx, idx + 1);
    AdvanceAdd(n - 1, n, 1, idx);
    assert Advance(n - 1, n, 1) == 0;
    AdvanceNoWrap(0, n, idx);
  }

  /** The media panel's state in one tab; `n` is the playlist length. */
  class Player {
    const n: nat
    const socket: Socket
    var idx: int
    var playing: bool

    /** The state as it is sent on the channel. */
    function Current(): MediaState
      reads this
    {
      MediaState(idx, playing)
    }

    /** A track is shown, so the transport buttons are on screen. */
    predicate HasTrack()
      reads this
    {
      0 <= idx < n
    }

    constructor (n: nat, socket: Socket)
      ensures this.n == n && this.socket == socket
      ensures idx == 0 && !playing
    {
      this.n := n;
      this.socket := socket;
      idx := 0;
      playing := false;
    }

    method HandleNext()
      requires HasTrack()
      modifies this, socket
      ensures idx == NextIndex(old(idx), n) && playing == old(playing)
      ensures socket.outbox == old(socket.outbox) + [MediaControl(Current())]
    {
      var newIndex := (idx + 1) % n;
      idx := newIndex;
      socket.SendMediaUpdate(MediaState(newIndex, playing));
    }

    method HandlePrev()
      requires HasTrack()
      modifies this, socket
      ensures idx == PrevIndex(old(idx), n) && playing == old(playing)
      ensures socket.outbox == old(socket.outbox) + [MediaControl(Current())]
    {
      var newIndex := (idx - 1 + n) % n;
      idx := newIndex;
      socket.SendMediaUpdate(MediaState(newIndex, playing));
    }

    method HandleTogglePlay()
      requires HasTrack()
      modifies this, socket
      ensures playing == !old(playing) && idx == old(idx)
      ensures socket.outbox == old(socket.outbox) + [MediaControl(Current())]
    {
      var newIsPlaying := !playing;
      playing := newIsPlaying;
      socket.SendMediaUpdate(MediaState(idx, newIsPlaying));
    }

    /**
     A received `mediaControl`: afterwards the local state equals the payload,
     and a field is set only when it differs, so the echo of this tab's own
     last send sets nothing.
     */
    method HandleMediaUpdate(state: MediaState) returns (setIdx: bool, setPlaying: bool)
      modifies this
      ensures Current() == state
      ensures setIdx <==> state.idx != old(idx)
      ensures setPlaying <==> state.playing != old(playing)
      ensures state == old(Current()) ==> !setIdx && !setPlaying
    {
      setIdx := state.idx != idx;
      if setIdx {
        idx := state.idx;
      }
      setPlaying := state.playing != playing;
      if setPlaying {
        playing := state.playing;
      }
    }

    /** The platform refused to start playback: revert the flag, tell no one. */
    method PlaybackRejected()
      modifies this
      ensures !playing && idx == old(idx)
    {
      playing := false;
    }
  }
}
