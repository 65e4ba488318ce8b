/** The process-wide store of the three streams
    (src/shared/store/websocket-store.ts). Each stream (AI, heart rate BPM,
    contractions UC) has the same three cells: a buffer capped at
    MAX_DATA_POINTS, the last message received, and the connection status.
    The source writes the three streams out three times; here one `Stream`
    class is instantiated three times by `Store`, and the per-stream actions
    `add*Message`, `set*Status` and `clear*Data` are its methods. */
module WebSocketStore {
  import opened Common
  import opened Types

  const MAX_DATA_POINTS: nat := 1000

  /** The newest `MAX_DATA_POINTS` elements of `s`, in arrival order. */
  function Newest<M>(s: seq<M>): (r: seq<M>)
    ensures |r| == Min(|s|, MAX_DATA_POINTS)
  {
    s[|s| - Min(|s|, MAX_DATA_POINTS)..]
  }

  /** The buffer after one append: concatenate, then keep the tail.
      `Stream.Add` performs it in place. */
  function Append<M>(buffer: seq<M>, msg: M): (r: seq<M>)
    ensures |r| == Min(|buffer| + 1, MAX_DATA_POINTS)
    ensures r[|r| - 1] == msg
    ensures |buffer| < MAX_DATA_POINTS ==> r == buffer + [msg]
    ensures |buffer| == MAX_DATA_POINTS ==> r == buffer[1..] + [msg]
    ensures r == Newest(buffer + [msg])
  {
    var grown := buffer + [msg];
    if |grown| > MAX_DATA_POINTS then grown[|grown| - MAX_DATA_POINTS..] else grown
  }

  /** Keeping the newest of the newest is keeping the newest. */
  lemma NewestOfNewest<M>(s: seq<M>, m: M)
    ensures Newest(Newest(s) + [m]) == Newest(s + [m])
  {
    var n := Newest(s);
    if |s| < MAX_DATA_POINTS {
      assert n == s;
    } else {
      assert (n + [m])[1..] == (s + [m])[|s| + 1 - MAX_DATA_POINTS..];
    }
  }

  /** The buffer after appending every message of `msgs`, one at a time:
      however many messages arrive, it holds exactly the newest
      MAX_DATA_POINTS of everything appended, in arrival order. */
  function AppendAll<M>(buffer: seq<M>, msgs: seq<M>): (r: seq<M>)
    requires |buffer| <= MAX_DATA_POINTS
    ensures r == Newest(buffer + msgs)
    ensures |r| == Min(|buffer| + |msgs|, MAX_DATA_POINTS)
    decreases |msgs|
  {
    if msgs == [] then
      assert buffer + msgs == buffer;
      buffer
    else
      var init, m := msgs[..|msgs| - 1], msgs[|msgs| - 1];
      var before := AppendAll(buffer, init);
      NewestOfNewest(buffer + init, m);
      assert (buffer + init) + [m] == buffer + msgs;
      Append(before, m)
  }

  /** One stream's cells. */
  class Stream<M> {
    var data: seq<M>
    var last: Option<M>
    var status: SocketStatus

    /** The buffer is bounded and `last` is its newest element, or None
        when the buffer is empty. */
    ghost predicate Valid()
      reads this
    {
      && |data| <= MAX_DATA_POINTS
      && last == (if data == [] then None else Some(data[|data| - 1]))
    }

    /** initialState: empty buffer, no last message, disconnected. */
    constructor ()
      ensures Valid()
      ensures data == [] && last == None && status == Disconnected
    {
      data := [];
      last := None;
      status := Disconnected;
    }

    /** add{AI,BPM,UC}Message */
    method Add(msg: M)
      requires Valid()
      modifies this
      ensures Valid()
      ensures data == Append(old(data), msg)
      ensures last == Some(msg)
      ensures status == old(status)
    {
      var grown := data + [msg];
      data := if |grown| > MAX_DATA_POINTS then grown[|grown| - MAX_DATA_POINTS..] else grown;
      last := Some(msg);
    }

    /** set{AI,BPM,UC}Status */
    method SetStatus(s: SocketStatus)
      requires Valid()
      modifies this
      ensures Valid()
      ensures status == s
      ensures data == old(data) && last == old(last)
    {
      status := s;
    }

    /** clear{AI,BPM,UC}Data */
    method Clear()
      requires Valid()
      modifies this
      ensures Valid()
      ensures data == [] && last == None
      ensures status == old(status)
    {
      data := [];
      last := None;
    }
  }

  /** The whole store: three independent streams. */
  class Store {
    const ai: Stream<AIMessage>
    const bpm: Stream<Sample>
    const uc: Stream<Sample>

    ghost predicate Valid()
      reads this, ai, bpm, uc
    {
      ai.Valid() && bpm.Valid() && uc.Valid() && bpm != uc
    }

    /** initialState for all three streams. */
    constructor ()
      ensures Valid() && fresh(ai) && fresh(bpm) && fresh(uc)
      ensures ai.data == [] && bpm.data == [] && uc.data == []
      ensures ai.last == None && bpm.last == None && uc.last == None
      ensures ai.status == Disconnected && bpm.status == Disconnected && uc.status == Disconnected
    {
      ai := new Stream();
      bpm := new Stream();
      uc := new Stream();
    }

    /** clearAllData: every buffer and last cell reset, statuses kept. */
    method ClearAllData()
      requires Valid()
      modifies ai, bpm, uc
      ensures Valid()
      ensures ai.data == [] && bpm.data == [] && uc.data == []
      ensures ai.last == None && bpm.last == None && uc.last == None
      ensures ai.status == old(ai.status) && bpm.status == old(bpm.status) && uc.status == old(uc.status)
    {
      ai.Clear();
      bpm.Clear();
      uc.Clear();
    }

    /** resetAllStatuses: every status disconnected, data kept. */
    method ResetAllStatuses()
      requires Valid()
      modifies ai, bpm, uc
      ensures Valid()
      ensures ai.status == Disconnected && bpm.status == Disconnected && uc.status == Disconnected
      ensures ai.data == old(ai.data) && bpm.data == old(bpm.data) && uc.data == old(uc.data)
      ensures ai.last == old(ai.last) && bpm.last == old(bpm.last) && uc.last == old(uc.last)
    {
      ai.SetStatus(Disconnected);
      bpm.SetStatus(Disconnected);
      uc.SetStatus(Disconnected);
    }
  }

  /** Appending to the heart-rate stream leaves the other two streams and
      the heart-rate status untouched. */
  method AddBPMIsolated(store: Store, msg: Sample)
    requires store.Valid()
    modifies store.bpm
    ensures store.Valid()
    ensures store.bpm.data == Append(old(store.bpm.data), msg) && store.bpm.last == Some(msg)
    ensures store.bpm.status == old(store.bpm.status)
    ensures store.uc.data == old(store.uc.data) && store.uc.last == old(store.uc.last) && store.uc.status == old(store.uc.status)
    ensures store.ai.data == old(store.ai.data) && store.ai.last == old(store.ai.last) && store.ai.status == old(store.ai.status)
  {
    store.bpm.Add(msg);
  }
}
