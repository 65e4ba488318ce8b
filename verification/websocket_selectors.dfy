/** Read-only projections of the store (src/shared/store/websocket-selectors.ts).
    The plain selectors (`useAIData`, `useLastAIMessage`, `useAIStatus`, ...)
    are field reads (`store.ai.data`, `store.ai.last`, `store.ai.status`);
    being functions, the selectors below cannot change the store. */
module WebSocketSelectors {
  import opened Common
  import opened Types
  import opened WebSocketStore

  /** `useRecent*Data(count)`: `data.slice(-count)`. */
  function Recent<M>(data: seq<M>, count: int): (r: seq<M>)
    ensures IsSubsequence(r, data)
    ensures count >= 1 ==> |r| == Min(count, |data|) && r == data[|data| - |r|..]
    ensures count == 0 ==> r == data
    ensures count < 0 ==> r == data[Min(-count, |data|)..]
  {
    var r := SliceFrom(data, -count);
    SuffixIsSubsequence(data, |data| - |r|);
    r
  }

  /** `useAllSocketsConnected` */
  function AllSocketsConnected(store: Store): bool
    reads store, store.ai, store.bpm, store.uc
  {
    store.ai.status == Connected && store.bpm.status == Connected && store.uc.status == Connected
  }

  /** `useConnectionStatus`: the three statuses, ai first. */
  function ConnectionStatus(store: Store): (r: (SocketStatus, SocketStatus, SocketStatus))
    reads store, store.ai, store.bpm, store.uc
    ensures AllSocketsConnected(store) <==> r == (Connected, Connected, Connected)
  {
    (store.ai.status, store.bpm.status, store.uc.status)
  }
}
