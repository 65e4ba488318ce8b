/** The message and status types the three streams carry
    (src/shared/types/websocket.ts). Numbers that the dashboard only compares
    or subtracts are `real`; times the source treats as whole seconds are `int`. */
module Types {

  /** Connection state of one stream, as kept in the store. */
  datatype SocketStatus = Disconnected | Connecting | Connected | Error

  /** Short-term verdict of the AI analysis; on the wire these are the
      Russian words for "normal", "suspicion" and "alarm". */
  datatype AIStatus = Normal | Suspicion | Alarm

  datatype AIEventType = LateDecel | LowVariability | ProlongedDecel | Tachycardia | Bradycardia

  datatype AIEvent = AIEvent(eventType: AIEventType, severity: real)

  datatype ShortTermAnalysis = ShortTermAnalysis(status: AIStatus, events: seq<AIEvent>)

  datatype LongTermAnalysis = LongTermAnalysis(hypoxia60: real, emergency30: real)

  /** One message of the AI stream; `time` is in unix seconds. */
  datatype AIMessage = AIMessage(time: int, shortTerm: ShortTermAnalysis, longTerm: LongTermAnalysis)

  /** One message of the heart-rate (BPM) or contraction (UC) stream. */
  datatype Sample = Sample(timeSec: int, value: real)
}
