/** Events as the retrieval path sees them: stream events (the rows of the
    aggregate tables and of the in-memory buckets) and the matching state
    event whose slots hold one stream event per joined stream. */
module Events {
  import opened Wrappers

  /** `ComplexEvent.Type`. */
  datatype EventType = Current | Expired | Timer | Reset

  /** An attribute value held by an event (`Object` in the source). */
  datatype Value = Null | Long(n: int) | Text(s: string) | Flag(b: bool)

  datatype StreamEvent = StreamEvent(eventType: EventType, timestamp: int, data: seq<Value>)

  /** The contents of a matching state event: one optional stream event per
      position (`StateEvent.getStreamEvent(i)`, `null` when absent). */
  type Probe = seq<Option<StreamEvent>>

  /** `new StreamEvent(0, size, 0)`: a CURRENT event with `size` empty
      attributes and the unset timestamp -1. */
  function FreshEvent(size: nat): (e: StreamEvent)
    ensures e.eventType == Current && e.timestamp == -1
    ensures |e.data| == size && forall i :: 0 <= i < size ==> e.data[i] == Null
  {
    StreamEvent(Current, -1, seq(size, _ => Null))
  }

  /** The RESET event passed to the output executors after a retrieval. Its
      attribute payload is blank and plays no part in the model. */
  const ResetEvent := StreamEvent(Reset, -1, [])

  /** The rows a lookup contributes to an event chunk: a `null` result adds
      nothing (`ComplexEventChunk.add(null)`). */
  function OrEmpty(found: Option<seq<StreamEvent>>): (rows: seq<StreamEvent>)
    ensures found.None? ==> rows == []
    ensures found.Some? ==> rows == found.value
  {
    if found.Some? then found.value else []
  }

  /** A matching state event; `find` fills its slot 0 in place. */
  class StateEvent {
    const streamEvents: array<Option<StreamEvent>>

    constructor (size: nat)
      ensures fresh(streamEvents) && streamEvents.Length == size
      ensures forall i :: 0 <= i < size ==> streamEvents[i] == None
    {
      streamEvents := new Option<StreamEvent>[size](_ => None);
    }
  }
}
