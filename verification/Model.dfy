/** The domain model: journal entries, run metadata and the codec (model/, store/store.go). */
module Model {

  type Time = int
  type Value = string
  type Signal = string
  type RunId = string
  type Fault = string

  datatype Option<+T> = None | Some(value: T)

  /** What a journal entry, a signal or an output holds: nothing, an encoded business value or an encoded instant. */
  datatype Payload = Empty | Data(v: Value) | Instant(t: Time)

  datatype Kind =
    | KindExec
    | KindSleep
    | KindAwaitDeadline
    | KindAwait
    | KindAwaitTimeout
    | KindReturn
    | KindCancel

  datatype Entry = Entry(kind: Kind, tag: string, payload: Payload)

  datatype Status = Running | Cancelled | Succeeded | Failed | Awaiting

  predicate IsTerminal(s: Status) {
    s.Succeeded? || s.Failed? || s.Cancelled?
  }

  datatype Meta = Meta(name: string, version: string, input: Payload, status: Status, output: Payload, err: Fault)

  /** The engine's zero time, "no timer", is NoDeadline. */
  datatype Deadline = NoDeadline | At(t: Time)

  // The codec. Decoding gives back what was encoded, and fails on a document of the other type.

  function Encode(v: Value): Payload {
    Data(v)
  }

  function Decode(p: Payload): Option<Value> {
    if p.Data? then Some(p.v) else None
  }

  function EncodeTime(t: Time): Payload {
    Instant(t)
  }

  function DecodeTime(p: Payload): Option<Time> {
    if p.Instant? then Some(p.t) else None
  }
}
