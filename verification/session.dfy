/**
 A session with the engine: a sequence of calls replayed against one
 registry, each call seeing the registry the previous one left behind.
 This is how the engine's callers (and its tests) use it, one call at a
 time; concurrent callers are serialised by the engine's locks, so any
 interleaving of theirs is also such a sequence.
 */
module Session {
  import opened Errors
  import Levels
  import MultiQueue

  /** One call of the engine's interface. */
  datatype Call =
    | AddQueue(name: string)
    | Enqueue(name: string, value: string, priority: int)
    | Dequeue(name: string)
    | IsEmpty(name: string)
    | ListContents(name: string)
    | GetPosition(name: string, value: string)
    | InsertAtTop(name: string, value: string, priority: int)

  /** What one call returned. */
  datatype Response =
    | Done
    | Value(value: string)
    | Flag(flag: bool)
    | Contents(contents: map<int, seq<string>>)
    | At(priority: int, index: int)
    | Failed(error: Error)

  /** The response of a call that returns only an error. */
  function Ack(r: Result<()>): Response {
    if r.Ok? then Done else Failed(r.error)
  }

  /** Perform one call. */
  function Apply(reg: MultiQueue.Registry, c: Call): (r: (MultiQueue.Registry, Response))
    requires MultiQueue.Valid(reg)
    ensures MultiQueue.Valid(r.0)
    ensures reg.Keys <= r.0.Keys
    ensures !c.AddQueue? ==> r.0.Keys == reg.Keys
    ensures c.AddQueue? ==> r.0.Keys <= reg.Keys + {c.name}
    ensures c.AddQueue? || c.Enqueue? || c.InsertAtTop? || c.Dequeue? || r.0 == reg
    ensures r.1.Failed? ==> r.0 == reg
  {
    match c
    case AddQueue(name) =>
      var rep := MultiQueue.AddQueue(reg, name);
      (rep.state, Ack(rep.result))
    case Enqueue(name, v, p) =>
      var rep := MultiQueue.Enqueue(reg, name, v, p);
      (rep.state, Ack(rep.result))
    case Dequeue(name) =>
      var rep := MultiQueue.Dequeue(reg, name);
      (rep.state, if rep.result.Ok? then Value(rep.result.value) else Failed(rep.result.error))
    case IsEmpty(name) =>
      var r := MultiQueue.IsEmpty(reg, name);
      (reg, if r.Ok? then Flag(r.value) else Failed(r.error))
    case ListContents(name) =>
      var r := MultiQueue.ListContents(reg, name);
      (reg, if r.Ok? then Contents(r.value) else Failed(r.error))
    case GetPosition(name, v) =>
      var loc := MultiQueue.GetPosition(reg, name, v);
      (reg, if loc.error.Some? then Failed(loc.error.value) else At(loc.priority, loc.index))
    case InsertAtTop(name, v, p) =>
      var rep := MultiQueue.InsertAtTop(reg, name, v, p);
      (rep.state, Ack(rep.result))
  }

  /** The names registered by the AddQueue calls of a session. */
  function Added(calls: seq<Call>): set<string> {
    if calls == [] then {}
    else (if calls[0].AddQueue? then {calls[0].name} else {}) + Added(calls[1..])
  }

  /** Perform the calls in order; return the final registry and one response per call. */
  function Run(reg: MultiQueue.Registry, calls: seq<Call>): (r: (MultiQueue.Registry, seq<Response>))
    requires MultiQueue.Valid(reg)
    ensures MultiQueue.Valid(r.0)
    ensures |r.1| == |calls|
    ensures reg.Keys <= r.0.Keys <= reg.Keys + Added(calls)
    decreases |calls|
  {
    if calls == [] then (reg, [])
    else
      var (next, resp) := Apply(reg, calls[0]);
      var (last, rest) := Run(next, calls[1..]);
      (last, [resp] + rest)
  }
}
