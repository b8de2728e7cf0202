/**
 The registry of the in-memory engine: a map from queue name to queue.
 Each operation is one atomic state transition: it takes the registry,
 and returns the registry after the call together with the call's result
 or error. A rejected call returns the registry it was given.
 */
module MultiQueue {
  import opened Errors
  import Levels

  type Registry = map<string, Levels.Queue>

  /** The structural invariant holds for every registered queue. */
  ghost predicate Valid(reg: Registry) {
    forall name :: name in reg ==> Levels.Valid(reg[name])
  }

  /** The registry after a call, and what the call returned. */
  datatype Reply<+T> = Reply(state: Registry, result: Result<T>)

  /** A position lookup reports (-1, -1) together with the error when it fails. */
  datatype Located = Located(priority: int, index: int, error: Option<Error>)

  /** The names stay the same, and so does every queue except the one named. */
  ghost predicate OnlyQueueChanged(reg: Registry, reg': Registry, name: string) {
    && reg'.Keys == reg.Keys
    && forall n :: n in reg && n != name ==> reg'[n] == reg[n]
  }

  /** A new registry holds no queues. */
  function NewMultiQueue(): (reg: Registry)
    ensures Valid(reg)
    ensures forall name :: name !in reg
  {
    map[]
  }

  /** Register a fresh, empty queue under `name`, refusing a name already taken. */
  function AddQueue(reg: Registry, name: string): (r: Reply<()>)
    ensures Valid(reg) ==> Valid(r.state)
    ensures name in reg ==> r == Reply(reg, Err(AlreadyExists))
    ensures name !in reg ==> r.result == Ok(())
    ensures name !in reg ==> r.state.Keys == reg.Keys + {name}
    ensures name !in reg ==> |r.state[name]| == Levels.LevelCount && Levels.AllEmpty(r.state[name])
    ensures forall n :: n in reg ==> n in r.state && r.state[n] == reg[n]
  {
    if name in reg then Reply(reg, Err(AlreadyExists))
    else Reply(reg[name := Levels.NewQueue()], Ok(()))
  }

  /** Append `v` to level `p` of the named queue. */
  function Enqueue(reg: Registry, name: string, v: string, p: int): (r: Reply<()>)
    requires Valid(reg)
    ensures Valid(r.state)
    ensures !Levels.IsPriority(p) ==> r == Reply(reg, Err(InvalidPriority))
    ensures Levels.IsPriority(p) && name !in reg ==> r == Reply(reg, Err(QueueNotFound))
    ensures r.result.Ok? <==> Levels.IsPriority(p) && name in reg
    ensures r.result.Ok? ==>
      && OnlyQueueChanged(reg, r.state, name)
      && Levels.OnlyLevelChanged(reg[name], r.state[name], p)
      && r.state[name][p] == reg[name][p] + [Levels.Item(v, p)]
  {
    if !Levels.IsPriority(p) then Reply(reg, Err(InvalidPriority))
    else if name !in reg then Reply(reg, Err(QueueNotFound))
    else Reply(reg[name := Levels.Enqueue(reg[name], v, p)], Ok(()))
  }

  /** Remove and return the front value of the most urgent non-empty level of the named queue. */
  function Dequeue(reg: Registry, name: string): (r: Reply<string>)
    requires Valid(reg)
    ensures Valid(r.state)
    ensures name !in reg ==> r == Reply(reg, Err(QueueNotFound))
    ensures name in reg && Levels.AllEmpty(reg[name]) ==> r == Reply(reg, Err(EmptyQueue))
    ensures r.result.Ok? <==> name in reg && !Levels.AllEmpty(reg[name])
    ensures r.result.Ok? ==> OnlyQueueChanged(reg, r.state, name)
    ensures r.result.Ok? ==>
      exists k :: Levels.IsLowestNonEmpty(reg[name], k)
        && r.result.value == reg[name][k][0].value
        && r.state[name] == reg[name][k := reg[name][k][1..]]
  {
    if name !in reg then Reply(reg, Err(QueueNotFound))
    else
      match Levels.Dequeue(reg[name])
      case Err(e) => Reply(reg, Err(e))
      case Ok(pop) =>
        assert Levels.IsLowestNonEmpty(reg[name], pop.level);
        Reply(reg[name := pop.rest], Ok(pop.value))
  }

  /** Whether every level of the named queue is empty. */
  function IsEmpty(reg: Registry, name: string): (r: Result<bool>)
    requires Valid(reg)
    ensures name !in reg ==> r == Err(QueueNotFound)
    ensures name in reg ==> r.Ok? && (r.value <==> Levels.AllEmpty(reg[name]))
    ensures name in reg ==> (r.value <==> Dequeue(reg, name).result.Err?)
  {
    if name !in reg then Err(QueueNotFound)
    else Ok(Levels.IsEmpty(reg[name]))
  }

  /** The non-empty levels of the named queue, each mapped to its values front first. */
  function ListContents(reg: Registry, name: string): (r: Result<map<int, seq<string>>>)
    requires Valid(reg)
    ensures name !in reg ==> r == Err(QueueNotFound)
    ensures name in reg ==> r.Ok?
    ensures r.Ok? ==> forall p :: p in r.value <==> 0 <= p < Levels.LevelCount && reg[name][p] != []
    ensures r.Ok? ==> forall p :: p in r.value ==> |r.value[p]| == |reg[name][p]|
    ensures r.Ok? ==> forall p, i :: p in r.value && 0 <= i < |r.value[p]| ==>
      r.value[p][i] == reg[name][p][i].value
    ensures r.Ok? ==> (r.value == map[] <==> Levels.AllEmpty(reg[name]))
  {
    if name !in reg then Err(QueueNotFound)
    else Ok(Levels.ListContents(reg[name]))
  }

  /** The first (priority, index) of the named queue holding `v`, scanning priority-major then index-minor. */
  function GetPosition(reg: Registry, name: string, v: string): (r: Located)
    requires Valid(reg)
    ensures name !in reg ==> r == Located(-1, -1, Some(QueueNotFound))
    ensures name in reg && !Levels.Occurs(reg[name], v) ==> r == Located(-1, -1, Some(NotFound))
    ensures name in reg && Levels.Occurs(reg[name], v) ==> r.error.None?
    ensures r.error.None? ==>
      && name in reg
      && 0 <= r.priority < Levels.LevelCount
      && 0 <= r.index < |reg[name][r.priority]|
      && reg[name][r.priority][r.index].value == v
    ensures r.error.None? ==> forall p, i ::
      0 <= p < Levels.LevelCount && 0 <= i < |reg[name][p]|
      && Levels.Precedes(Levels.Position(p, i), Levels.Position(r.priority, r.index))
      ==> reg[name][p][i].value != v
  {
    if name !in reg then Located(-1, -1, Some(QueueNotFound))
    else
      match Levels.GetPosition(reg[name], v)
      case Err(e) => Located(-1, -1, Some(e))
      case Ok(pos) => Located(pos.priority, pos.index, None)
  }

  /** Put `v` in front of everything already in level `p` of the named queue. */
  function InsertAtTop(reg: Registry, name: string, v: string, p: int): (r: Reply<()>)
    requires Valid(reg)
    ensures Valid(r.state)
    ensures !Levels.IsPriority(p) ==> r == Reply(reg, Err(InvalidPriority))
    ensures Levels.IsPriority(p) && name !in reg ==> r == Reply(reg, Err(QueueNotFound))
    ensures r.result.Ok? <==> Levels.IsPriority(p) && name in reg
    ensures r.result.Ok? ==>
      && OnlyQueueChanged(reg, r.state, name)
      && Levels.OnlyLevelChanged(reg[name], r.state[name], p)
      && r.state[name][p] == [Levels.Item(v, p)] + reg[name][p]
  {
    if !Levels.IsPriority(p) then Reply(reg, Err(InvalidPriority))
    else if name !in reg then Reply(reg, Err(QueueNotFound))
    else Reply(reg[name := Levels.InsertAtTop(reg[name], v, p)], Ok(()))
  }

  /** On a registered queue, Dequeue returns exactly the values of the queue's drain order, one per call. */
  lemma DequeueFollowsDrainOrder(reg: Registry, name: string)
    requires Valid(reg) && name in reg
    ensures Dequeue(reg, name).result.Err? <==> Levels.Drain(reg[name]) == []
    ensures Dequeue(reg, name).result.Ok? ==>
      Levels.Drain(reg[name]) == [Dequeue(reg, name).result.value] + Levels.Drain(Dequeue(reg, name).state[name])
  {
    Levels.DequeueTakesFrontOfFlatten(reg[name]);
    Levels.DrainIsEmptyIffIsEmpty(reg[name]);
  }
}
