/**
 One named queue of the in-memory engine: ten FIFO buckets ("levels"),
 priority 0 (most urgent) to 9. Every function here is one step of a
 registry operation once the queue has been looked up; the registry
 checks the priority range before it calls in.
 */
module Levels {
  import opened Errors

  /** The number of priority levels of every queue. */
  const LevelCount: nat := 10

  /** A stored element and the priority it was filed under. */
  datatype Item = Item(value: string, priority: int)

  /** `q[p]` is level `p`, front first. */
  type Queue = seq<seq<Item>>

  /** A zero-based location: level, then index within the level. */
  datatype Position = Position(priority: nat, index: nat)

  /** The result of a successful pop: the value, the level it came from, and the queue left behind. */
  datatype Popped = Popped(value: string, level: nat, rest: Queue)

  predicate IsPriority(p: int) {
    0 <= p < LevelCount
  }

  /** The structural invariant: exactly ten levels, and every item sits in the level of its own priority. */
  ghost predicate Valid(q: Queue) {
    && |q| == LevelCount
    && forall p, i :: 0 <= p < |q| && 0 <= i < |q[p]| ==> q[p][i].priority == p
  }

  ghost predicate AllEmpty(q: Queue)
    requires |q| == LevelCount
  {
    forall p :: 0 <= p < LevelCount ==> q[p] == []
  }

  /** `k` is the most urgent level that holds anything. */
  ghost predicate IsLowestNonEmpty(q: Queue, k: int)
    requires |q| == LevelCount
  {
    && 0 <= k < LevelCount
    && q[k] != []
    && forall j :: 0 <= j < k ==> q[j] == []
  }

  /** Only level `p` may differ between `q` and `q'`. */
  ghost predicate OnlyLevelChanged(q: Queue, q': Queue, p: int) {
    && |q'| == |q|
    && forall j :: 0 <= j < |q| && j != p ==> q'[j] == q[j]
  }

  /** Some level of `q` holds `v`. */
  ghost predicate Occurs(q: Queue, v: string)
    requires |q| == LevelCount
  {
    exists p, i :: 0 <= p < LevelCount && 0 <= i < |q[p]| && q[p][i].value == v
  }

  /** `pos` is a location of `q` holding `v`. */
  ghost predicate HoldsAt(q: Queue, v: string, pos: Position)
    requires |q| == LevelCount
  {
    && pos.priority < LevelCount
    && pos.index < |q[pos.priority]|
    && q[pos.priority][pos.index].value == v
  }

  /** Scan order of a position lookup: priority-major, index-minor. */
  predicate Precedes(a: Position, b: Position) {
    a.priority < b.priority || (a.priority == b.priority && a.index < b.index)
  }

  /** The values of one level, front first. */
  function Values(level: seq<Item>): seq<string> {
    seq(|level|, i requires 0 <= i < |level| => level[i].value)
  }

  /** The values of levels `lo` up to (not including) `hi`, in level order. */
  function Concat(q: Queue, lo: nat, hi: nat): seq<string>
    requires lo <= hi <= |q|
    decreases hi - lo
  {
    if lo == hi then [] else Values(q[lo]) + Concat(q, lo + 1, hi)
  }

  /** Every value of the queue, most urgent level first, each level front first. */
  function Flatten(q: Queue): seq<string> {
    Concat(q, 0, |q|)
  }

  // ---------------------------------------------------------------------------
  // Operations
  // ---------------------------------------------------------------------------

  /** A fresh queue: ten levels, all empty. */
  function NewQueue(): (q: Queue)
    ensures Valid(q)
    ensures AllEmpty(q)
    ensures Flatten(q) == []
  {
    var q := seq(LevelCount, _ => []);
    ConcatOfEmptyLevels(q, 0, |q|);
    q
  }

  /** Append `v` to the back of level `p`. */
  function Enqueue(q: Queue, v: string, p: int): (r: Queue)
    requires Valid(q) && IsPriority(p)
    ensures Valid(r)
    ensures OnlyLevelChanged(q, r, p)
    ensures |r[p]| == |q[p]| + 1
    ensures r[p][..|q[p]|] == q[p] && r[p][|q[p]|] == Item(v, p)
  {
    q[p := q[p] + [Item(v, p)]]
  }

  /** Put `v` in front of everything already in level `p`. */
  function InsertAtTop(q: Queue, v: string, p: int): (r: Queue)
    requires Valid(q) && IsPriority(p)
    ensures Valid(r)
    ensures OnlyLevelChanged(q, r, p)
    ensures |r[p]| == |q[p]| + 1
    ensures r[p][0] == Item(v, p) && r[p][1..] == q[p]
  {
    q[p := [Item(v, p)] + q[p]]
  }

  /** The scan of levels `from`, `from + 1`, ... for the first one that is not empty. */
  function FirstNonEmpty(q: Queue, from: nat): (k: Option<nat>)
    requires |q| == LevelCount && from <= LevelCount
    ensures k.Some? ==> from <= k.value < LevelCount && q[k.value] != []
    ensures k.Some? ==> forall j :: from <= j < k.value ==> q[j] == []
    ensures k.None? ==> forall j :: from <= j < LevelCount ==> q[j] == []
    decreases LevelCount - from
  {
    if from == LevelCount then None
    else if |q[from]| > 0 then Some(from)
    else FirstNonEmpty(q, from + 1)
  }

  /** Remove and return the front item of the most urgent non-empty level. */
  function Dequeue(q: Queue): (r: Result<Popped>)
    requires Valid(q)
    ensures r.Err? <==> AllEmpty(q)
    ensures r.Err? ==> r.error == EmptyQueue
    ensures r.Ok? ==> IsLowestNonEmpty(q, r.value.level)
    ensures r.Ok? ==> r.value.value == q[r.value.level][0].value
    ensures r.Ok? ==> OnlyLevelChanged(q, r.value.rest, r.value.level)
    ensures r.Ok? ==> r.value.rest[r.value.level] == q[r.value.level][1..]
    ensures r.Ok? ==> Valid(r.value.rest)
  {
    match FirstNonEmpty(q, 0)
    case None => Err(EmptyQueue)
    case Some(k) => Ok(Popped(q[k][0].value, k, q[k := q[k][1..]]))
  }

  /** Whether all ten levels are empty. */
  function IsEmpty(q: Queue): (b: bool)
    requires Valid(q)
    ensures b <==> AllEmpty(q)
    ensures b <==> Dequeue(q).Err?
  {
    FirstNonEmpty(q, 0).None?
  }

  /** The listing of levels `from` .. 9: one entry per non-empty level. */
  function ContentsFrom(q: Queue, from: nat): (m: map<int, seq<string>>)
    requires |q| == LevelCount && from <= LevelCount
    ensures forall p :: p in m <==> from <= p < LevelCount && q[p] != []
    ensures forall p :: p in m ==> m[p] == Values(q[p])
    decreases LevelCount - from
  {
    if from == LevelCount then map[]
    else
      var rest := ContentsFrom(q, from + 1);
      if |q[from]| > 0 then rest[from := Values(q[from])] else rest
  }

  /** Map each non-empty level to its values; empty levels get no key. */
  function ListContents(q: Queue): (m: map<int, seq<string>>)
    requires Valid(q)
    ensures forall p :: p in m <==> 0 <= p < LevelCount && q[p] != []
    ensures forall p :: p in m ==> |m[p]| == |q[p]|
    ensures forall p, i :: p in m && 0 <= i < |m[p]| ==> m[p][i] == q[p][i].value
    ensures m == map[] <==> AllEmpty(q)
  {
    var m := ContentsFrom(q, 0);
    assert AllEmpty(q) ==> m.Keys == {};
    m
  }

  /** The first index at or after `from` in `level` whose value is `v`. */
  function IndexIn(level: seq<Item>, v: string, from: nat): (i: Option<nat>)
    requires from <= |level|
    ensures i.Some? ==> from <= i.value < |level| && level[i.value].value == v
    ensures i.Some? ==> forall j :: from <= j < i.value ==> level[j].value != v
    ensures i.None? ==> forall j :: from <= j < |level| ==> level[j].value != v
    decreases |level| - from
  {
    if from == |level| then None
    else if level[from].value == v then Some(from)
    else IndexIn(level, v, from + 1)
  }

  /** The scan for `v` over levels `from` .. 9, each level front to back. */
  function FindFrom(q: Queue, v: string, from: nat): (r: Option<Position>)
    requires |q| == LevelCount && from <= LevelCount
    ensures r.Some? ==> from <= r.value.priority && HoldsAt(q, v, r.value)
    ensures r.Some? ==> forall p, i ::
      from <= p < LevelCount && 0 <= i < |q[p]| && Precedes(Position(p, i), r.value) ==> q[p][i].value != v
    ensures r.None? ==> forall p, i :: from <= p < LevelCount && 0 <= i < |q[p]| ==> q[p][i].value != v
    decreases LevelCount - from
  {
    if from == LevelCount then None
    else
      match IndexIn(q[from], v, 0)
      case Some(i) => Some(Position(from, i))
      case None => FindFrom(q, v, from + 1)
  }

  /** The first location holding `v` in priority-major, index-minor order. */
  function GetPosition(q: Queue, v: string): (r: Result<Position>)
    requires Valid(q)
    ensures r.Ok? ==> HoldsAt(q, v, r.value)
    ensures r.Ok? ==> forall p, i ::
      0 <= p < LevelCount && 0 <= i < |q[p]| && Precedes(Position(p, i), r.value) ==> q[p][i].value != v
    ensures r.Err? <==> !Occurs(q, v)
    ensures r.Err? ==> r.error == NotFound
  {
    match FindFrom(q, v, 0)
    case Some(pos) => Ok(pos)
    case None => Err(NotFound)
  }

  /** Dequeue until the queue reports empty, collecting the values in the order returned. */
  function Drain(q: Queue): (out: seq<string>)
    requires Valid(q)
    ensures out == Flatten(q)
    decreases |Flatten(q)|
  {
    DequeueTakesFrontOfFlatten(q);
    match Dequeue(q)
    case Err(_) => []
    case Ok(pop) => [pop.value] + Drain(pop.rest)
  }

  /** A listing's values, key `from` first, then key `from + 1`, ... up to key 9. */
  function InKeyOrder(m: map<int, seq<string>>, from: nat): seq<string>
    requires from <= LevelCount
    decreases LevelCount - from
  {
    if from == LevelCount then []
    else (if from in m then m[from] else []) + InKeyOrder(m, from + 1)
  }

  // ---------------------------------------------------------------------------
  // Lemmas about the level concatenation
  // ---------------------------------------------------------------------------

  lemma {:induction false} ConcatSplit(q: Queue, lo: nat, mid: nat, hi: nat)
    requires lo <= mid <= hi <= |q|
    ensures Concat(q, lo, hi) == Concat(q, lo, mid) + Concat(q, mid, hi)
    decreases mid - lo
  {
    if lo < mid {
      ConcatSplit(q, lo + 1, mid, hi);
    }
  }

  lemma {:induction false} ConcatFrame(q: Queue, q': Queue, lo: nat, hi: nat)
    requires lo <= hi <= |q| && hi <= |q'|
    requires forall j :: lo <= j < hi ==> q[j] == q'[j]
    ensures Concat(q, lo, hi) == Concat(q', lo, hi)
    decreases hi - lo
  {
    if lo < hi {
      ConcatFrame(q, q', lo + 1, hi);
    }
  }

  lemma {:induction false} ConcatOfEmptyLevels(q: Queue, lo: nat, hi: nat)
    requires lo <= hi <= |q|
    ensures Concat(q, lo, hi) == [] <==> forall j :: lo <= j < hi ==> q[j] == []
    decreases hi - lo
  {
    if lo < hi {
      ConcatOfEmptyLevels(q, lo + 1, hi);
    }
  }

  lemma {:induction false} ConcatMembership(q: Queue, lo: nat, hi: nat, v: string)
    requires lo <= hi <= |q|
    ensures v in Concat(q, lo, hi) <==>
      exists p, i :: lo <= p < hi && 0 <= i < |q[p]| && q[p][i].value == v
    decreases hi - lo
  {
    if lo < hi {
      ConcatMembership(q, lo + 1, hi, v);
      assert Concat(q, lo, hi) == Values(q[lo]) + Concat(q, lo + 1, hi);
      if v in Values(q[lo]) {
        var i :| 0 <= i < |q[lo]| && Values(q[lo])[i] == v;
        assert q[lo][i].value == v;
      }
      if exists p, i :: lo <= p < hi && 0 <= i < |q[p]| && q[p][i].value == v {
        var p, i :| lo <= p < hi && 0 <= i < |q[p]| && q[p][i].value == v;
        if p == lo {
          assert Values(q[lo])[i] == v;
        }
      }
    }
  }

  /** The concatenation seen from level k: what comes before it, its values, what comes after it. */
  lemma AroundLevel(q: Queue, k: nat)
    requires k < |q|
    ensures Flatten(q) == Concat(q, 0, k) + Values(q[k]) + Concat(q, k + 1, |q|)
  {
    ConcatSplit(q, 0, k, |q|);
  }

  /** When only level k changes, the concatenation changes only in the middle. */
  lemma ChangeOneLevel(q: Queue, q': Queue, k: nat)
    requires k < |q| && OnlyLevelChanged(q, q', k)
    ensures Flatten(q') == Concat(q, 0, k) + Values(q'[k]) + Concat(q, k + 1, |q|)
  {
    AroundLevel(q', k);
    ConcatFrame(q, q', 0, k);
    ConcatFrame(q, q', k + 1, |q|);
  }

  // ---------------------------------------------------------------------------
  // Dequeue order
  // ---------------------------------------------------------------------------

  /** Removing the front of level k, when every level before k is empty, removes the first value of the concatenation. */
  lemma PopFront(q: Queue, q': Queue, k: nat)
    requires k < |q| && q[k] != [] && OnlyLevelChanged(q, q', k)
    requires q'[k] == q[k][1..]
    requires forall j :: 0 <= j < k ==> q[j] == []
    ensures Flatten(q) == [q[k][0].value] + Flatten(q')
  {
    AroundLevel(q, k);
    ChangeOneLevel(q, q', k);
    ConcatOfEmptyLevels(q, 0, k);
    assert Values(q[k]) == [q[k][0].value] + Values(q'[k]);
  }

  /** Dequeue takes the first value of the priority-major, FIFO-minor order and leaves the rest. */
  lemma DequeueTakesFrontOfFlatten(q: Queue)
    requires Valid(q)
    ensures Dequeue(q).Err? ==> Flatten(q) == []
    ensures Dequeue(q).Ok? ==> Flatten(q) == [Dequeue(q).value.value] + Flatten(Dequeue(q).value.rest)
  {
    var r := Dequeue(q);
    if r.Err? {
      ConcatOfEmptyLevels(q, 0, |q|);
    } else {
      PopFront(q, r.value.rest, r.value.level);
    }
  }

  /** A queue drains to nothing exactly when IsEmpty reports it empty. */
  lemma DrainIsEmptyIffIsEmpty(q: Queue)
    requires Valid(q)
    ensures Drain(q) == [] <==> IsEmpty(q)
  {
    ConcatOfEmptyLevels(q, 0, |q|);
  }

  /** Listing a queue and then draining it give the same values in the same (priority, index) order. */
  lemma {:induction false} ListContentsMatchesDrain(q: Queue)
    requires Valid(q)
    ensures InKeyOrder(ListContents(q), 0) == Drain(q)
  {
    ListedLevelsFrom(q, ListContents(q), 0);
  }

  lemma {:induction false} ListedLevelsFrom(q: Queue, m: map<int, seq<string>>, from: nat)
    requires Valid(q) && m == ListContents(q) && from <= LevelCount
    ensures InKeyOrder(m, from) == Concat(q, from, LevelCount)
    decreases LevelCount - from
  {
    if from < LevelCount {
      ListedLevelsFrom(q, m, from + 1);
      if from !in m {
        assert q[from] == [];
      }
    }
  }

  lemma ValuesOfAppend(level: seq<Item>, x: Item)
    ensures Values(level + [x]) == Values(level) + [x.value]
  {
  }

  lemma ValuesOfPrepend(level: seq<Item>, x: Item)
    ensures Values([x] + level) == [x.value] + Values(level)
  {
  }

  lemma AppendToLevel(q: Queue, r: Queue, p: nat, v: string)
    requires p < |q| && OnlyLevelChanged(q, r, p)
    requires Values(r[p]) == Values(q[p]) + [v]
    ensures Flatten(r) == Concat(q, 0, p + 1) + [v] + Concat(q, p + 1, |q|)
  {
    ChangeOneLevel(q, r, p);
    ConcatSplit(q, 0, p, p + 1);
    assert Concat(q, p, p + 1) == Values(q[p]);
  }

  lemma PrependToLevel(q: Queue, r: Queue, p: nat, v: string)
    requires p < |q| && OnlyLevelChanged(q, r, p)
    requires Values(r[p]) == [v] + Values(q[p])
    ensures Flatten(r) == Concat(q, 0, p) + [v] + Concat(q, p, |q|)
  {
    ChangeOneLevel(q, r, p);
    var before, mid, after := Concat(q, 0, p), Values(q[p]), Concat(q, p + 1, |q|);
    assert Concat(q, p, |q|) == mid + after;
    calc {
      Flatten(r);
      before + ([v] + mid) + after;
      { Regroup(before, [v], mid, after); }
      before + [v] + (mid + after);
    }
  }

  lemma Regroup(a: seq<string>, b: seq<string>, c: seq<string>, d: seq<string>)
    ensures a + (b + c) + d == a + b + (c + d)
  {
  }

  /** An enqueued value is drained after every value of levels 0..p and before every value of levels p+1..9. */
  lemma EnqueueDrainOrder(q: Queue, v: string, p: int)
    requires Valid(q) && IsPriority(p)
    ensures Drain(Enqueue(q, v, p)) == Concat(q, 0, p + 1) + [v] + Concat(q, p + 1, LevelCount)
  {
    var r := Enqueue(q, v, p);
    assert r[p] == q[p] + [Item(v, p)];
    ValuesOfAppend(q[p], Item(v, p));
    AppendToLevel(q, r, p, v);
  }

  /** A value inserted at the top of level p is drained after every value of levels 0..p-1 and before everything else. */
  lemma InsertAtTopDrainOrder(q: Queue, v: string, p: int)
    requires Valid(q) && IsPriority(p)
    ensures Drain(InsertAtTop(q, v, p)) == Concat(q, 0, p) + [v] + Concat(q, p, LevelCount)
  {
    var r := InsertAtTop(q, v, p);
    assert r[p] == [Item(v, p)] + q[p];
    ValuesOfPrepend(q[p], Item(v, p));
    PrependToLevel(q, r, p, v);
  }

  /** With nothing more urgent than level p, InsertAtTop is undone by the next Dequeue. */
  lemma InsertAtTopThenDequeue(q: Queue, v: string, p: int)
    requires Valid(q) && IsPriority(p)
    requires forall j :: 0 <= j < p ==> q[j] == []
    ensures Dequeue(InsertAtTop(q, v, p)) == Ok(Popped(v, p, q))
  {
    var r := InsertAtTop(q, v, p);
    assert IsLowestNonEmpty(r, p);
    var pop := Dequeue(r).value;
    assert pop.level == p;
    assert pop.rest == q;
  }

  /** Enqueueing at level p does not change what the next Dequeue returns unless p is more urgent than every stored item. */
  lemma EnqueueKeepsFront(q: Queue, v: string, p: int)
    requires Valid(q) && IsPriority(p) && Dequeue(q).Ok?
    requires Dequeue(q).value.level <= p
    ensures Dequeue(Enqueue(q, v, p)).Ok?
    ensures Dequeue(Enqueue(q, v, p)).value.value == Dequeue(q).value.value
    ensures Dequeue(Enqueue(q, v, p)).value.rest == Enqueue(Dequeue(q).value.rest, v, p)
  {
    var pop := Dequeue(q).value;
    var r := Enqueue(q, v, p);
    assert IsLowestNonEmpty(r, pop.level);
    var pop' := Dequeue(r).value;
    assert pop'.level == pop.level;
    var k := pop.level;
    if k == p {
      assert r[k][1..] == q[k][1..] + [Item(v, p)];
    }
    assert pop'.rest == Enqueue(pop.rest, v, p);
  }

  /** Where location (p, i) lands in the concatenation, and what precedes it there. */
  lemma LocationInFlatten(q: Queue, p: nat, i: nat)
    requires p < |q| && i < |q[p]|
    ensures |Concat(q, 0, p)| + i < |Flatten(q)|
    ensures Flatten(q)[|Concat(q, 0, p)| + i] == q[p][i].value
    ensures Flatten(q)[..|Concat(q, 0, p)| + i] == Concat(q, 0, p) + Values(q[p])[..i]
  {
    AroundLevel(q, p);
    var before, mid, after := Concat(q, 0, p), Values(q[p]), Concat(q, p + 1, |q|);
    assert Flatten(q) == before + (mid + after);
    assert (mid + after)[i] == mid[i];
    assert (before + (mid + after))[..|before| + i] == before + mid[..i];
  }

  /** A location with no earlier match in scan order is the first occurrence in the concatenation. */
  lemma FirstInFlatten(q: Queue, v: string, pos: Position)
    requires pos.priority < |q| && pos.index < |q[pos.priority]| && q[pos.priority][pos.index].value == v
    requires forall p, i :: 0 <= p < |q| && 0 <= i < |q[p]| && Precedes(Position(p, i), pos) ==> q[p][i].value != v
    ensures var n := |Concat(q, 0, pos.priority)| + pos.index;
      n < |Flatten(q)| && Flatten(q)[n] == v && v !in Flatten(q)[..n]
  {
    var p := pos.priority;
    LocationInFlatten(q, p, pos.index);
    ConcatMembership(q, 0, p, v);
    assert v !in Concat(q, 0, p) by {
      forall p', i | 0 <= p' < p && 0 <= i < |q[p']|
        ensures q[p'][i].value != v
      {
        assert Precedes(Position(p', i), pos);
      }
    }
    assert v !in Values(q[p])[..pos.index] by {
      forall i | 0 <= i < pos.index
        ensures Values(q[p])[i] != v
      {
        assert Precedes(Position(p, i), pos);
      }
    }
  }

  /** GetPosition reports the first occurrence of `v` in the order Dequeue would return the values. */
  lemma PositionIsFirstInDrainOrder(q: Queue, v: string)
    requires Valid(q)
    ensures GetPosition(q, v).Err? <==> v !in Drain(q)
    ensures GetPosition(q, v).Ok? ==>
      var pos := GetPosition(q, v).value;
      var n := |Concat(q, 0, pos.priority)| + pos.index;
      n < |Drain(q)| && Drain(q)[n] == v && v !in Drain(q)[..n]
  {
    ConcatMembership(q, 0, LevelCount, v);
    var r := GetPosition(q, v);
    if r.Ok? {
      FirstInFlatten(q, v, r.value);
    }
  }
}
