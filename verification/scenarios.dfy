/**
 The engine's test cases, stated as facts about chains of registry calls
 that start from a new registry. Each lemma replays the calls of one test
 and fixes every result the test inspects.
 */
module Scenarios {
  import opened Errors
  import Levels
  import opened MultiQueue

  /** A name can be registered once; the second AddQueue is refused. */
  lemma AddQueueTwice()
    ensures
      var r1 := AddQueue(NewMultiQueue(), "test");
      var r2 := AddQueue(r1.state, "test");
      r1.result == Ok(()) && r2.result == Err(AlreadyExists)
  {
  }

  /** Dequeue fails on an empty queue, then returns the most urgent items first. */
  lemma DequeueByPriority()
    ensures
      var r1 := AddQueue(NewMultiQueue(), "test");
      var r2 := Dequeue(r1.state, "test");
      var r3 := Enqueue(r2.state, "test", "low", 5);
      var r4 := Enqueue(r3.state, "test", "high", 0);
      var r5 := Enqueue(r4.state, "test", "medium", 2);
      var r6 := Dequeue(r5.state, "test");
      var r7 := Dequeue(r6.state, "test");
      && r2.result == Err(EmptyQueue)
      && r6.result == Ok("high")
      && r7.result == Ok("medium")
  {
    var r1 := AddQueue(NewMultiQueue(), "test");
    var r2 := Dequeue(r1.state, "test");
    var r3 := Enqueue(r2.state, "test", "low", 5);
    var r4 := Enqueue(r3.state, "test", "high", 0);
    var r5 := Enqueue(r4.state, "test", "medium", 2);
    assert Levels.IsLowestNonEmpty(r5.state["test"], 0);
    var r6 := Dequeue(r5.state, "test");
    assert Levels.IsLowestNonEmpty(r6.state["test"], 2);
  }

  /** Enqueue accepts a valid priority and refuses priority 10 and an unregistered name, changing nothing. */
  lemma EnqueueChecks()
    ensures
      var r1 := AddQueue(NewMultiQueue(), "test");
      var r2 := Enqueue(r1.state, "test", "item1", 0);
      var r3 := Enqueue(r2.state, "test", "item2", 10);
      var r4 := Enqueue(r3.state, "nonexistent", "item3", 0);
      && r2.result == Ok(())
      && r3 == Reply(r2.state, Err(InvalidPriority))
      && r4 == Reply(r2.state, Err(QueueNotFound))
  {
  }

  /** A new queue is empty; after one Enqueue it is not. */
  lemma IsEmptyChecks()
    ensures
      var r1 := AddQueue(NewMultiQueue(), "test");
      var r2 := Enqueue(r1.state, "test", "item", 0);
      && IsEmpty(r1.state, "test") == Ok(true)
      && IsEmpty(r2.state, "test") == Ok(false)
  {
    var r1 := AddQueue(NewMultiQueue(), "test");
    var r2 := Enqueue(r1.state, "test", "item", 0);
    assert r2.state["test"][0] != [];
  }

  /** A new queue lists as an empty map; afterwards only the non-empty levels are listed, in order. */
  lemma ListContentsChecks()
    ensures
      var r1 := AddQueue(NewMultiQueue(), "test");
      var r2 := Enqueue(r1.state, "test", "high", 0);
      var r3 := Enqueue(r2.state, "test", "medium1", 2);
      var r4 := Enqueue(r3.state, "test", "medium2", 2);
      && ListContents(r1.state, "test") == Ok(map[])
      && ListContents(r4.state, "test") == Ok(map[0 := ["high"], 2 := ["medium1", "medium2"]])
  {
    var r1 := AddQueue(NewMultiQueue(), "test");
    var r2 := Enqueue(r1.state, "test", "high", 0);
    var r3 := Enqueue(r2.state, "test", "medium1", 2);
    var r4 := Enqueue(r3.state, "test", "medium2", 2);
    var q := r4.state["test"];
    assert q == Levels.Enqueue(Levels.Enqueue(Levels.Enqueue(Levels.NewQueue(), "high", 0), "medium1", 2), "medium2", 2);
    ListedLevels(q);
  }

  /** The listing of the queue built in the test: level 0 holds "high", level 2 the two medium items. */
  lemma ListedLevels(q: Levels.Queue)
    requires q == Levels.Enqueue(Levels.Enqueue(Levels.Enqueue(Levels.NewQueue(), "high", 0), "medium1", 2), "medium2", 2)
    ensures Levels.ListContents(q) == map[0 := ["high"], 2 := ["medium1", "medium2"]]
  {
    assert q[0] == [Levels.Item("high", 0)] && q[1] == [];
    assert q[2] == [Levels.Item("medium1", 2), Levels.Item("medium2", 2)];
    assert forall p :: 3 <= p < Levels.LevelCount ==> q[p] == [];
    var m := Levels.ListContents(q);
    assert m.Keys == {0, 2};
    assert m[0] == ["high"];
    assert m[2] == ["medium1", "medium2"];
  }

  /** Positions are reported per level, front first; a missing value is (-1, -1) with NotFound. */
  lemma GetPositionChecks()
    ensures
      var r1 := AddQueue(NewMultiQueue(), "test");
      var r2 := Enqueue(r1.state, "test", "first", 0);
      var r3 := Enqueue(r2.state, "test", "second", 0);
      var r4 := Enqueue(r3.state, "test", "third", 2);
      && GetPosition(r1.state, "test", "missing") == Located(-1, -1, Some(NotFound))
      && GetPosition(r4.state, "test", "first") == Located(0, 0, None)
      && GetPosition(r4.state, "test", "second") == Located(0, 1, None)
      && GetPosition(r4.state, "test", "third") == Located(2, 0, None)
  {
    var r1 := AddQueue(NewMultiQueue(), "test");
    var r2 := Enqueue(r1.state, "test", "first", 0);
    var r3 := Enqueue(r2.state, "test", "second", 0);
    var r4 := Enqueue(r3.state, "test", "third", 2);
    var q := r4.state["test"];
    assert q == Levels.Enqueue(Levels.Enqueue(Levels.Enqueue(Levels.NewQueue(), "first", 0), "second", 0), "third", 2);
    LocatedItems(q);
  }

  /** The positions in the queue built in the test: two items at level 0, one at level 2. */
  lemma LocatedItems(q: Levels.Queue)
    requires q == Levels.Enqueue(Levels.Enqueue(Levels.Enqueue(Levels.NewQueue(), "first", 0), "second", 0), "third", 2)
    ensures Levels.GetPosition(q, "first") == Ok(Levels.Position(0, 0))
    ensures Levels.GetPosition(q, "second") == Ok(Levels.Position(0, 1))
    ensures Levels.GetPosition(q, "third") == Ok(Levels.Position(2, 0))
  {
    assert q[0] == [Levels.Item("first", 0), Levels.Item("second", 0)];
    assert q[1] == [];
    assert q[2] == [Levels.Item("third", 2)];
  }

  /** InsertAtTop refuses priority 10 and an unregistered name; an item inserted into an empty queue sits at (0, 0). */
  lemma InsertAtTopChecks()
    ensures
      var r1 := AddQueue(NewMultiQueue(), "test");
      var r2 := InsertAtTop(r1.state, "test", "item", 10);
      var r3 := InsertAtTop(r2.state, "test", "urgent", 0);
      var r4 := InsertAtTop(r3.state, "nonexistent", "test", 0);
      && r2 == Reply(r1.state, Err(InvalidPriority))
      && r3.result == Ok(())
      && GetPosition(r3.state, "test", "urgent") == Located(0, 0, None)
      && r4 == Reply(r3.state, Err(QueueNotFound))
  {
  }

  /** The queue the InsertAtTop test builds, written as single-queue steps. */
  function InsertAtTopQueue(): Levels.Queue {
    var q3 := Levels.InsertAtTop(Levels.NewQueue(), "urgent", 0);
    var q4 := Levels.Enqueue(q3, "normal", 0);
    var q5 := Levels.Enqueue(q4, "medium", 2);
    var q6 := Levels.InsertAtTop(q5, "topmost", 0);
    Levels.InsertAtTop(q6, "urgent_medium", 2)
  }

  /** The registry calls of the InsertAtTop test leave the queue "test" as built above. */
  lemma InsertAtTopBuilds()
    ensures
      var r1 := AddQueue(NewMultiQueue(), "test");
      var r3 := InsertAtTop(r1.state, "test", "urgent", 0);
      var r4 := Enqueue(r3.state, "test", "normal", 0);
      var r5 := Enqueue(r4.state, "test", "medium", 2);
      var r6 := InsertAtTop(r5.state, "test", "topmost", 0);
      var r7 := InsertAtTop(r6.state, "test", "urgent_medium", 2);
      && r7.result == Ok(())
      && r7.state == map["test" := InsertAtTopQueue()]
  {
  }

  /**
   Dequeueing that queue: the newest insert at the top of level 0 comes out
   first, then the older level-0 items in order, then the item inserted at
   the top of level 2.
   */
  lemma InsertAtTopDequeues()
    ensures
      var r7 := map["test" := InsertAtTopQueue()];
      var r8 := Dequeue(r7, "test");
      var r9 := Dequeue(r8.state, "test");
      var r10 := Dequeue(r9.state, "test");
      var r11 := Dequeue(r10.state, "test");
      && r8.result == Ok("topmost")
      && r9.result == Ok("urgent")
      && r10.result == Ok("normal")
      && r11.result == Ok("urgent_medium")
  {
    var q7 := InsertAtTopQueue();
    var r7 := map["test" := q7];
    assert q7[0] == [Levels.Item("topmost", 0), Levels.Item("urgent", 0), Levels.Item("normal", 0)];
    assert q7[1] == [];
    assert q7[2] == [Levels.Item("urgent_medium", 2), Levels.Item("medium", 2)];
    assert Levels.IsLowestNonEmpty(q7, 0);
    var r8 := Dequeue(r7, "test");
    assert Levels.IsLowestNonEmpty(r8.state["test"], 0);
    var r9 := Dequeue(r8.state, "test");
    assert Levels.IsLowestNonEmpty(r9.state["test"], 0);
    var r10 := Dequeue(r9.state, "test");
    assert Levels.IsLowestNonEmpty(r10.state["test"], 2);
  }
}
