/**
 * The fixtures of the reconciliation helpers' unit tests, and the outcomes
 * those tests expect, proved of the model.
 */
module ReconcileUtilTest {
  import opened Wrappers
  import opened Structs
  import opened Bitmaps
  import opened ReconcileUtil

  // ---------------------------------------------------------------------
  // bitmapFrom: one allocation whose name carries index 8

  function IndexEightAlloc(): Allocation {
    Allocation("", "foo", "bar", "foo.bar[8]", "", NoClientStatus, NoDesiredStatus,
      DesiredTransition(None), map[])
  }

  function IndexEightInput(): AllocSet {
    map["8" := IndexEightAlloc()]
  }

  lemma IndexEightParses()
    ensures Index(IndexEightAlloc()) == 8
  {
    var a := IndexEightAlloc();
    assert a.name[8..9] == "8";
    assert DecimalValue("8") == 10 * DecimalValue("") + 8;
  }

  /**
   * A highest index of 8 sits on a byte boundary: with minimum 1 or 8 the
   * bitmap has 16 indices, enough to set bit 8.
   */
  lemma BitmapFromSizes()
    ensures BitmapSize(MaxIndex(IndexEightInput()), 1, |IndexEightInput()|) == 16
    ensures BitmapSize(MaxIndex(IndexEightInput()), 8, |IndexEightInput()|) == 16
  {
    var input := IndexEightInput();
    IndexEightParses();
    assert InUse(input) == {8} by {
      assert forall id :: id in input ==> id == "8";
    }
    MaxOfUnique({8}, 8);
  }

  method BitmapFromTest() {
    var input := IndexEightInput();
    BitmapFromSizes();
    var b := BitmapFrom(input, 1);
    assert b.Size() == 16;
    b := BitmapFrom(input, 8);
    assert b.Size() == 16;
    IndexEightParses();
    assert 8 in InUse(input);
    assert b.Check(8);
  }

  // ---------------------------------------------------------------------
  // filterByTainted: eight allocations over a draining, a down, a nil and a ready node

  function TestNodes(): NodeTable {
    map[
      "draining" := Some(Node("draining", NoNodeStatus, true)),
      "lost" := Some(Node("lost", Down, false)),
      "nil" := None,
      "normal" := Some(Node("normal", Ready, false))]
  }

  function TestAlloc(id: string, status: ClientStatus, migrate: bool, nodeId: string): Allocation {
    Allocation(id, "", "", "", nodeId, status, NoDesiredStatus,
      DesiredTransition(if migrate then Some(true) else None), map[])
  }

  function TestAllocs(): AllocSet {
    map[
      "migrating1" := TestAlloc("migrating1", Running, true, "draining"),
      "migrating2" := TestAlloc("migrating2", Running, true, "nil"),
      "untainted1" := TestAlloc("untainted1", Running, false, "normal"),
      "untainted2" := TestAlloc("untainted2", Complete, false, "normal"),
      "untainted3" := TestAlloc("untainted3", Complete, false, "draining"),
      "untainted4" := TestAlloc("untainted4", Complete, false, "lost"),
      "lost1" := TestAlloc("lost1", Pending, false, "lost"),
      "lost2" := TestAlloc("lost2", Running, false, "lost")]
  }

  lemma TestAllocsClassified()
    ensures TestAllocs().Keys == {"migrating1", "migrating2", "untainted1", "untainted2",
      "untainted3", "untainted4", "lost1", "lost2"}
    ensures forall id :: id in TestAllocs() ==>
      Classify(TestAllocs()[id], TestNodes())
        == if id in {"migrating1", "migrating2"} then Migrate
           else if id in {"lost1", "lost2"} then Taint.Lost
           else Untainted
  {
    var s, n := TestAllocs(), TestNodes();
    assert Classify(s["migrating1"], n) == Migrate;
    assert Classify(s["migrating2"], n) == Migrate;
    assert Classify(s["untainted1"], n) == Untainted;
    assert Classify(s["untainted2"], n) == Untainted;
    assert Classify(s["untainted3"], n) == Untainted;
    assert Classify(s["untainted4"], n) == Untainted;
    assert Classify(s["lost1"], n) == Taint.Lost;
    assert Classify(s["lost2"], n) == Taint.Lost;
  }

  /** The keys of one class of the test's split are the IDs the test expects there. */
  lemma TestClassKeys(t: Taint, expected: set<string>)
    requires expected == if t == Migrate then {"migrating1", "migrating2"}
      else if t == Taint.Lost then {"lost1", "lost2"}
      else {"untainted1", "untainted2", "untainted3", "untainted4"}
    ensures Select(TestAllocs(), TestAllocs().Keys, TestNodes(), t).Keys == expected
  {
    var s, n := TestAllocs(), TestNodes();
    TestAllocsClassified();
    var sel := Select(s, s.Keys, n, t);
    forall id | id in sel.Keys ensures id in expected {
      assert id in s.Keys;
    }
    forall id | id in expected ensures id in sel.Keys {
      assert id in s.Keys;
    }
  }

  /** A map has as many entries as keys. */
  lemma SizeByKeys(m: AllocSet, keys: set<string>, n: nat)
    requires m.Keys == keys && |keys| == n
    ensures |m| == n
  {
  }

  lemma ExpectedCounts()
    ensures |{"untainted1", "untainted2", "untainted3", "untainted4"}| == 4
    ensures |{"migrating1", "migrating2"}| == 2
    ensures |{"lost1", "lost2"}| == 2
  {
  }

  /** The test's split: four untainted (three of them terminal), two migrating, two lost. */
  lemma FilterByTaintedSplit(allocs: AllocSet, nodes: NodeTable)
    requires allocs == TestAllocs() && nodes == TestNodes()
    ensures TaintPartition(allocs, nodes).untainted.Keys
      == {"untainted1", "untainted2", "untainted3", "untainted4"}
    ensures TaintPartition(allocs, nodes).migrate.Keys == {"migrating1", "migrating2"}
    ensures TaintPartition(allocs, nodes).lost.Keys == {"lost1", "lost2"}
    ensures |TaintPartition(allocs, nodes).untainted| == 4
    ensures |TaintPartition(allocs, nodes).migrate| == 2
    ensures |TaintPartition(allocs, nodes).lost| == 2
  {
    var p := TaintPartition(allocs, nodes);
    TestClassKeys(Untainted, {"untainted1", "untainted2", "untainted3", "untainted4"});
    TestClassKeys(Migrate, {"migrating1", "migrating2"});
    TestClassKeys(Taint.Lost, {"lost1", "lost2"});
    ExpectedCounts();
    SizeByKeys(p.untainted, {"untainted1", "untainted2", "untainted3", "untainted4"}, 4);
    SizeByKeys(p.migrate, {"migrating1", "migrating2"}, 2);
    SizeByKeys(p.lost, {"lost1", "lost2"}, 2);
  }

  // ---------------------------------------------------------------------
  // shouldFilter: an allocation with one dead task

  function DeadTaskAlloc(desired: DesiredStatus, client: ClientStatus, failed: bool): Allocation {
    Allocation("", "", "", "", "", client, desired, DesiredTransition(None),
      map["task" := TaskState(TaskDead, failed)])
  }

  lemma ShouldFilterBatchRows()
    ensures ShouldFilter(DeadTaskAlloc(Run, Running, false), true) == FilterOutcome(true, false)
    ensures ShouldFilter(DeadTaskAlloc(Stop, Running, false), true) == FilterOutcome(true, false)
    ensures ShouldFilter(DeadTaskAlloc(Stop, Complete, true), true) == FilterOutcome(false, true)
    ensures ShouldFilter(DeadTaskAlloc(Evict, Complete, false), true) == FilterOutcome(false, true)
    ensures ShouldFilter(DeadTaskAlloc(Run, Failed, false), true) == FilterOutcome(false, false)
  {
  }

  lemma ShouldFilterServiceRows()
    ensures ShouldFilter(DeadTaskAlloc(Run, Running, false), false) == FilterOutcome(false, false)
    ensures ShouldFilter(DeadTaskAlloc(Stop, Complete, false), false) == FilterOutcome(false, true)
    ensures ShouldFilter(DeadTaskAlloc(Evict, Complete, false), false) == FilterOutcome(false, true)
    ensures ShouldFilter(DeadTaskAlloc(Run, Complete, false), false) == FilterOutcome(false, true)
  {
  }
}
