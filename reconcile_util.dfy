/**
 * The reconciler's allocation-set helpers: building the bitmap of instance
 * indices in use, splitting non-terminal allocations by the health of their
 * nodes, and the policy that decides what happens to a finished allocation.
 */
module ReconcileUtil {
  import opened Wrappers
  import opened Structs
  import opened Bitmaps

  /** Allocations keyed by allocation ID. */
  type AllocSet = map<string, Allocation>

  /**
   * The tainted nodes, keyed by node ID: only nodes that are draining or down
   * are entered, and a node missing from the state is entered as a nil record
   * (None). A node ID absent from the table therefore names a healthy node.
   */
  type NodeTable = map<string, Option<Node>>

  /** Every allocation is filed under its own ID, as allocation sets are built. */
  predicate KeyedById(s: AllocSet) {
    forall key :: key in s ==> s[key].id == key
  }

  // ---------------------------------------------------------------------
  // Bitmap of the instance indices in use

  /** The instance indices the allocations' names carry. */
  function InUse(input: AllocSet): set<nat> {
    set id | id in input :: Index(input[id])
  }

  /** The largest element of a set of indices, 0 for the empty set. */
  ghost function MaxOf(s: set<nat>): (m: nat)
    ensures forall x :: x in s ==> x <= m
    ensures s == {} ==> m == 0
    ensures s != {} ==> m in s
    decreases s
  {
    if s == {} then 0
    else
      var y :| y in s;
      var rest := MaxOf(s - {y});
      assert forall x :: x in s ==> x == y || x in s - {y};
      if y > rest then y else rest
  }

  /** An upper bound of the set that is 0 or one of its elements is its maximum. */
  lemma MaxOfUnique(s: set<nat>, m: nat)
    requires forall x :: x in s ==> x <= m
    requires m == 0 || m in s
    ensures m == MaxOf(s)
  {
  }

  /** The highest instance index in use, 0 when there is none. */
  ghost function MaxIndex(input: AllocSet): nat {
    MaxOf(InUse(input))
  }

  /**
   * The number of indices the bitmap is made with: the minimum is raised to
   * the number of allocations, the highest index is used unless it falls
   * below that minimum (and is bumped by one when it is a multiple of 8), and
   * the result is rounded up to whole bytes.
   */
  function BitmapSize(highest: nat, minSize: nat, count: nat): (size: nat)
    ensures size > 0 && size % 8 == 0
    ensures highest < size
    ensures minSize <= size && count <= size
  {
    var min := if minSize < count then count else minSize;
    var max := if highest < min then min else if highest % 8 == 0 then highest + 1 else highest;
    var max' := if max == 0 then 8 else max;
    if max' % 8 != 0 then max' + 8 - max' % 8 else max'
  }

  /**
   * The bitmap size wastes at most one byte: it is the smallest positive
   * multiple of 8 that holds index `highest` and is at least the minimum and
   * the count.
   */
  lemma BitmapSizeIsLeast(highest: nat, minSize: nat, count: nat)
    ensures var size := BitmapSize(highest, minSize, count);
      size == 8 || size - 8 <= highest || size - 8 < minSize || size - 8 < count
  {
    var min := if minSize < count then count else minSize;
    var max := if highest < min then min else if highest % 8 == 0 then highest + 1 else highest;
    var size := BitmapSize(highest, minSize, count);
    if max % 8 != 0 {
      assert size == max + 8 - max % 8;
      assert size - 8 < max;
    } else {
      assert size == max || (max == 0 && size == 8);
    }
  }

  /** Every index in use fits in a bitmap sized from the highest of them. */
  lemma BitmapSizeCoversInUse(input: AllocSet, minSize: nat)
    ensures forall i :: i in InUse(input) ==> i < BitmapSize(MaxIndex(input), minSize, |input|)
  {
  }

  /** A bitmap large enough for every index in use, with exactly those indices set. */
  method BitmapFrom(input: AllocSet, minSize: nat) returns (b: Bitmap)
    ensures fresh(b) && fresh(b.bytes)
    ensures b.Size() == BitmapSize(MaxIndex(input), minSize, |input|)
    ensures b.Size() >= minSize && forall id :: id in input ==> Index(input[id]) < b.Size()
    ensures b.Members() == InUse(input)
  {
    var max := 0;
    var todo := input.Keys;
    while todo != {}
      invariant todo <= input.Keys
      invariant forall id :: id in input && id !in todo ==> Index(input[id]) <= max
      invariant max == 0 || exists id :: id in input && id !in todo && Index(input[id]) == max
      decreases todo
    {
      var id :| id in todo;
      if Index(input[id]) > max {
        max := Index(input[id]);
      }
      todo := todo - {id};
    }
    forall i | i in InUse(input)
      ensures i <= max
    {
      var id :| id in input && Index(input[id]) == i;
    }
    MaxOfUnique(InUse(input), max);

    var size := BitmapSize(max, minSize, |input|);
    var r := NewBitmap(size);
    assert r.Success?;
    b := r.value;

    todo := input.Keys;
    while todo != {}
      invariant todo <= input.Keys
      invariant fresh(b) && fresh(b.bytes) && b.Size() == size
      invariant b.Members() == set id | id in input && id !in todo :: Index(input[id])
      decreases todo
    {
      var id :| id in todo;
      b.Set(Index(input[id]));
      todo := todo - {id};
    }
  }

  // ---------------------------------------------------------------------
  // Splitting allocations by node taint

  datatype Taint = Untainted | Migrate | Lost

  /**
   * Where one allocation goes: terminal allocations stay untainted, a
   * requested migration is honoured, an allocation whose node is not in the
   * table is untainted, and one whose node record is nil or down is lost.
   * The drain flag is never read: a draining node matters only through being
   * in the table.
   */
  function Classify(alloc: Allocation, nodes: NodeTable): (t: Taint)
    ensures TerminalStatus(alloc) ==> t == Untainted
    ensures t == Migrate <==> !TerminalStatus(alloc) && ShouldMigrate(alloc.desiredTransition)
    ensures t == Taint.Lost <==>
      && !TerminalStatus(alloc) && !ShouldMigrate(alloc.desiredTransition)
      && alloc.nodeId in nodes
      && (nodes[alloc.nodeId] == None || nodes[alloc.nodeId].value.status == Down)
  {
    if TerminalStatus(alloc) then Untainted
    else if ShouldMigrate(alloc.desiredTransition) then Migrate
    else if alloc.nodeId !in nodes then Untainted
    else match nodes[alloc.nodeId]
      case None => Taint.Lost
      case Some(n) => if NodeTerminalStatus(n) then Taint.Lost else Untainted
  }

  /** The allocations of `s` whose IDs are in `keys` and that classify as `t`. */
  function Select(s: AllocSet, keys: set<string>, nodes: NodeTable, t: Taint): AllocSet {
    map id | id in s && id in keys && Classify(s[id], nodes) == t :: s[id]
  }

  datatype TaintSplit = TaintSplit(untainted: AllocSet, migrate: AllocSet, lost: AllocSet)

  /** Classifying one more allocation adds it to the set of its class and to no other. */
  lemma SelectOneMore(s: AllocSet, keys: set<string>, key: string, nodes: NodeTable, t: Taint)
    requires key in s && key !in keys
    ensures Select(s, keys + {key}, nodes, t)
      == if Classify(s[key], nodes) == t then Select(s, keys, nodes, t)[key := s[key]] else Select(s, keys, nodes, t)
  {
  }

  /** The three selections of a set's keys cover the set and do not overlap. */
  lemma SelectsPartition(s: AllocSet, nodes: NodeTable)
    ensures var u, m, l := Select(s, s.Keys, nodes, Untainted).Keys,
      Select(s, s.Keys, nodes, Migrate).Keys, Select(s, s.Keys, nodes, Taint.Lost).Keys;
      && u + m + l == s.Keys
      && u !! m && u !! l && m !! l
  {
    forall id | id in s
      ensures id in Select(s, s.Keys, nodes, Classify(s[id], nodes))
    {
    }
  }

  /** The three-way split of an allocation set by Classify: every ID lands in exactly one class. */
  function TaintPartition(s: AllocSet, nodes: NodeTable): (r: TaintSplit)
    ensures r.untainted.Keys + r.migrate.Keys + r.lost.Keys == s.Keys
    ensures r.untainted.Keys !! r.migrate.Keys && r.untainted.Keys !! r.lost.Keys && r.migrate.Keys !! r.lost.Keys
  {
    SelectsPartition(s, nodes);
    TaintSplit(Select(s, s.Keys, nodes, Untainted), Select(s, s.Keys, nodes, Migrate), Select(s, s.Keys, nodes, Taint.Lost))
  }

  /**
   * The split is an exact partition: every allocation lands, unchanged, in
   * exactly one of the three sets.
   */
  lemma TaintPartitionIsExact(s: AllocSet, nodes: NodeTable)
    ensures var p := TaintPartition(s, nodes);
      && p.untainted.Keys + p.migrate.Keys + p.lost.Keys == s.Keys
      && p.untainted.Keys !! p.migrate.Keys
      && p.untainted.Keys !! p.lost.Keys
      && p.migrate.Keys !! p.lost.Keys
      && (forall id :: id in p.untainted ==> p.untainted[id] == s[id])
      && (forall id :: id in p.migrate ==> p.migrate[id] == s[id])
      && (forall id :: id in p.lost ==> p.lost[id] == s[id])
  {
  }

  /** No allocation is dropped or duplicated: the three sizes add up to the input's. */
  lemma TaintPartitionSizes(s: AllocSet, nodes: NodeTable)
    ensures var p := TaintPartition(s, nodes);
      |p.untainted| + |p.migrate| + |p.lost| == |s|
  {
    var p := TaintPartition(s, nodes);
    DisjointUnionSize(p.untainted.Keys, p.migrate.Keys, p.lost.Keys);
  }

  lemma DisjointUnionSize<T>(a: set<T>, b: set<T>, c: set<T>)
    requires a !! b && a !! c && b !! c
    ensures |a + b + c| == |a| + |b| + |c|
  {
    assert |a + b| == |a| + |b|;
  }

  /** An allocation's class is decided by Classify and nothing else. */
  lemma TaintPartitionMembership(s: AllocSet, nodes: NodeTable, id: string)
    requires id in s
    ensures var p := TaintPartition(s, nodes);
      && (id in p.untainted <==> Classify(s[id], nodes) == Untainted)
      && (id in p.migrate <==> Classify(s[id], nodes) == Migrate)
      && (id in p.lost <==> Classify(s[id], nodes) == Taint.Lost)
  {
  }

  /** Terminal allocations are untainted whatever the state of their node. */
  lemma TerminalIsUntainted(alloc: Allocation, nodes: NodeTable)
    requires TerminalStatus(alloc)
    ensures Classify(alloc, nodes) == Untainted
  {
  }

  /**
   * A running or pending allocation asked to migrate migrates: on a draining
   * node, on a nil node record and on a node missing from the table.
   */
  lemma MigrateRequestedMigrates(alloc: Allocation, nodes: NodeTable)
    requires !TerminalStatus(alloc)
    requires ShouldMigrate(alloc.desiredTransition)
    ensures Classify(alloc, nodes) == Migrate
  {
  }

  /** A running or pending allocation not asked to migrate is lost when its node is down. */
  lemma DownNodeLoses(alloc: Allocation, nodes: NodeTable, n: Node)
    requires !TerminalStatus(alloc) && !ShouldMigrate(alloc.desiredTransition)
    requires alloc.nodeId in nodes && nodes[alloc.nodeId] == Some(n) && n.status == Down
    ensures Classify(alloc, nodes) == Taint.Lost
  {
  }

  /**
   * Draining alone does not taint. The drain flag plays no part here: what
   * keeps the allocation is that its node is in the table and not down,
   * and that it does not ask to migrate.
   */
  lemma DrainingAloneKeeps(alloc: Allocation, nodes: NodeTable, n: Node)
    requires !TerminalStatus(alloc) && !ShouldMigrate(alloc.desiredTransition)
    requires alloc.nodeId in nodes && nodes[alloc.nodeId] == Some(n) && n.draining && n.status != Down
    ensures Classify(alloc, nodes) == Untainted
  {
  }

  /** A running or pending allocation not asked to migrate stays untainted on a ready node. */
  lemma ReadyNodeKeeps(alloc: Allocation, nodes: NodeTable, n: Node)
    requires !TerminalStatus(alloc) && !ShouldMigrate(alloc.desiredTransition)
    requires alloc.nodeId in nodes && nodes[alloc.nodeId] == Some(n) && n.status == Ready
    ensures Classify(alloc, nodes) == Untainted
  {
  }

  /**
   * Walks the allocations once and files each under its ID in one of three
   * new sets, in the order of the checks Classify makes.
   */
  method FilterByTainted(s: AllocSet, nodes: NodeTable) returns (untainted: AllocSet, migrate: AllocSet, lost: AllocSet)
    requires KeyedById(s)
    ensures TaintSplit(untainted, migrate, lost) == TaintPartition(s, nodes)
  {
    untainted, migrate, lost := map[], map[], map[];
    var todo := s.Keys;
    while todo != {}
      invariant todo <= s.Keys
      invariant untainted == Select(s, s.Keys - todo, nodes, Untainted)
      invariant migrate == Select(s, s.Keys - todo, nodes, Migrate)
      invariant lost == Select(s, s.Keys - todo, nodes, Taint.Lost)
      decreases todo
    {
      var key :| key in todo;
      var alloc := s[key];
      assert alloc.id == key;
      SelectOneMore(s, s.Keys - todo, key, nodes, Untainted);
      SelectOneMore(s, s.Keys - todo, key, nodes, Migrate);
      SelectOneMore(s, s.Keys - todo, key, nodes, Taint.Lost);
      assert s.Keys - (todo - {key}) == (s.Keys - todo) + {key};
      if TerminalStatus(alloc) {
        untainted := untainted[alloc.id := alloc];
      } else if ShouldMigrate(alloc.desiredTransition) {
        migrate := migrate[alloc.id := alloc];
      } else if alloc.nodeId !in nodes {
        untainted := untainted[alloc.id := alloc];
      } else if nodes[alloc.nodeId].None? || NodeTerminalStatus(nodes[alloc.nodeId].value) {
        lost := lost[alloc.id := alloc];
      } else {
        untainted := untainted[alloc.id := alloc];
      }
      todo := todo - {key};
    }
    assert s.Keys - todo == s.Keys;
  }

  // ---------------------------------------------------------------------
  // Policy for allocations whose tasks are dead

  /** `untainted`: keep the allocation as current; `ignore`: drop it from reconciliation. */
  datatype FilterOutcome = FilterOutcome(untainted: bool, ignore: bool)

  /**
   * For a batch job a stopped allocation is kept when it ran successfully and
   * ignored otherwise, an evicted one is ignored, a failed one is neither,
   * and any other is kept. For a service job a stopped or evicted allocation
   * is ignored, as is one the client reports complete or lost, and nothing
   * is kept.
   */
  function ShouldFilter(alloc: Allocation, isBatch: bool): (r: FilterOutcome)
    ensures !(r.untainted && r.ignore)
    ensures r.ignore ==> TerminalStatus(alloc)
    ensures r.untainted ==> isBatch
  {
    if isBatch then
      match alloc.desiredStatus
      case Stop => if RanSuccessfully(alloc) then FilterOutcome(true, false) else FilterOutcome(false, true)
      case Evict => FilterOutcome(false, true)
      case _ =>
        if alloc.clientStatus == Failed then FilterOutcome(false, false) else FilterOutcome(true, false)
    else
      if ServerTerminalStatus(alloc) then FilterOutcome(false, true)
      else if alloc.clientStatus == Complete || alloc.clientStatus == ClientStatus.Lost then FilterOutcome(false, true)
      else FilterOutcome(false, false)
  }

  /**
   * A service allocation is ignored exactly when it is terminal, except that
   * a failed allocation the server still wants running is left for
   * replacement.
   */
  lemma ServiceIgnoresTerminal(alloc: Allocation)
    ensures ShouldFilter(alloc, false).ignore
      <==> TerminalStatus(alloc) && !(alloc.clientStatus == Failed && !ServerTerminalStatus(alloc))
  {
  }

  /**
   * A batch allocation is kept exactly when it was stopped after running
   * successfully, or is neither stopped nor evicted and has not failed; a
   * failed one the server still wants running is left for replacement.
   */
  lemma BatchKeepsSuccessfulOrUnfailed(alloc: Allocation)
    ensures ShouldFilter(alloc, true).untainted
      <==> ((alloc.desiredStatus == Stop && RanSuccessfully(alloc))
            || (alloc.desiredStatus != Stop && alloc.desiredStatus != Evict && alloc.clientStatus != Failed))
  {
  }

  /**
   * A batch allocation is ignored exactly when the server stopped it and it
   * did not run successfully, or evicted it.
   */
  lemma BatchIgnoresUnsuccessfulStops(alloc: Allocation)
    ensures ShouldFilter(alloc, true).ignore
      <==> alloc.desiredStatus == Evict || (alloc.desiredStatus == Stop && !RanSuccessfully(alloc))
  {
  }
}
