# Nomad scheduler: allocation-set reconciliation helpers

A Dafny model of three helpers the Nomad scheduler's reconciler uses on the
allocations of one task group:

- **bitmapFrom** builds the bitmap of instance indices in use. Each
  allocation's name has the form `<job>.<group>[<index>]`. The bitmap is a byte
  buffer with bit `index % 8` of byte `index / 8` per index. It is sized to a
  whole number of bytes that holds the highest index in use, the requested
  minimum and the number of allocations.
- **allocSet.filterByTainted** splits an allocation set, keyed by allocation
  ID, into *untainted*, *migrate* and *lost*. It uses a node table in which a
  node ID may be missing or may map to a nil record.
- **shouldFilter** decides for an allocation whose tasks are dead whether it is
  kept as current (*untainted*), dropped from reconciliation (*ignore*), or
  neither. Batch and service jobs follow different rules.

Files:

- `wrappers.dfy`: `Option` (a pointer that may be nil) and `Result` (a value or an error).
- `structs.dfy`: allocations, task states, nodes, their status predicates, and
  the decimal index inside an allocation name.
- `bitmap.dfy`: the bitmap class over an `array<bv8>`, with `Size`, `Check`, `Set` and `NewBitmap`.
- `reconcile_util.dfy`: `BitmapFrom` and its sizing rule, the taint split as a
  specification function (`TaintPartition`) and as the loop the reconciler
  runs (`FilterByTainted`), and `ShouldFilter`.
- `reconcile_util_test.dfy`: the unit tests' fixtures and expected outcomes,
  proved of the model.

The helpers live in `scheduler/reconcile_util.go` and `nomad/structs`. The
"## Model" rows cite the unit tests in `scheduler/reconcile_util_test.go`
that fix each behaviour. Those tests' fixtures and expected outcomes are
proved in `reconcile_util_test.dfy`.

Behaviour worth noting:

- The node table given to `filterByTainted` holds only the tainted nodes. A
  node that is missing from the state is entered as a nil record. A node ID
  absent from the table therefore names a healthy node, and the allocation
  stays untainted.
- A migration request moves any non-terminal allocation to migrate, even one
  on a ready node.
- A nil node record makes an allocation lost even without a migration request.
- The drain flag of a node is never read. A draining node matters only through
  being in the table.
- The bitmap is rounded up to a multiple of 8 only, not to a power of two. For
  example, a highest index of 16 gives 24 indices.

## Model

| member | source | states |
|---|---|---|
| `Structs.Index` | scheduler/reconcile_util_test.go:21-27 | a name no longer than the `<job>.<group>[` prefix gives index 0; otherwise the index is exactly the value of the text between that prefix and the last character when that text is a non-empty numeral (so `foo.bar[08]` gives 8), and a nonzero index only arises that way |
| `Structs.AllocName` | scheduler/reconcile_util_test.go:25 | the name `<job>.<group>[<n>]` is three characters longer than the job, the group and the numeral together, and ends in `]` |
| `Structs.IndexOfAllocName` | scheduler/reconcile_util_test.go:21-27 | the index read back from a name built as `<job>.<group>[<n>]` is `n` |
| `Structs.ParseFormatDecimal` | scheduler/reconcile_util_test.go:25 | parsing the decimal numeral of `n` gives `n` back |
| `ReconcileUtilTest.IndexEightParses` | scheduler/reconcile_util_test.go:21-27 | the allocation named `foo.bar[8]` of job `foo`, group `bar` has index 8 |
| `Bitmaps.Bitmap.Size` | scheduler/reconcile_util_test.go:30-35 | the size counts eight indices per byte, so it is always a multiple of 8 |
| `Bitmaps.Bitmap.Check` | scheduler/reconcile_util_test.go:14-17 | testing an index against its byte's mask reads the same bit as shifting the byte down by `index % 8` |
| `Bitmaps.Bitmap.Set` | scheduler/reconcile_util_test.go:28 | setting an index sets that bit and leaves every other bit as it was |
| `Bitmaps.NewBitmap` | scheduler/reconcile_util_test.go:28-29 | a zero size and a size that is not a whole number of bytes are errors; otherwise the bitmap is fresh, has that size and is empty |
| `ReconcileUtil.BitmapSize` | scheduler/reconcile_util_test.go:14-17 | the size is positive, byte-aligned, above the highest index, and at least the minimum and the allocation count |
| `ReconcileUtil.BitmapSizeIsLeast` | scheduler/reconcile_util_test.go:28-37 | the size has at most one byte of slack: one byte less would miss the highest index, the minimum or the count |
| `ReconcileUtil.BitmapSizeCoversInUse` | scheduler/reconcile_util_test.go:14-17 | every index in use fits in the bitmap sized from the highest of them |
| `ReconcileUtil.BitmapFrom` | scheduler/reconcile_util_test.go:18-38 | the bitmap is fresh, sized by `BitmapSize`, at least the minimum, holds every index in use, and has exactly those indices set |
| `ReconcileUtilTest.BitmapFromSizes` | scheduler/reconcile_util_test.go:28-37 | with the one allocation at index 8, the size is 16 for minimum 1 and for minimum 8 |
| `ReconcileUtil.Classify` | scheduler/reconcile_util_test.go:65-123 | a terminal allocation is untainted; an allocation migrates exactly when it is not terminal and asks to migrate; it is lost exactly when it is not terminal, does not ask to migrate, and its node is in the table as nil or down |
| `ReconcileUtil.TaintPartition` | scheduler/reconcile_util_test.go:125-136 | untainted, migrate and lost together hold exactly the input's IDs, and no ID is in two of them |
| `Structs.TerminalStatus` | scheduler/reconcile_util_test.go:88-108 | an allocation is non-terminal exactly when its desired status is run (or unset) and its client status is pending, running or unset |
| `Structs.ServerTerminalStatus` | scheduler/reconcile_util_test.go:202-219 | the server side is non-terminal exactly when the desired status is run or unset |
| `Structs.ClientTerminalStatus` | scheduler/reconcile_util_test.go:88-108 | the client side is non-terminal exactly when the client status is pending, running or unset |
| `Structs.ShouldMigrate` | scheduler/reconcile_util_test.go:66-81 | no migration is requested exactly when the migrate flag is nil or false |
| `Structs.Successful` | scheduler/reconcile_util_test.go:235 | a task succeeded only when it is dead, and never when it failed |
| `Structs.RanSuccessfully` | scheduler/reconcile_util_test.go:159-176 | an allocation ran successfully exactly when it has at least one task state and every task is dead and not failed |
| `Structs.NodeTerminalStatus` | scheduler/reconcile_util_test.go:50-58 | a node is non-terminal exactly when its status is initializing, ready or unset |
| `ReconcileUtil.TaintPartitionIsExact` | scheduler/reconcile_util_test.go:125-136 | untainted, migrate and lost are pairwise disjoint, cover the input, and keep each allocation unchanged |
| `ReconcileUtil.TaintPartitionSizes` | scheduler/reconcile_util_test.go:126-134 | the sizes of untainted, migrate and lost add up to the size of the input |
| `ReconcileUtil.TaintPartitionMembership` | scheduler/reconcile_util_test.go:125-136 | an allocation is in a class exactly when its own classification says so |
| `ReconcileUtil.TerminalIsUntainted` | scheduler/reconcile_util_test.go:88-108 | a terminal allocation is untainted on any node, whether ready, draining, down, nil or missing |
| `ReconcileUtil.MigrateRequestedMigrates` | scheduler/reconcile_util_test.go:66-81 | a non-terminal allocation with the migrate flag set migrates, including on a draining node and on a nil node record |
| `ReconcileUtil.DownNodeLoses` | scheduler/reconcile_util_test.go:109-122 | a non-terminal allocation without a migration request on a down node is lost |
| `ReconcileUtil.ReadyNodeKeeps` | scheduler/reconcile_util_test.go:82-87 | a non-terminal allocation without a migration request on a ready node is untainted |
| `ReconcileUtil.DrainingAloneKeeps` | scheduler/reconcile_util_test.go:46-49 | draining without a migration request does not taint an allocation on a node that is not down; the drain flag plays no part, only the node's presence in the table and its status |
| `ReconcileUtil.FilterByTainted` | scheduler/reconcile_util_test.go:125 | the loop that files each allocation under its ID returns exactly the three sets of `TaintPartition` |
| `ReconcileUtilTest.FilterByTaintedSplit` | scheduler/reconcile_util_test.go:65-136 | on the test's eight allocations: untainted1-4 untainted, migrating1-2 migrate, lost1-2 lost, sizes 4, 2, 2 |
| `ReconcileUtil.ShouldFilter` | scheduler/reconcile_util_test.go:231-242 | never both untainted and ignore; only terminal allocations are ignored; only batch allocations are kept untainted |
| `ReconcileUtil.ServiceIgnoresTerminal` | scheduler/reconcile_util_test.go:193-228 | a service allocation is ignored exactly when it is terminal, unless it failed while the server still wants it running |
| `ReconcileUtil.BatchKeepsSuccessfulOrUnfailed` | scheduler/reconcile_util_test.go:150-192 | a batch allocation is kept untainted exactly when it was stopped after running successfully, or is neither stopped nor evicted and its client status is not failed |
| `ReconcileUtil.BatchIgnoresUnsuccessfulStops` | scheduler/reconcile_util_test.go:150-192 | a batch allocation is ignored exactly when it was evicted, or stopped without running successfully |
| `ReconcileUtilTest.ShouldFilterBatchRows` | scheduler/reconcile_util_test.go:150-192 | the five batch rows of the decision table, including the "neither" outcome for a failed run |
| `ReconcileUtilTest.ShouldFilterServiceRows` | scheduler/reconcile_util_test.go:193-228 | the four service rows of the decision table |

## Left out

- Index: only unsigned decimal numerals are read. A signed numeral such as `+8` or `-1` gives index 0 in the model, as does any other non-numeral. In the source, Go's `strconv.Atoi` reads `+8` as 8, clamps out-of-range values, and converting `-1` to `uint` gives the largest `uint`.
- Index: names are measured in characters, while Go's `len` and slicing count UTF-8 bytes. For a name that was not built from the allocation's own job ID and task group, and that holds non-ASCII characters, the model and the source can take different substrings.
- FilterByTainted: requires every allocation to be filed under its own ID. The Go loop accepts any allocation set and files each entry under its `ID`, so a set keyed otherwise (the bitmap test keys an allocation with an empty ID under "8") could lose entries to collisions in an order-dependent way. Allocation sets are built keyed by ID, and the specification function `TaintPartition` has no such requirement.
- Machine integer widths are not modelled: sizes and indices are unbounded `nat`s, while the source uses `uint`.
- Go iterates maps in an unspecified order. The loops here pick keys with a nondeterministic choice, and every result is proved for every order.
- The allocation's `Job` reference is not a field. `ShouldFilter` takes the batch flag as a parameter, as the source does.
- Node drain strategies are reduced to a `draining` flag. Job update stanzas and timestamps are not modelled.
- The other bitmap operations (`Unset`, `Clear`, `Copy`, `IndexesInRange`) and the name-index allocator that hands out the next free index are not modelled. No unit test in `scheduler/reconcile_util_test.go` exercises them.
- The other allocation-set operations (union, difference, filtering by terminal status, grouping) and the reconciler loop (placement counts, stop selection, plan emission) are not modelled. No unit test in `scheduler/reconcile_util_test.go` pins them.
- `drivers/exec/driver.go` (executor plugins, fingerprinting, signals, goroutines) and `helper/raftutil/snapshot.go` (snapshot restore through a pipe and a goroutine) are I/O and concurrency glue outside this model.
