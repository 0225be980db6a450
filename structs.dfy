/**
 * The scheduler's view of the cluster state: allocations, their task
 * states and the nodes they run on, together with the status predicates the
 * reconciliation helpers consult and the encoding of an allocation's
 * instance index in its name ("<job>.<group>[<index>]").
 */
module Structs {
  import opened Wrappers

  /** NoClientStatus is the empty status string of an allocation the client has not reported on. */
  datatype ClientStatus = Pending | Running | Complete | Failed | Lost | NoClientStatus

  /** NoDesiredStatus is the empty status string of an allocation whose desired status is unset. */
  datatype DesiredStatus = Run | Stop | Evict | NoDesiredStatus

  datatype TaskStateKind = TaskPending | TaskRunning | TaskDead

  datatype TaskState = TaskState(state: TaskStateKind, failed: bool)

  /** The migrate flag is a Go pointer: None is nil. */
  datatype DesiredTransition = DesiredTransition(migrate: Option<bool>)

  datatype Allocation = Allocation(
    id: string,
    jobId: string,
    taskGroup: string,
    name: string,
    nodeId: string,
    clientStatus: ClientStatus,
    desiredStatus: DesiredStatus,
    desiredTransition: DesiredTransition,
    taskStates: map<string, TaskState>)

  /** NoNodeStatus is the empty status string of a node record whose status is unset. */
  datatype NodeStatus = Initializing | Ready | Down | NoNodeStatus

  /** A node; `draining` holds exactly when the node carries a drain strategy. */
  datatype Node = Node(id: string, status: NodeStatus, draining: bool)

  /** The server has asked for the allocation to stop. */
  predicate ServerTerminalStatus(a: Allocation)
    ensures !ServerTerminalStatus(a) <==> a.desiredStatus == Run || a.desiredStatus == NoDesiredStatus
  {
    a.desiredStatus == Stop || a.desiredStatus == Evict
  }

  /** The client reports that the allocation is no longer running. */
  predicate ClientTerminalStatus(a: Allocation)
    ensures !ClientTerminalStatus(a) <==>
      a.clientStatus == Pending || a.clientStatus == Running || a.clientStatus == NoClientStatus
  {
    a.clientStatus == Complete || a.clientStatus == Failed || a.clientStatus == Lost
  }

  /** An allocation is live only while the server wants it and the client still runs it. */
  predicate TerminalStatus(a: Allocation)
    ensures !TerminalStatus(a) <==>
      (a.desiredStatus == Run || a.desiredStatus == NoDesiredStatus)
      && (a.clientStatus == Pending || a.clientStatus == Running || a.clientStatus == NoClientStatus)
  {
    ServerTerminalStatus(a) || ClientTerminalStatus(a)
  }

  /** Migration is requested only by a migrate flag that is present and true. */
  predicate ShouldMigrate(t: DesiredTransition)
    ensures !ShouldMigrate(t) <==> t.migrate == None || t.migrate == Some(false)
  {
    t.migrate.Some? && t.migrate.value
  }

  /** A task succeeded only once it is dead, and never when it failed. */
  predicate Successful(t: TaskState)
    ensures Successful(t) ==> t.state == TaskDead
    ensures t.failed ==> !Successful(t)
  {
    t.state == TaskDead && !t.failed
  }

  /** The allocation has task states and every task finished without failing. */
  predicate RanSuccessfully(a: Allocation)
    ensures a.taskStates == map[] ==> !RanSuccessfully(a)
    ensures RanSuccessfully(a) <==> |a.taskStates| > 0 && forall name :: name in a.taskStates ==>
      a.taskStates[name].state == TaskDead && !a.taskStates[name].failed
  {
    |a.taskStates| > 0 && forall name :: name in a.taskStates ==> Successful(a.taskStates[name])
  }

  /** A node is terminal once it is down. */
  predicate NodeTerminalStatus(n: Node)
    ensures !NodeTerminalStatus(n) <==> n.status == Initializing || n.status == Ready || n.status == NoNodeStatus
  {
    n.status == Down
  }

  // ---------------------------------------------------------------------
  // Decimal numerals and the instance index embedded in a name

  predicate IsDigit(c: char) {
    '0' <= c <= '9'
  }

  predicate AllDigits(s: string) {
    forall i :: 0 <= i < |s| ==> IsDigit(s[i])
  }

  function DigitChar(d: nat): (c: char)
    requires d < 10
    ensures IsDigit(c) && c as int - '0' as int == d
  {
    ('0' as int + d) as char
  }

  function DecimalValue(s: string): nat
    requires AllDigits(s)
    decreases |s|
  {
    if s == [] then 0 else 10 * DecimalValue(s[..|s| - 1]) + (s[|s| - 1] as int - '0' as int)
  }

  /**
   * Reads an unsigned decimal numeral; anything else (the empty string, a
   * stray character) is a parse error, which the caller reads as index 0.
   */
  function ParseDecimal(s: string): Option<nat> {
    if s != [] && AllDigits(s) then Some(DecimalValue(s)) else None
  }

  /** The decimal numeral of n, without leading zeros. */
  function FormatDecimal(n: nat): (s: string)
    ensures s != [] && AllDigits(s)
    ensures |s| > 1 ==> s[0] != '0'
    decreases n
  {
    if n < 10 then [DigitChar(n)] else FormatDecimal(n / 10) + [DigitChar(n % 10)]
  }

  lemma {:induction false} ParseFormatDecimal(n: nat)
    ensures ParseDecimal(FormatDecimal(n)) == Some(n)
    decreases n
  {
    var s := FormatDecimal(n);
    if n >= 10 {
      ParseFormatDecimal(n / 10);
      assert s[..|s| - 1] == FormatDecimal(n / 10);
      assert DecimalValue(s[..|s| - 1]) == n / 10;
      assert DecimalValue(s) == 10 * (n / 10) + n % 10;
    }
  }

  /** The name the scheduler gives the index-th instance of a task group. */
  function AllocName(jobId: string, taskGroup: string, index: nat): (name: string)
    ensures |name| == |jobId| + |taskGroup| + 3 + |FormatDecimal(index)|
    ensures name[|name| - 1] == ']'
  {
    jobId + "." + taskGroup + "[" + FormatDecimal(index) + "]"
  }

  /**
   * The instance index embedded in the allocation's name: the text between
   * the "<job>.<group>[" prefix (measured by length only) and the last
   * character. A name too short to hold it, or text that is not a numeral,
   * gives index 0.
   */
  function Index(a: Allocation): (index: nat)
    ensures |a.name| <= |a.jobId| + |a.taskGroup| + 2 ==> index == 0
    ensures index != 0 ==>
      var text := a.name[|a.jobId| + |a.taskGroup| + 2..|a.name| - 1];
      text != [] && AllDigits(text) && DecimalValue(text) == index
    ensures |a.name| > 3 && |a.name| > |a.jobId| + |a.taskGroup| + 2 ==>
      var text := a.name[|a.jobId| + |a.taskGroup| + 2..|a.name| - 1];
      text != [] && AllDigits(text) ==> index == DecimalValue(text)
  {
    var l := |a.name|;
    var prefix := |a.jobId| + |a.taskGroup| + 2;
    if l <= 3 || l <= prefix then 0
    else match ParseDecimal(a.name[prefix..l - 1])
      case Some(n) => n
      case None => 0
  }

  /** Naming an allocation and reading its index back is the identity. */
  lemma IndexOfAllocName(a: Allocation, index: nat)
    requires a.name == AllocName(a.jobId, a.taskGroup, index)
    ensures Index(a) == index
  {
    var prefix := |a.jobId| + |a.taskGroup| + 2;
    assert a.name[prefix..|a.name| - 1] == FormatDecimal(index);
    ParseFormatDecimal(index);
  }
}
