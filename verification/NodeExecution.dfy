/** One node's execution: a sandboxed attempt, and the retry loop that decides whether
    the node counts as succeeded or failed. */
module NodeExecution {

  datatype NodeState = Pending | Running | Success | Failed | Cancelled

  datatype NodeResult = Done | NodeError(code: int, message: string)

  /** What the node body does when it is called for the k-th time. */
  datatype Attempt = Returns | ThrowsException(what: string) | ThrowsUnknown

  datatype Instance = NullNode | Body(attempt: nat -> Attempt)

  /** One sandboxed attempt: every way the body can end becomes a result. */
  function AttemptResult(node: Instance, k: nat): NodeResult {
    match node
    case NullNode => NodeError(1, "null plugin node")
    case Body(attempt) =>
      match attempt(k)
      case Returns => Done
      case ThrowsException(what) => NodeError(2, "plugin exception: " + what)
      case ThrowsUnknown => NodeError(3, "plugin threw unknown exception")
  }

  /** The budget: the first attempt and `maxRetries` more. */
  function MaxAttempts(maxRetries: int): nat {
    if maxRetries + 1 < 0 then 0 else maxRetries + 1
  }

  /** The body returns from the first call or from one of the retries. */
  ghost predicate Succeeds(node: Instance, maxRetries: int) {
    exists k: nat :: k <= maxRetries && node.Body? && node.attempt(k).Returns?
  }

  /** The budget and the attempts decide it. */
  lemma SucceedsIff(node: Instance, maxRetries: int)
    ensures Succeeds(node, maxRetries) <==>
      exists k: nat :: k < MaxAttempts(maxRetries) && AttemptResult(node, k).Done?
  {
    if k: nat :| k <= maxRetries && node.Body? && node.attempt(k).Returns? {
      assert AttemptResult(node, k).Done?;
    }
    if k: nat :| k < MaxAttempts(maxRetries) && AttemptResult(node, k).Done? {
      assert node.Body? && node.attempt(k).Returns?;
    }
  }

  class NodeExecutionWrapper {
    const node: Instance
    const maxRetries: int
    var state: NodeState
    var calls: nat

    constructor (node: Instance, maxRetries: int)
      ensures this.node == node && this.maxRetries == maxRetries
      ensures state == Pending && calls == 0
    {
      this.node, this.maxRetries := node, maxRetries;
      state, calls := Pending, 0;
    }

    /** One sandboxed attempt.  It never throws: it is a success exactly when there is a node
        and its body returns, and otherwise the error code tells the three failures apart. */
    method ExecuteOnce() returns (r: NodeResult)
      modifies this`calls
      ensures calls == old(calls) + 1 && r == AttemptResult(node, old(calls))
      ensures r.Done? <==> node.Body? && node.attempt(old(calls)).Returns?
      ensures r.NodeError? ==> 1 <= r.code <= 3
      ensures r.NodeError? ==> (r.code == 1 <==> node.NullNode?)
      ensures r.NodeError? ==> (r.code == 2 <==> node.Body? && node.attempt(old(calls)).ThrowsException?)
      ensures r.NodeError? && r.code == 1 ==> r.message == "null plugin node"
      ensures r.NodeError? && r.code == 2 ==> r.message == "plugin exception: " + node.attempt(old(calls)).what
      ensures r.NodeError? && r.code == 3 ==> r.message == "plugin threw unknown exception"
    {
      var k := calls;
      calls := calls + 1;
      if node.NullNode? {
        return NodeError(1, "null plugin node");
      }
      match node.attempt(k) {
        case Returns => r := Done;
        case ThrowsException(what) => r := NodeError(2, "plugin exception: " + what);
        case ThrowsUnknown => r := NodeError(3, "plugin threw unknown exception");
      }
    }

    /** Stops at the first success, otherwise makes every attempt and reports the last
        error.  A negative retry count leaves no attempt at all, and the node fails. */
    method Execute() returns (r: NodeResult)
      requires calls == 0
      modifies this
      ensures r.Done? <==> exists k: nat :: k <= maxRetries && node.Body? && node.attempt(k).Returns?
      ensures state == if Succeeds(node, maxRetries) then Success else Failed
      ensures forall k: nat :: k + 1 < calls ==> node.NullNode? || !node.attempt(k).Returns?
      ensures calls > 0 ==> r == AttemptResult(node, calls - 1)
      ensures r.Done? ==> 0 < calls <= maxRetries + 1
      ensures !r.Done? ==> calls == if maxRetries < 0 then 0 else maxRetries + 1
      ensures calls == 0 ==> r == NodeError(0, "not executed")
    {
      state := Running;
      var maxAttempts := maxRetries + 1;
      r := NodeError(0, "not executed");
      var attempt := 0;
      while attempt < maxAttempts
        invariant calls == attempt && (attempt == 0 || attempt <= maxAttempts)
        invariant forall k: nat :: k < attempt ==> node.NullNode? || !node.attempt(k).Returns?
        invariant attempt == 0 ==> r == NodeError(0, "not executed")
        invariant attempt > 0 ==> r == AttemptResult(node, attempt - 1)
      {
        r := ExecuteOnce();
        if r.Done? {
          state := Success;
          return;
        }
        attempt := attempt + 1;
      }
      state := Failed;
    }
  }
}
