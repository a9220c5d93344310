/**
 * The ControlNode combinator of control_node.rb: a node is settled as
 * succeeded or failed while it is built, and `chain` routes the node's
 * result to a success or a failure branch, returning the next node (or
 * whatever chainable object a branch hands back).
 *
 * Settlement changes fields in place and is modelled by the class
 * `ControlNode`; `chain` and `to_promise` only read the node and build
 * new values, and are modelled as functions on the datatype `Node`.
 */
module ControlNodes {

  datatype Option<+T> = None | Some(value: T)

  /** The value of `@state`: nil until a setter runs, then :succeeded or :failed. */
  datatype State = Unsettled | Succeeded | Failed

  /** A Ruby exception: its class name and its message. */
  datatype Exception = Exception(kind: string, message: string)

  /** Raised by `chain` when its success branch is nil or false. */
  const MissingSuccessBranch := Exception("RuntimeError", "ControlNode#chain requires a success branch")

  /** What evaluating the constant `VoidControlNode` raises: no class of that name exists. */
  const UndefinedVoidControlNode := Exception("NameError", "uninitialized constant ControlNode::VoidControlNode")

  /**
   * A Ruby object, as far as `chain` can observe it: whether it answers
   * `to_deferrable` or `to_promise`, and what that call does.
   */
  datatype Obj =
    | Nil
      // any other plain object: it answers none of `to_deferrable`, `to_promise` and `chain`
    | Atom(name: string)
      // a ControlNode or a ControlNode::VoidNode; both answer `to_promise` only
    | NodeObj(node: Node)
      // a foreign object; `Some(reply)` means it answers the method, and `reply` is what the call does;
      // whatever `chain` it may define is not part of this model
    | Duck(name: string, toDeferrable: Option<Reply>, toPromise: Option<Reply>)

  /** What a call does: return an object or raise. */
  datatype Reply = Returns(value: Obj) | Raises(error: Exception)

  /**
   * A node as `chain` sees it: a ControlNode with its `@state` and
   * `@result`, or a ControlNode::VoidNode, whose state is always :failed.
   */
  datatype Node = Control(state: State, result: Obj) | Void(result: Obj)
  {
    /** Both `to_promise` methods answer the receiver itself. */
    function ToPromise(): (o: Obj)
      ensures o.NodeObj? && o.node == this
    {
      NodeObj(this)
    }

    /**
     * `chain(on_success, on_failure)`: a VoidNode answers itself; a
     * ControlNode follows `ChainControl`, whose last fall-through builds a
     * VoidNode carrying the original result.
     */
    function Chain(onSuccess: Option<Branch>, onFailure: Option<Branch>): (r: Run)
      ensures |r.invoked| <= 1
      ensures forall k :: 0 <= k < |r.invoked| ==> r.invoked[k].arg == result
      ensures r.invoked != [] ==> onSuccess.Some?
      ensures r.outcome.Raises? && r.invoked == [] ==> r == Run([], Raises(MissingSuccessBranch))
    {
      match this
      case Void(_) => Run([], Returns(NodeObj(this)))
      case Control(state, result) =>
        ChainControl(state, result, onSuccess, onFailure, Returns(NodeObj(Void(result))))
    }
  }

  /**
   * The `state` reader. A VoidNode sets `@state` to :failed when it is
   * built, so only a ControlNode can be unsettled or succeeded.
   */
  function StateOf(n: Node): (s: State)
    ensures n.Void? ==> s == Failed
    ensures n.Control? ==> s == n.state
    ensures s != Failed ==> n.Control?
  {
    match n
    case Control(state, _) => state
    case Void(_) => Failed
  }

  /** A branch is a callable applied to the node's result; it returns or raises. */
  type Branch = Obj -> Reply

  /** Which branch `chain` called, and with what. */
  datatype Invocation = OnSuccess(arg: Obj) | OnFailure(arg: Obj)

  /** One call of `chain`: the branches it invoked, in order, and what it returned or raised. */
  datatype Run = Run(invoked: seq<Invocation>, outcome: Reply)

  /** `respond_to?(:to_deferrable)` and the call: only foreign objects may define it. */
  function DeferrableOf(o: Obj): (r: Option<Reply>)
    ensures r.Some? ==> o.Duck?
    ensures o.Duck? ==> r == o.toDeferrable
  {
    if o.Duck? then o.toDeferrable else None
  }

  /** `respond_to?(:to_promise)` and the call: nodes answer themselves. */
  function PromiseOf(o: Obj): (r: Option<Reply>)
    ensures r.Some? ==> o.NodeObj? || o.Duck?
    ensures o.NodeObj? ==> r == Some(Returns(o))
    ensures o.Duck? ==> r == o.toPromise
  {
    match o
    case NodeObj(n) => Some(Returns(n.ToPromise()))
    case Duck(_, _, p) => p
    case _ => None
  }

  /** The branch's reply answers `to_deferrable` (a raise answers nothing). */
  predicate YieldsDeferrable(v: Reply) {
    v.Returns? && DeferrableOf(v.value).Some?
  }

  /** The branch's reply answers `to_promise` (a raise answers nothing). */
  predicate YieldsPromise(v: Reply) {
    v.Returns? && PromiseOf(v.value).Some?
  }

  /**
   * `ControlNode#chain` on a node with the given `@state` and `@result`.
   * `fallthrough` is what the last line of the failure arm evaluates to.
   * There is no rescue: a raise from a branch or from a conversion is the
   * outcome as it is.
   */
  function ChainControl(state: State, result: Obj, onSuccess: Option<Branch>, onFailure: Option<Branch>,
                        fallthrough: Reply): (r: Run)
    ensures |r.invoked| <= 1
    ensures forall k :: 0 <= k < |r.invoked| ==> r.invoked[k].arg == result
  {
    if onSuccess.None? then
      Run([], Raises(MissingSuccessBranch))
    else if state == Succeeded then
      var v := onSuccess.value(result);
      if v.Raises? then Run([OnSuccess(result)], v)
      else match DeferrableOf(v.value)
        case Some(converted) => Run([OnSuccess(result)], converted)
        // `ControlNode.new { |res,_| res.call(result) }`
        case None => Run([OnSuccess(result)], Returns(NodeObj(Settled([CallResolve(result)]))))
    else
      // an unsettled node (`@state == nil`) takes this arm too
      var invoked := if onFailure.Some? then [OnFailure(result)] else [];
      var v := if onFailure.Some? then onFailure.value(result) else Returns(Nil);
      if v.Raises? then Run(invoked, v)
      else match PromiseOf(v.value)
        case Some(converted) => Run(invoked, converted)
        case None => Run(invoked, fallthrough)
  }

  /**
   * `chain` reaches the last line of its failure arm: a ControlNode that is
   * not succeeded, a success branch, and no failure branch or one whose
   * value neither raises nor answers `to_promise`.
   */
  predicate FallsThrough(n: Node, onSuccess: Option<Branch>, onFailure: Option<Branch>) {
    && n.Control? && n.state != Succeeded && onSuccess.Some?
    && (onFailure.Some? ==> onFailure.value(n.result).Returns? && !YieldsPromise(onFailure.value(n.result)))
  }

  /**
   * `chain` exactly as written: the failure arm's last line names
   * `VoidControlNode`, which no class defines, so evaluating it raises.
   */
  function ChainAsWritten(n: Node, onSuccess: Option<Branch>, onFailure: Option<Branch>): (r: Run)
    ensures FallsThrough(n, onSuccess, onFailure) ==> r.outcome == Raises(UndefinedVoidControlNode)
    ensures FallsThrough(n, onSuccess, onFailure) ==> n.Chain(onSuccess, onFailure).outcome == Returns(NodeObj(Void(n.result)))
    ensures r.invoked == n.Chain(onSuccess, onFailure).invoked
    ensures !FallsThrough(n, onSuccess, onFailure) ==> r == n.Chain(onSuccess, onFailure)
  {
    match n
    case Void(_) => n.Chain(onSuccess, onFailure)
    case Control(state, result) =>
      ChainControl(state, result, onSuccess, onFailure, Raises(UndefinedVoidControlNode))
  }

  /** A call the initializer block makes on one of the two setters it is given. */
  datatype SetterCall = CallResolve(value: Obj) | CallReject(value: Obj)

  /**
   * The node an initializer block leaves behind: each setter call
   * overwrites both fields, so the last call decides; no call at all
   * leaves both fields nil.
   */
  function Settled(block: seq<SetterCall>): (n: Node)
    ensures n.Control?
    ensures n.state == Unsettled <==> block == []
    ensures block != [] ==> n.result == block[|block| - 1].value
    ensures block != [] ==> (n.state == Succeeded <==> block[|block| - 1].CallResolve?)
    ensures block == [] ==> n.result == Nil
  {
    if block == [] then Control(Unsettled, Nil)
    else match block[|block| - 1]
      case CallResolve(v) => Control(Succeeded, v)
      case CallReject(v) => Control(Failed, v)
  }

  /** The ControlNode object, whose two fields only the setters assign. */
  class ControlNode {
    var state: State
    var result: Obj

    /** The node value `chain` reads. */
    function Snapshot(): (n: Node)
      reads this
    {
      Control(state, result)
    }

    /** `initialize`: yields the two setters to the block, which calls them in order. */
    constructor (block: seq<SetterCall>)
      ensures Snapshot() == Settled(block)
    {
      state := Unsettled;
      result := Nil;
      new;
      var i := 0;
      while i < |block|
        invariant 0 <= i <= |block|
        invariant Snapshot() == Settled(block[..i])
      {
        match block[i] {
          case CallResolve(v) => Resolve(v);
          case CallReject(v) => Reject(v);
        }
        i := i + 1;
      }
      assert block[..i] == block;
    }

    /** The private setter `resolve`. */
    method Resolve(v: Obj)
      modifies this
      ensures state == Succeeded && result == v
    {
      state := Succeeded;
      result := v;
    }

    /** The private setter `reject`. */
    method Reject(v: Obj)
      modifies this
      ensures state == Failed && result == v
    {
      state := Failed;
      result := v;
    }

    /**
     * `chain` on the object. It has no modifies clause: whatever the
     * branches do, the receiver's `state` and `result` stay as they were.
     */
    method Chain(onSuccess: Option<Branch>, onFailure: Option<Branch>) returns (r: Run)
      ensures r == Snapshot().Chain(onSuccess, onFailure)
    {
      r := Snapshot().Chain(onSuccess, onFailure);
    }

    /** `to_promise`: the identity adapter. */
    method ToPromise() returns (p: ControlNode)
      ensures p == this
    {
      p := this;
    }
  }

  // ----- Properties of settlement -----

  /** Whatever the block did before, a later run of calls decides the node alone. */
  lemma LastCallWins(earlier: seq<SetterCall>, later: seq<SetterCall>)
    requires later != []
    ensures Settled(earlier + later) == Settled(later)
  {
  }

  /** `resolve` settles as succeeded, `reject` as failed, each with the value it was given. */
  lemma SetterSettles(block: seq<SetterCall>, v: Obj)
    ensures Settled(block + [CallResolve(v)]) == Control(Succeeded, v)
    ensures Settled(block + [CallReject(v)]) == Control(Failed, v)
  {
  }

  // ----- Properties of chain -----

  /** Without a success branch a ControlNode raises before invoking anything, whatever its state. */
  lemma MissingSuccessBranchRaises(state: State, v: Obj, onFailure: Option<Branch>)
    ensures Control(state, v).Chain(None, onFailure) == Run([], Raises(MissingSuccessBranch))
  {
  }

  /**
   * Succeeded, plain value: a new succeeded node carrying the ORIGINAL
   * result; the branch's value is dropped and `on_failure` is not called.
   */
  lemma SuccessPlainValueKeepsResult(v: Obj, onSuccess: Branch, onFailure: Option<Branch>)
    requires !YieldsDeferrable(onSuccess(v)) && onSuccess(v).Returns?
    ensures Control(Succeeded, v).Chain(Some(onSuccess), onFailure)
         == Run([OnSuccess(v)], Returns(NodeObj(Control(Succeeded, v))))
  {
  }

  /** Succeeded, a value answering `to_deferrable`: what that conversion does is the outcome. */
  lemma SuccessDeferrablePassesThrough(v: Obj, onSuccess: Branch, onFailure: Option<Branch>)
    requires YieldsDeferrable(onSuccess(v))
    ensures Control(Succeeded, v).Chain(Some(onSuccess), onFailure)
         == Run([OnSuccess(v)], DeferrableOf(onSuccess(v).value).value)
  {
  }

  /**
   * A node returned by a success branch answers only `to_promise`, so it
   * is not passed on: it is replaced by a succeeded node holding the
   * original result.
   */
  lemma SuccessBranchNodeIsRewrapped(v: Obj, m: Node, onSuccess: Branch, onFailure: Option<Branch>)
    requires onSuccess(v) == Returns(NodeObj(m))
    ensures Control(Succeeded, v).Chain(Some(onSuccess), onFailure)
         == Run([OnSuccess(v)], Returns(NodeObj(Control(Succeeded, v))))
    ensures m != Control(Succeeded, v) ==> Control(Succeeded, v).Chain(Some(onSuccess), onFailure).outcome != onSuccess(v)
  {
  }

  /**
   * Failed or unsettled: the success branch is never called, and the
   * failure branch is called exactly when it is given.
   */
  lemma FailureArmInvokes(state: State, v: Obj, onSuccess: Branch, onFailure: Option<Branch>)
    requires state != Succeeded
    ensures Control(state, v).Chain(Some(onSuccess), onFailure).invoked
         == if onFailure.Some? then [OnFailure(v)] else []
  {
  }

  /** Failed or unsettled, a value answering `to_promise`: what that conversion does is the outcome. */
  lemma FailurePromisePassesThrough(state: State, v: Obj, onSuccess: Branch, onFailure: Branch)
    requires state != Succeeded && YieldsPromise(onFailure(v))
    ensures Control(state, v).Chain(Some(onSuccess), Some(onFailure))
         == Run([OnFailure(v)], PromiseOf(onFailure(v).value).value)
  {
  }

  /** A node returned by a failure branch is the outcome itself, since `to_promise` is the identity. */
  lemma FailureBranchNodeIsReturned(state: State, v: Obj, m: Node, onSuccess: Branch, onFailure: Branch)
    requires state != Succeeded && onFailure(v) == Returns(NodeObj(m))
    ensures Control(state, v).Chain(Some(onSuccess), Some(onFailure)) == Run([OnFailure(v)], Returns(NodeObj(m)))
  {
  }

  /**
   * Failed or unsettled with no failure branch, or one returning a plain
   * value: a VoidNode carrying the original result.
   */
  lemma FailureFallsThroughToVoid(state: State, v: Obj, onSuccess: Branch, onFailure: Option<Branch>)
    requires state != Succeeded
    requires onFailure.Some? ==> onFailure.value(v).Returns? && !YieldsPromise(onFailure.value(v))
    ensures Control(state, v).Chain(Some(onSuccess), onFailure).outcome == Returns(NodeObj(Void(v)))
  {
  }

  /** A VoidNode's `chain` answers the node itself and invokes nothing, even with no success branch. */
  lemma VoidChainIsSelf(v: Obj, onSuccess: Option<Branch>, onFailure: Option<Branch>)
    ensures Void(v).Chain(onSuccess, onFailure) == Run([], Returns(Void(v).ToPromise()))
  {
  }

  /** Both kinds of node answer `to_promise` with themselves. */
  lemma NodeToPromiseIsIdentity(n: Node)
    ensures PromiseOf(NodeObj(n)) == Some(Returns(NodeObj(n)))
    ensures DeferrableOf(NodeObj(n)) == None
  {
  }

  /** There is no rescue: a raise inside the invoked branch is the outcome of `chain`, unchanged. */
  lemma BranchErrorsPropagate(n: Node, onSuccess: Branch, onFailure: Option<Branch>, e: Exception)
    requires n.Control?
    requires StateOf(n) == Succeeded ==> onSuccess(n.result) == Raises(e)
    requires StateOf(n) != Succeeded ==> onFailure.Some? && onFailure.value(n.result) == Raises(e)
    ensures n.Chain(Some(onSuccess), onFailure).outcome == Raises(e)
    ensures n.Chain(Some(onSuccess), onFailure).invoked ==
      if StateOf(n) == Succeeded then [OnSuccess(n.result)] else [OnFailure(n.result)]
  {
  }

  /** `chain` as written raises NameError where the failure arm should build a VoidNode. */
  lemma AsWrittenFallthroughRaises(v: Obj, onSuccess: Branch)
    ensures ChainAsWritten(Control(Failed, v), Some(onSuccess), None) == Run([], Raises(UndefinedVoidControlNode))
    ensures Control(Failed, v).Chain(Some(onSuccess), None) == Run([], Returns(NodeObj(Void(v))))
  {
  }

  /** Everywhere else the written `chain` and the corrected one agree. */
  lemma AsWrittenAgreesElsewhere(n: Node, onSuccess: Option<Branch>, onFailure: Option<Branch>)
    requires n.Chain(onSuccess, onFailure).outcome != Returns(NodeObj(Void(n.result))) || n.Void?
    ensures ChainAsWritten(n, onSuccess, onFailure) == n.Chain(onSuccess, onFailure)
  {
  }
}
