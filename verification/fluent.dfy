/**
 * A caller's fluent expression `node.chain(..).chain(..)...`: each `chain`
 * is sent to what the previous one returned. The lemmas here are about
 * whole expressions: a VoidNode absorbs every later call, an expression
 * splits into two consecutive ones, and on the paths where no branch
 * hands back a chainable the carried result never changes.
 */
module FluentChains {
  import opened ControlNodes

  /** The arguments of one `chain` call. */
  datatype ChainCall = ChainCall(onSuccess: Option<Branch>, onFailure: Option<Branch>)

  /**
   * A fluent expression: every branch invoked, in order; what the last
   * evaluated `chain` returned or raised; and how many `chain` calls were
   * evaluated.
   */
  datatype Trace = Trace(invoked: seq<Invocation>, outcome: Reply, evaluated: nat)

  /** The reply is a node, so a further `chain` can be sent to it. */
  predicate ReturnsNode(r: Reply) {
    r.Returns? && r.value.NodeObj?
  }

  /** The reply is nil or a plain object, which has no `chain` method. */
  predicate ReturnsChainless(r: Reply) {
    r.Returns? && (r.value.Nil? || r.value.Atom?)
  }

  /**
   * What Ruby raises when `chain` is sent to nil or a plain object (the
   * receiver's description in the message is left out).
   */
  const NoChainMethod := Exception("NoMethodError", "undefined method `chain'")

  /** What one `chain` call of an expression does to the node it is sent to. */
  type Step = (Node, ChainCall) -> Run

  /** A step invokes at most one branch, as `chain` does. */
  ghost predicate AtMostOneBranch(step: Step) {
    forall m, c :: |step(m, c).invoked| <= 1
  }

  /**
   * Evaluates the calls from left to right, each by `step`. A raise aborts
   * the rest of the expression. A `chain` sent to nil or a plain object
   * raises NoMethodError. A foreign chainable also ends the expression
   * here: its own `chain` is not part of this model.
   */
  function Evaluate(step: Step, n: Node, calls: seq<ChainCall>): (t: Trace)
    requires AtMostOneBranch(step)
    ensures t.evaluated <= |calls|
    ensures calls != [] ==> 1 <= t.evaluated
    ensures |t.invoked| <= t.evaluated
    ensures t.evaluated < |calls| ==> !ReturnsNode(t.outcome) && !ReturnsChainless(t.outcome)
    ensures 2 <= |calls| && ReturnsChainless(step(n, calls[0]).outcome) ==>
      t == Trace(step(n, calls[0]).invoked, Raises(NoChainMethod), 2)
    decreases |calls|
  {
    if calls == [] then
      Trace([], Returns(NodeObj(n)), 0)
    else
      var first := step(n, calls[0]);
      if ReturnsNode(first.outcome) then
        var rest := Evaluate(step, first.outcome.value.node, calls[1..]);
        Trace(first.invoked + rest.invoked, rest.outcome, rest.evaluated + 1)
      else if ReturnsChainless(first.outcome) && |calls| > 1 then
        Trace(first.invoked, Raises(NoChainMethod), 2)
      else
        Trace(first.invoked, first.outcome, 1)
  }

  /** One `chain` call. */
  function ChainStep(): (step: Step)
    ensures AtMostOneBranch(step)
  {
    (m: Node, c: ChainCall) => m.Chain(c.onSuccess, c.onFailure)
  }

  /** The fluent expression `n.chain(..).chain(..)...`, each call being `chain`. */
  function Fluent(n: Node, calls: seq<ChainCall>): (t: Trace)
    ensures t.evaluated <= |calls|
    ensures calls != [] ==> 1 <= t.evaluated
    ensures |t.invoked| <= t.evaluated
    ensures t.evaluated < |calls| ==> !ReturnsNode(t.outcome) && !ReturnsChainless(t.outcome)
    ensures 2 <= |calls| && ReturnsChainless(n.Chain(calls[0].onSuccess, calls[0].onFailure).outcome) ==>
      t == Trace(n.Chain(calls[0].onSuccess, calls[0].onFailure).invoked, Raises(NoChainMethod), 2)
  {
    Evaluate(ChainStep(), n, calls)
  }

  /** Once an expression reaches a VoidNode, every later `chain` answers it again and invokes nothing. */
  lemma {:induction false} VoidAbsorbs(v: Obj, calls: seq<ChainCall>)
    ensures Fluent(Void(v), calls) == Trace([], Returns(NodeObj(Void(v))), |calls|)
  {
    if calls != [] {
      VoidAbsorbs(v, calls[1..]);
    }
  }

  /** A prefix `a` that ends in a node: the `b` calls continue from that node. */
  lemma {:induction false} AppendAfterNode(step: Step, n: Node, a: seq<ChainCall>, b: seq<ChainCall>)
    requires AtMostOneBranch(step)
    requires Evaluate(step, n, a).evaluated == |a| && ReturnsNode(Evaluate(step, n, a).outcome)
    ensures var t := Evaluate(step, n, a);
      var u := Evaluate(step, t.outcome.value.node, b);
      Evaluate(step, n, a + b) == Trace(t.invoked + u.invoked, u.outcome, |a| + u.evaluated)
    decreases |a|
  {
    if a == [] {
      assert a + b == b;
    } else {
      assert (a + b)[0] == a[0];
      assert (a + b)[1..] == a[1..] + b;
      var first := step(n, a[0]);
      var m := first.outcome.value.node;
      AppendAfterNode(step, m, a[1..], b);
      var t := Evaluate(step, m, a[1..]);
      var u := Evaluate(step, t.outcome.value.node, b);
      assert first.invoked + (t.invoked + u.invoked) == (first.invoked + t.invoked) + u.invoked;
    }
  }

  /** A prefix `a` that ends in nil or a plain object: the first `b` call raises NoMethodError. */
  lemma {:induction false} AppendAfterChainless(step: Step, n: Node, a: seq<ChainCall>, b: seq<ChainCall>)
    requires AtMostOneBranch(step)
    requires Evaluate(step, n, a).evaluated == |a| && ReturnsChainless(Evaluate(step, n, a).outcome) && b != []
    ensures Evaluate(step, n, a + b) == Trace(Evaluate(step, n, a).invoked, Raises(NoChainMethod), |a| + 1)
    decreases |a|
  {
    assert a != [];
    assert (a + b)[0] == a[0];
    assert (a + b)[1..] == a[1..] + b;
    var first := step(n, a[0]);
    if ReturnsNode(first.outcome) {
      AppendAfterChainless(step, first.outcome.value.node, a[1..], b);
    }
  }

  /** A prefix `a` that raised or ended in a foreign chainable: the `b` calls are never evaluated. */
  lemma {:induction false} AppendAfterStop(step: Step, n: Node, a: seq<ChainCall>, b: seq<ChainCall>)
    requires AtMostOneBranch(step)
    requires var t := Evaluate(step, n, a);
      !(t.evaluated == |a| && (ReturnsNode(t.outcome) || ReturnsChainless(t.outcome)))
    ensures Evaluate(step, n, a + b) == Evaluate(step, n, a)
    decreases |a|
  {
    assert a != [];
    assert (a + b)[0] == a[0];
    assert (a + b)[1..] == a[1..] + b;
    var first := step(n, a[0]);
    if ReturnsNode(first.outcome) {
      AppendAfterStop(step, first.outcome.value.node, a[1..], b);
    }
  }

  /**
   * `e.chain(a..).chain(b..)` is `e.chain(a..)` followed by the `b` calls
   * sent to the node it ended in; if it ended in nil or a plain object, the
   * first `b` call raises NoMethodError; if it ended anywhere else, the `b`
   * calls are never evaluated.
   */
  lemma FluentAppend(n: Node, a: seq<ChainCall>, b: seq<ChainCall>)
    ensures var t := Fluent(n, a);
      if t.evaluated == |a| && ReturnsNode(t.outcome) then
        var u := Fluent(t.outcome.value.node, b);
        Fluent(n, a + b) == Trace(t.invoked + u.invoked, u.outcome, |a| + u.evaluated)
      else if t.evaluated == |a| && ReturnsChainless(t.outcome) && b != [] then
        Fluent(n, a + b) == Trace(t.invoked, Raises(NoChainMethod), |a| + 1)
      else
        Fluent(n, a + b) == t
  {
    var step := ChainStep();
    var t := Evaluate(step, n, a);
    if t.evaluated == |a| && ReturnsNode(t.outcome) {
      AppendAfterNode(step, n, a, b);
    } else if t.evaluated == |a| && ReturnsChainless(t.outcome) {
      if b != [] {
        AppendAfterChainless(step, n, a, b);
      } else {
        assert a + b == a;
      }
    } else {
      AppendAfterStop(step, n, a, b);
    }
  }

  /** On the calls of an expression, the branches applied to `v` hand back nothing chainable. */
  predicate PlainOn(c: ChainCall, v: Obj) {
    && (c.onSuccess.Some? ==> !YieldsDeferrable(c.onSuccess.value(v)))
    && (c.onFailure.Some? ==> !YieldsPromise(c.onFailure.value(v)))
  }

  /**
   * When no branch hands back a chainable, the result carried to the end
   * is the first node's: a succeeded node stays succeeded with it, and a
   * failed or unsettled one ends in a VoidNode holding it.
   */
  lemma {:induction false} PlainChainsKeepResult(n: Node, calls: seq<ChainCall>)
    requires forall i :: 0 <= i < |calls| ==> PlainOn(calls[i], n.result)
    ensures var t := Fluent(n, calls);
      t.outcome.Returns? ==>
        && t.evaluated == |calls|
        && t.outcome.value.NodeObj?
        && t.outcome.value.node.result == n.result
        && (calls != [] ==>
              t.outcome.value.node == if n == Control(Succeeded, n.result) then n else Void(n.result))
    decreases |calls|
  {
    if calls != [] {
      var first := n.Chain(calls[0].onSuccess, calls[0].onFailure);
      assert PlainOn(calls[0], n.result);
      if ReturnsNode(first.outcome) {
        var m := first.outcome.value.node;
        assert m == if n == Control(Succeeded, n.result) then n else Void(n.result);
        forall i | 0 <= i < |calls[1..]|
          ensures PlainOn(calls[1..][i], m.result)
        {
          assert calls[1..][i] == calls[i + 1];
        }
        PlainChainsKeepResult(m, calls[1..]);
      }
    }
  }

  /** A node freshly built by an initializer block starts an expression with the block's settlement. */
  lemma {:induction false} SettledThenPlainChains(block: seq<SetterCall>, calls: seq<ChainCall>)
    requires block != [] && calls != []
    requires forall i :: 0 <= i < |calls| ==> PlainOn(calls[i], block[|block| - 1].value)
    ensures var t := Fluent(Settled(block), calls);
      t.outcome.Returns? ==>
        t.outcome.value == NodeObj(
          if block[|block| - 1].CallResolve? then Control(Succeeded, block[|block| - 1].value)
          else Void(block[|block| - 1].value))
  {
    PlainChainsKeepResult(Settled(block), calls);
  }

  /**
   * A node resolved with 5, chained with a success branch that returns
   * nil, is a new succeeded node holding 5; chaining on it a success branch
   * that raises ends the expression with that raise, and the failure branch
   * never runs.
   */
  lemma ResolvedThenRaises()
    ensures
      var five := Atom("5");
      var x := Exception("RuntimeError", "x");
      var calls := [ChainCall(Some(_ => Returns(Nil)), None),
                    ChainCall(Some(_ => Raises(x)), Some(_ => Returns(Nil)))];
      && Fluent(Settled([CallResolve(five)]), calls[..1]).outcome == Returns(NodeObj(Control(Succeeded, five)))
      && Fluent(Settled([CallResolve(five)]), calls) == Trace([OnSuccess(five), OnSuccess(five)], Raises(x), 2)
  {
  }

  /**
   * A node rejected with 5 and chained with a failure branch returning nil
   * ends in a VoidNode holding 5; two further calls, whose success branch
   * would raise, invoke nothing.
   */
  lemma RejectedEndsInVoid()
    ensures
      var five := Atom("5");
      var plain := ChainCall(Some(_ => Returns(Nil)), Some(_ => Returns(Nil)));
      var never := ChainCall(Some(_ => Raises(Exception("RuntimeError", "not executed"))), None);
      Fluent(Settled([CallReject(five)]), [plain, never, never])
        == Trace([OnFailure(five)], Returns(NodeObj(Void(five))), 3)
  {
    var five := Atom("5");
    var plain := ChainCall(Some(_ => Returns(Nil)), Some(_ => Returns(Nil)));
    var never := ChainCall(Some(_ => Raises(Exception("RuntimeError", "not executed"))), None);
    var calls := [plain, never, never];
    assert calls[1..] == [never, never];
    VoidAbsorbs(five, calls[1..]);
  }

  /**
   * A success branch whose value converts, through `to_deferrable`, to nil:
   * that nil is what `chain` answers, and the next `chain` sent to it raises
   * NoMethodError without invoking anything more.
   */
  lemma ConversionToNilThenChainRaises(v: Obj, later: ChainCall)
    ensures
      var duck := Duck("deferrable", Some(Returns(Nil)), None);
      var first := ChainCall(Some(_ => Returns(duck)), None);
      && Fluent(Control(Succeeded, v), [first]) == Trace([OnSuccess(v)], Returns(Nil), 1)
      && Fluent(Control(Succeeded, v), [first, later]) == Trace([OnSuccess(v)], Raises(NoChainMethod), 2)
  {
  }
}
