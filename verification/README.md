# ControlNode in Dafny

A model of `ControlNode` (control_node.rb), a small synchronous combinator in
the spirit of Haskell's Either. A node is settled while it is built: its
initializer block is handed the two setters `resolve` and `reject`, which
write `@state` (`:succeeded` or `:failed`) and `@result`. `chain(on_success,
on_failure = nil)` then routes the node's result:

- on a succeeded node it calls `on_success`. If the value answers
  `to_deferrable`, the conversion is the answer. Otherwise the answer is a
  new succeeded node holding the *original* result.
- on a failed node, or one no setter ever ran on, it calls `on_failure` if
  one is given. If the value answers `to_promise`, the conversion is the
  answer. Otherwise the answer is meant to be a terminal `ControlNode::VoidNode`
  holding the original result (as written, line 64 raises NameError there;
  see Findings).
- a `VoidNode` answers every `chain` with itself.

The model has two modules.

- `ControlNodes` (control_node.dfy) holds the objects `chain` can see. `Obj`
  is nil, a plain object, a node, or a foreign object with flags for
  "answers `to_deferrable`" and "answers `to_promise`" and what each call
  does. `Node` is a ControlNode (`Control(state, result)`) or a VoidNode
  (`Void(result)`). `Node.Chain` and `to_promise` are functions on these
  values. Branches are total functions `Obj -> Reply`: a branch returns an
  object or raises. Each `Run` records which branch was invoked, so "never
  called" is a statement about the model. Settlement changes fields in
  place, so it is the class `ControlNode`. Its constructor replays the
  initializer block, given as the list of setter calls it makes, through
  the `Resolve`/`Reject` methods.
- `FluentChains` (fluent.dfy) is a caller's fluent expression
  `node.chain(..).chain(..)`, evaluated call by call (`Evaluate`, with
  `chain` as the step in `Fluent`). It holds the properties of whole expressions:
  a VoidNode absorbs every later call, an expression splits at any point,
  and the carried result never changes while no branch hands back a
  chainable.

Where the code and the usage example in its leading comment
(control_node.rb:27-43) differ, the model follows the code, except at the
fall-through of control_node.rb:64 (see Findings):

- The success arm asks for `to_deferrable`. Nodes define only `to_promise`.
  So a node returned by a success branch is not passed on: it is replaced by
  a succeeded node holding the original result (`SuccessBranchNodeIsRewrapped`).
  The example therefore does not do what its comments say.
- The fall-through of the failure arm names `VoidControlNode`, which does not
  exist, so as written it raises NameError (`ChainAsWritten`). The corrected
  `Node.Chain`, which everything else uses, builds the `VoidNode` the rest of
  the file provides.

Two more points of the code are kept as written:

- The setters may be called zero times or several times. With no call,
  `@state` is nil and the node takes the failure arm. With several, the last
  call wins.
- `chain` checks only that `on_success` is truthy, not that it can be called.

## Model

| member | source | states |
|---|---|---|
| ControlNodes.ControlNode.constructor | control_node.rb:50-52 | the new node is `Settled(block)`: the block's setter calls applied in order |
| ControlNodes.Settled | control_node.rb:74-82 | the state is nil exactly when no setter ran, and then the result is nil too; otherwise the last call gives the result, and the state is :succeeded exactly when that call was `resolve` |
| ControlNodes.ControlNode.Resolve | control_node.rb:74-77 | sets the state to :succeeded and the result to the given value |
| ControlNodes.ControlNode.Reject | control_node.rb:79-82 | sets the state to :failed and the result to the given value |
| ControlNodes.LastCallWins | control_node.rb:74-82 | whatever the block did earlier, a later run of setter calls alone decides the node |
| ControlNodes.SetterSettles | control_node.rb:74-82 | after any earlier calls, `resolve(v)` leaves a succeeded node holding v and `reject(v)` a failed one |
| ControlNodes.Node.Chain | control_node.rb:54-66 | at most one branch is invoked, always with the node's own result, and only if a success branch is given; a raise with no branch invoked is the missing-success-branch error |
| ControlNodes.ChainAsWritten | control_node.rb:54-66 | `chain` as written: at every fall-through of the failure arm it raises NameError where the corrected `chain` answers `Void(result)`; it invokes the same branches, and agrees with the corrected `chain` everywhere else |
| ControlNodes.Node.ToPromise | control_node.rb:92-94 | a node's `to_promise` answers that same node, for a VoidNode as here and for a ControlNode as at control_node.rb:68-70 |
| ControlNodes.StateOf | control_node.rb:87-90 | a VoidNode's state is always :failed; a ControlNode's is its `@state`; only a ControlNode can be unsettled or succeeded |
| ControlNodes.DeferrableOf | control_node.rb:59 | only a foreign object can answer `to_deferrable`; nil, plain objects and nodes never do |
| ControlNodes.PromiseOf | control_node.rb:63 | a node answers `to_promise` with itself; otherwise only a foreign object can answer it |
| ControlNodes.ChainControl | control_node.rb:54-65 | on a ControlNode at most one branch runs, and it gets the node's result |
| ControlNodes.ControlNode.Chain | control_node.rb:54-66 | `chain` on the object is `chain` on its current state and result, invokes at most one branch, and leaves both fields unchanged |
| ControlNodes.ControlNode.ToPromise | control_node.rb:68-70 | answers the receiver itself |
| ControlNodes.MissingSuccessBranchRaises | control_node.rb:55 | with no success branch a ControlNode raises RuntimeError with the fixed message and invokes nothing, in every state |
| ControlNodes.SuccessPlainValueKeepsResult | control_node.rb:57-60 | succeeded node, branch value without `to_deferrable`: a new succeeded node with the original result; only `on_success` is invoked |
| ControlNodes.SuccessDeferrablePassesThrough | control_node.rb:57-59 | succeeded node, branch value with `to_deferrable`: what that conversion returns or raises is the answer |
| ControlNodes.SuccessBranchNodeIsRewrapped | control_node.rb:59-60 | a node returned by a success branch is not the answer; a succeeded node with the original result is |
| ControlNodes.FailureArmInvokes | control_node.rb:61-62 | failed or unsettled node: `on_success` is never invoked, `on_failure` is invoked exactly when given |
| ControlNodes.FailurePromisePassesThrough | control_node.rb:62-63 | failed or unsettled node, failure value with `to_promise`: that conversion is the answer |
| ControlNodes.FailureBranchNodeIsReturned | control_node.rb:63 | a node returned by a failure branch is itself the answer |
| ControlNodes.FailureFallsThroughToVoid | control_node.rb:62-64 | failed or unsettled node with no failure branch or a plain failure value: a VoidNode with the original result |
| ControlNodes.VoidChainIsSelf | control_node.rb:96-98 | a VoidNode's `chain` answers the node itself and invokes nothing, even with no success branch |
| ControlNodes.NodeToPromiseIsIdentity | control_node.rb:92-94 | every node answers `to_promise` with itself and does not answer `to_deferrable` |
| ControlNodes.BranchErrorsPropagate | control_node.rb:58-63 | a raise inside the invoked branch is the answer of `chain`, never turned into a failed node; only that branch was invoked |
| ControlNodes.AsWrittenFallthroughRaises | control_node.rb:64 | as written, a failed node chained with no failure branch raises NameError; the corrected `chain` answers a VoidNode |
| ControlNodes.AsWrittenAgreesElsewhere | control_node.rb:54-66 | the written and corrected `chain` differ only where the corrected one answers the fall-through VoidNode |
| FluentChains.Evaluate | control_node.rb:54-66 | for any per-call step that invokes at most one branch: an expression evaluates at most its calls, invokes no more branches than calls evaluated, and stops early only at a raise or at a foreign chainable; when the first call answers nil or a plain object and another call follows, that call raises NoMethodError and the expression ends after two calls |
| FluentChains.Fluent | control_node.rb:54-66 | the same for an expression whose every call is `chain`: at most its calls are evaluated, no more branches are invoked than calls evaluated, it stops early only at a raise or a foreign chainable, and a `chain` sent to the nil or plain object the first call answered raises NoMethodError |
| FluentChains.VoidAbsorbs | control_node.rb:96-98 | from a VoidNode, any sequence of `chain` calls answers that same node and invokes nothing |
| FluentChains.AppendAfterNode | control_node.rb:54-66 | for any per-call step: when the `a` calls end in a node, the expression `a + b` is the `a` calls followed by the `b` calls sent to that node |
| FluentChains.AppendAfterChainless | control_node.rb:54-66 | for any per-call step: when the `a` calls end in nil or a plain object, the first `b` call raises NoMethodError and nothing more is invoked |
| FluentChains.AppendAfterStop | control_node.rb:54-66 | for any per-call step: when the `a` calls raised or ended in a foreign chainable, the `b` calls are never evaluated |
| FluentChains.FluentAppend | control_node.rb:54-66 | any expression of calls `a + b` splits at the boundary into one of the three cases above |
| FluentChains.PlainChainsKeepResult | control_node.rb:57-64 | while no branch hands back a chainable, the answer holds the first node's result: a succeeded node stays succeeded, any other ends as a VoidNode |
| FluentChains.SettledThenPlainChains | control_node.rb:50-64 | a node built by a block ending in `resolve(v)` stays succeeded with v; one ending in `reject(v)` ends as a VoidNode with v |
| FluentChains.ResolvedThenRaises | control_node.rb:57-60 | resolved with 5: a plain success branch gives a succeeded node with 5; a raising success branch then ends the expression with that raise |
| FluentChains.ConversionToNilThenChainRaises | control_node.rb:59 | a success branch whose value converts to nil makes `chain` answer nil; the next `chain` raises NoMethodError |
| FluentChains.RejectedEndsInVoid | control_node.rb:61-64 | rejected with 5: the failure branch runs once, the answer is a VoidNode with 5, and later calls invoke nothing |

## Left out

- Object identity: nodes are values. "Returns `self`" is modelled as returning an equal value. Nodes are only changed through their setters, so equal values behave alike.
- A branch that calls a node's setters while `chain` runs: the block can keep the `resolve`/`reject` method objects it receives and call them later. Branches here are pure functions, so they cannot change a node.
- A setter called after construction: the class's `Resolve`/`Reject` methods allow it, but the fluent model reads each node's state once.
- `ControlNode.new` without a block: Ruby raises LocalJumpError at the `yield` (control_node.rb:51). The constructor here always receives a block, given as its list of setter calls.
- An initializer block that raises, so that `ControlNode.new` raises: the block is modelled as the finite list of setter calls it completes.
- A truthy `on_success` that cannot be called: Ruby raises NoMethodError from it on the success arm only. Branches here are always callable or absent (nil/false).
- Wrong argument counts (calling `chain` with no arguments, a branch lambda of another arity): these are Ruby `ArgumentError`s outside this model.
- A foreign chainable returned by a conversion: its own `chain` is not modelled, so a fluent expression stops there (`Fluent` records how many calls it evaluated). Nil and plain objects are modelled: a `chain` sent to them raises NoMethodError.
- What branches print or do besides returning or raising.
- The usage example in the leading comment (control_node.rb:1-45): it prints to the console and is not an oracle for the code.

## Findings

| source | as written | input that shows it | evidently intended | confidence | as-written member | corrected member |
|---|---|---|---|---|---|---|
| control_node.rb:64 | the failure arm's fall-through builds `VoidControlNode.new(result)`, a constant defined nowhere, so it raises NameError | `ControlNode.new { \|_, rej\| rej.call(5) }.chain(->(_) {})` | build the nested `ControlNode::VoidNode` holding the original result | high; not executed | ControlNodes.AsWrittenFallthroughRaises | ControlNodes.FailureFallsThroughToVoid |
