# A verified model of the context cancellation tree

This project models `context/main.go`, a re-implementation of Go's `context`
package. The model covers:

- the tree of contexts that `WithCancel`, `WithCancelCause`,
  `WithDeadlineCause`, `AfterFunc`, `WithoutCancel` and `WithValue` build;
- the one-shot `cancel` transition that travels down that tree;
- `propagateCancel`, which links a new context to its parent;
- `removeChild`, which unlinks it again;
- the `value` walk up the tree, which answers `Value`, `Err`, `Done`,
  `Deadline` and `Cause`.

Every context is an entry of an arena (`seq<Node>`) and is named by its
index. Non-root contexts always sit after their parent, so every walk
recurses on the index.

- `wrappers.dfy`: an `Option` type.
- `context_model.dfy` (module `ContextModel`): the read-only half.
  - The node datatype, the arena's well-formedness (`WF`) and the invariant
    that each context's lock protects (`Sound`).
  - The walks as recursive functions: `DoneOwner`/`ChanOf` (`Done`), `ErrOf`,
    `DeadlineOf`, `Lookup` (`value`), `Cause`, and `CancelAncestor`
    (`parentCancelCtx`).
  - `Materialize`: the lazy channel creation in `cancelCtx.Done`.
  - `Detach`: `removeChild` as a state change.
  - Lemmas relating these walks to each other and to the reference
    definitions `Bindings`/`FirstMatch`.
- `context_tree.dfy` (module `ContextTree`): the state-changing half.
  - A class `Tree` holds the arena in a field. It has one method per function
    of the package that allocates or changes a context.
  - The `cancel` methods are mutually recursive. Their measure is the set of
    contexts not yet canceled. Each non-trivial call shrinks that set, which
    follows from the early return when `err` is already set.
  - Every `cancel` method ensures four predicates:
    - `Evolves` over the whole arena: errors are set once and only with the
      cancel's error and cause, and every context canceled has its channel
      closed; closed channels stay closed; a stopped timer stays stopped;
      the once-guard fires once.
    - `SettledBesides`: every other context it cancels has run its own
      cancel to the end (`Settled`: a timerCtx's timer stopped, an
      afterFuncCtx's once-guard fired and its function started).
    - `FirstCancelDone` for the node, on its first cancel: its channel is
      closed, its children set is nil, and every former child is canceled
      and Settled.
    - `Framed`: every context outside the node's subtree is as it was,
      except for the one children set `removeChild` edits when the node is
      detached. The subtree is the node and everything reachable through
      children sets.
  - The constructors ensure `CancelerMade`. It bundles four facts:
    - the new context is linked as `Propagated` says;
    - it is canceled only with its parent's error (`Linked`);
    - every older context keeps its kind, parent, error and cause
      (`Extends`);
    - it answers `Value` and `Deadline` as `Answers` says.

Time is a parameter, `now`. A running `time.AfterFunc` timer is the flag
`armed`, and `FireTimer` is the timer going off. `go a.f()` is a counter
`scheduled`. A Context implemented outside the package is the node kind
`Foreign`. It is the only kind that can have an `AfterFunc` method, so it
is the only way to reach the afterFuncer branch of `propagateCancel`.

## Model

| member | source | states |
|---|---|---|
| ContextModel.DoneOwner | context/main.go:231-247 | the channel `Done` returns belongs to the node itself or an ancestor, and that node is a canceler or a foreign context |
| ContextModel.Materialize | context/main.go:231-247 | loading `Done` changes at most a slot that was never loaded, into an open channel of its own, and keeps the arena well formed |
| ContextModel.ChanOf | context/main.go:231-247 | `Done`: the channel stored in the owner's slot (its own channel, `closedchan`, or nil before first load), nil when no owner serves `Done`; its contract says it is only ever the owner's own loaded channel or `closedchan`, and nil exactly without an owner or a loaded slot; MaterializeGivesChannel characterises it once loaded |
| ContextModel.MaterializeGivesChannel | context/main.go:231-247 | after `Done` is loaded, its owner is unchanged, and the channel is nil exactly when no canceler or foreign context serves it |
| ContextModel.Lookup | context/main.go:573-604 | the sentinel key `&cancelCtxKey` only ever yields a cancelCtx at or above the node asked |
| ContextModel.SentinelFindsDoneOwner | context/main.go:573-604 | the sentinel lookup finds exactly the canceler whose channel `Done` returns, and nil when no canceler serves `Done` (empty contexts, withoutCancelCtx, foreign contexts) |
| ContextModel.LookupIsInnermostBinding | context/main.go:564-604 | for every key but the private sentinel `&cancelCtxKey`, `value` returns the innermost binding on the path to the root, or nil |
| ContextModel.ErrOf | context/main.go:250-255 | `Err`: a value node forwards to its parent, the empty contexts and withoutCancelCtx answer nil, a canceler or foreign context answers its own error under its lock; its contract says a context whose `Done` has no owner never reports an error; ErrIsOwnerErr characterises it |
| ContextModel.ErrIsOwnerErr | context/main.go:250-255 | `Err` of any context is the error recorded by the node that owns its `Done` channel, and nil when there is none |
| ContextModel.Cause | context/main.go:607-614 | `Cause`: the cause stored in the cancelCtx the sentinel lookup finds, otherwise `Err`; its contract says it is nil for a context whose `Done` has no owner; CauseIsOwnerCause and CauseNilIffErrNil characterise it |
| ContextModel.CauseIsOwnerCause | context/main.go:607-614 | `Cause` is the cause recorded by the cancelCtx the sentinel finds, otherwise `Err` |
| ContextModel.CauseNilIffErrNil | context/main.go:607-614 | under the lock invariant, `Cause` is nil exactly when `Err` is nil |
| ContextModel.ClosedDoneHasErr | context/main.go:356-367 | a context whose `Done` channel is closed reports a non-nil `Err` and `Cause` |
| ContextModel.WithoutCancelHidesCancellation | context/main.go:409-419 | below a withoutCancelCtx boundary, `Done` is nil and `Err` and `Cause` are nil, whatever the ancestors' state |
| ContextModel.DeadlineOf | context/main.go:485-487 | `Deadline`: a timerCtx answers its own deadline, a foreign context its fixed one, the empty contexts and withoutCancelCtx (main.go:46-48, 405-407) none, every other kind forwards to its parent; its contract says a reported deadline is the own deadline of a timerCtx or foreign context at or above the node; NewCancelerAnswers and DeadlineMadeMeaning characterise it for new contexts |
| ContextModel.CancelAncestor | context/main.go:163-177 | parentCancelCtx after loading the parent's `Done`: no result for a nil or `closedchan` channel, otherwise the cancelCtx the sentinel finds, provided its stored channel is the very channel `Done` returned; its contract says the result is a canceler at or above the node whose own channel `Done` returned; CancelAncestorIsDoneOwner characterises it |
| ContextModel.CancelAncestorIsDoneOwner | context/main.go:163-177 | parentCancelCtx succeeds exactly when the owner of the parent's channel is a canceler whose channel is loaded and not `closedchan`, and it returns that owner |
| ContextModel.Detach | context/main.go:180-194 | removeChild as a state change: through a stopCtx, drop the child from the foreign parent's registrations; otherwise load the parent's `Done` and delete the child from the children set of the cancelCtx parentCancelCtx finds, when that set is not nil; its contract keeps the arena's length and the child itself; DetachRemovesOnlyChild characterises it |
| ContextModel.DetachFrom | context/main.go:180-194 | the context whose set removeChild edits: the foreign parent behind a stopCtx, else the cancelCtx parentCancelCtx finds, or none; its contract says that context was created before the child and is a canceler or foreign context |
| ContextModel.DetachRemovesOnlyChild | context/main.go:180-194 | removeChild changes no kind, parent, error or cause, keeps every children set nil or non-nil, keeps every entry other than `child`, and removes `child` from the set it edits |
| ContextModel.LinkCase | context/main.go:259-310 | the ancestor propagateCancel links a child into is a canceler at or above the parent |
| ContextModel.LinkCaseByOwner | context/main.go:259-327 | propagateCancel's case follows from the owner of the parent's channel: none means never canceled; closed means cancel at once; an open canceler is always found as the ancestor; only a foreign owner leads to AfterFunc registration or the watcher |
| ContextModel.ShapeAgree | context/main.go:573-604 | `Done`'s owner, `Deadline`, `value` and the bindings depend only on the kinds and parents of the node and its ancestors |
| ContextModel.PrefixAgree | context/main.go:607-614 | `Err`, `Cause` and `Done` depend only on the nodes at or below the node's index |
| ContextModel.SubtreeAbove | context/main.go:370-375 | the contexts a cancel of `n` reaches through children sets are `n` itself and contexts created after it |
| ContextModel.SubtreeOfChild | context/main.go:372-374 | the subtree of a registered child lies inside the subtree of its parent |
| ContextModel.SubtreeShrinks | context/main.go:372-378 | children sets only lose members, so a later subtree of `n` is never larger than an earlier one |
| ContextTree.PropagatedErrorIsParents | context/main.go:259-294 | a context linked by propagateCancel is canceled exactly when its parent reports an error, then with the parent's `Err` and `Cause`, a closed channel and its cancel run to the end (an afterFuncCtx's function started once); otherwise its timer and once-guard are untouched |
| ContextTree.CanceledSeesDone | context/main.go:356-367 | a context canceled by a cascade is seen canceled through the interface: its `Done` channel is closed and `Err` and `Cause` return that cascade's error and cause |
| ContextTree.OnceGuardSettles | context/main.go:141-149 | once an afterFuncCtx's once-guard has fired, no later cancellation starts its function again |
| ContextTree.GrowsShrinksUncanceled | context/main.go:356-360 | no step un-cancels a context, so the set of uncanceled contexts (the measure of the cancel recursion) never grows |
| ContextTree.NewCancelerAnswers | context/main.go:223-228 | a new canceler answers the sentinel key with itself and every other key as its parent does; a timerCtx reports its own deadline and any other canceler reports its parent's |
| ContextTree.DetachGrows | context/main.go:180-194 | removeChild keeps every error and cause and the lock invariant, and leaves the detached node itself unchanged |
| ContextTree.MaterializeTwice | context/main.go:231-247 | loading `Done` a second time changes nothing |
| ContextTree.FramedMeaning | context/main.go:347-386 | for a context outside `n`'s subtree (every context created before `n` is one): kind, parent, error and cause are as before; its children set keeps every member other than `n`; the set removeChild edits no longer holds `n` after a detaching cancel; without detaching it is unchanged |
| ContextTree.PropagatedExtends | context/main.go:259-327 | propagateCancel leaves every older context with its kind, parent, error and cause, and changes it no more than NodeGrows allows |
| ContextTree.DeadlineMadeMeaning | context/main.go:440-476 | the new context reports the earlier of the parent's deadline and `d`; for a parent that is not canceled, a passed deadline leaves the timerCtx canceled with DeadlineExceeded and the cause (or DeadlineExceeded), its channel closed, no timer, and a non-detaching function; a future one leaves it live with the timer armed and a detaching function |
| ContextTree.Tree.Background | context/main.go:72-74 | Background's `Done` is nil, `Err` and `Deadline` are empty and every `Value` is nil |
| ContextTree.Tree.Todo | context/main.go:75-77 | TODO's `Done` is nil, `Err` and `Deadline` are empty and every `Value` is nil |
| ContextTree.Tree.Foreign | context/main.go:130-133 | a foreign context reports the given error, and its `Done` channel is closed exactly when that error is set |
| ContextTree.Tree.Done | context/main.go:231-247 | `Done` returns the owner's channel, creating it on first use, and returns nil exactly for a context that cannot be canceled |
| ContextTree.Tree.ParentCancelCtx | context/main.go:163-177 | returns a cancelCtx exactly when the identity-checked sentinel lookup succeeds, and that cancelCtx is a canceler at or above the parent |
| ContextTree.Tree.RemoveChild | context/main.go:180-194 | the new state is `Detach` of the old one: errors are kept and the detached node is untouched |
| ContextTree.Tree.PropagateCancel | context/main.go:259-327 | the new state is the `Propagated` outcome of the case that applies: a child canceled at once (closed parent channel, or an ancestor already canceled) takes the error and cause, a closed channel, a stopped timer or a fired once-guard with its function started, and nothing else changes; otherwise it is inserted, registered or left alone; no kind or parent changes |
| ContextTree.Tree.LinkAncestor | context/main.go:279-294 | under the found cancelCtx's lock, an already canceled ancestor cancels the child with its own error and cause: only the child changes, its channel is closed, a timer left stopped, an afterFuncCtx's guard fired with its function started; otherwise the child joins the ancestor's children set |
| ContextTree.Tree.LinkForeign | context/main.go:298-310 | the child is registered with the foreign parent, and its parent is marked as a stopCtx wrapper |
| ContextTree.Tree.CancelFresh | context/main.go:271 | canceling a child that has no children yet changes only the child: it takes the given error and cause and a closed channel, its timer is stopped or its once-guard fired (its function then scheduled once), and it changes no more than NodeGrows allows |
| ContextTree.Tree.Insert | context/main.go:286-289 | `p.children[child] = struct{}{}` adds the child to the set, making it first when it is nil, and changes nothing else |
| ContextTree.Tree.CancelCtxCancel | context/main.go:347-386 | an already canceled node changes nothing; otherwise the node gets the error and cause (cause defaulting to the error), its channel is closed, every former child is canceled and Settled, its children set is nil; every other context it cancels gets the same error and cause, a closed channel and is Settled; outside its subtree nothing changes but, when `removeFromParent` is set, the set removeChild edits |
| ContextTree.Tree.Cascade | context/main.go:356-379 | the body of cancel after the already-canceled check: the node is closed with the error and cause, every former child is canceled and Settled, the children set is nil, every other newly canceled context has a closed channel and is Settled, and nothing outside the node's subtree changes |
| ContextTree.Tree.ClearChildren | context/main.go:378 | `c.children = nil` changes only that field and keeps every error |
| ContextTree.Tree.Close | context/main.go:356-367 | the first cancel records err and cause, and closes the node's own channel or stores `closedchan`; it changes only this node and strictly shrinks the set of uncanceled contexts |
| ContextTree.Tree.CancelChildren | context/main.go:372-375 | every child in the set is canceled and Settled; each newly canceled context gets the parent's error and cause and a closed channel, and is Settled; nothing outside the parent's subtree changes and the parent itself is untouched |
| ContextTree.Tree.CancelNode | context/main.go:198-201 | the `cancel` of any canceler leaves the node canceled and Settled; errors are set once and consistently, every context newly canceled has a closed channel, and every one besides the node is Settled; on a first cancel the former children are canceled and Settled; it is framed to the node's subtree and detaches when asked, except that a cancelCtx already canceled returns before removeChild |
| ContextTree.Tree.TimerCancel | context/main.go:496-512 | timerCtx.cancel acts as cancelCtx.cancel (channels closed, descendants Settled); outside the node's subtree nothing changes but, when `removeFromParent` is set, the removal of the node from the set removeChild edits, even if it was already canceled; the timer is always left stopped |
| ContextTree.Tree.AfterFuncCancel | context/main.go:141-149 | afterFuncCtx.cancel acts as cancelCtx.cancel (channels closed, descendants Settled); it is framed and detaches as timerCtx.cancel does; it leaves the once-guard fired, and the function is started once, when the guard first fires |
| ContextTree.Tree.DetachIfAsked | context/main.go:143-145 | the new state is `Detach` of the old one when `removeFromParent` is set, and the old one otherwise |
| ContextTree.Tree.RunOnce | context/main.go:146-148 | `once.Do(go f)` changes only the node: a guard that had not fired fires and schedules the function once; a fired guard changes nothing |
| ContextTree.Tree.NewCanceler | context/main.go:100-109 | a new canceler is appended and linked as propagateCancel says; it is canceled exactly when its parent is done, and then with the parent's error and cause, a closed channel and its cancel run to the end; every older context keeps its kind, parent, error and cause; it answers the sentinel with itself, other keys and `Deadline` as its parent does (a timerCtx its own deadline); no timer runs yet |
| ContextTree.Tree.WithCancel | context/main.go:84-93 | a new cancelCtx as NewCanceler states, and a function that cancels it with `Canceled` and asks for its removal from the parent |
| ContextTree.Tree.WithCancelCause | context/main.go:95-98 | as WithCancel, and the returned function passes on its cause |
| ContextTree.Tree.Invoke | context/main.go:84-98 | the first call of a CancelFunc cancels its context with `Canceled` and the cause (the caller's cause only for WithCancelCause's function, defaulting to `Canceled`), closes its channel, cancels its children; every context it cancels has a closed channel and is Settled (timers stopped, AfterFunc functions started); it is framed to its subtree, detaching it when the function asks; later calls change no error |
| ContextTree.Tree.WithDeadlineCause | context/main.go:440-476 | a parent whose deadline is strictly earlier gives WithCancel; otherwise a timerCtx is linked, canceled at once with DeadlineExceeded and the cause when `d` has passed (with a non-detaching function), and otherwise armed exactly when propagateCancel left it uncanceled; either way every older context keeps its kind, parent, error and cause, and the new one answers as NewCanceler states |
| ContextTree.Tree.NewTimer | context/main.go:451-476 | the timerCtx path of WithDeadlineCause: linking as NewCanceler states, then the timer set as SetTimer states |
| ContextTree.Tree.SetTimer | context/main.go:459-474 | a passed deadline cancels the timerCtx with DeadlineExceeded and the cause (defaulting to DeadlineExceeded), detaches it, leaves no timer and every other context it cancels Settled, and returns a non-detaching function; otherwise the timer is armed exactly when the context is not canceled, nothing else changes, and the function detaches |
| ContextTree.Tree.Arm | context/main.go:469-474 | starting the timer changes only that node's timer |
| ContextTree.Tree.WithDeadline | context/main.go:435-437 | exactly WithDeadlineCause with a nil cause |
| ContextTree.Tree.WithTimeout | context/main.go:515-517 | exactly WithDeadline at `now + timeout` |
| ContextTree.Tree.WithTimeoutCause | context/main.go:519-521 | exactly WithDeadlineCause at `now + timeout` |
| ContextTree.Tree.FireTimer | context/main.go:471-473 | the timer going off cancels the context with DeadlineExceeded and the timer's cause (defaulting to DeadlineExceeded), closes its channel, cancels its children (each closed and Settled), detaches it, changes nothing else outside its subtree, and leaves the timer stopped |
| ContextTree.Tree.AfterFunc | context/main.go:112-117 | an afterFuncCtx is appended and linked under `ctx` as NewCanceler states; it is canceled only with `ctx`'s error; its once-guard has fired, with `f` scheduled exactly once, exactly when `ctx` was already done, and otherwise `f` is not scheduled |
| ContextTree.Tree.Stop | context/main.go:118-126 | stop reports true exactly on the first firing of the once-guard; then the function never starts, the context is canceled with `Canceled` if it was not yet (children canceled and Settled, channel closed), it is detached, errors already set are kept, every other context changes no more than NodeGrows allows and is Settled if newly canceled, and nothing outside its subtree changes; otherwise nothing changes |
| ContextTree.Tree.FireGuard | context/main.go:119-121 | the once-guard step of `stop` changes only that node's guard |
| ContextTree.Tree.WithoutCancel | context/main.go:394-419 | the new context has a nil `Done`, nil `Err` and `Cause`, no deadline, nil for the sentinel key, and its parent's value for every other key |
| ContextTree.Tree.WithValue | context/main.go:524-571 | the new context answers its key with its value and forwards every other key, `Err`, `Cause`, `Done` and `Deadline` to its parent; a nil or incomparable key is excluded, as the function panics on them |

Proof helpers, with no row of their own, carry these facts from one step
to the next: `KidsStay`, `SettledStep`, `ChildStep` (one turn of the
children loop), `FrameChild`, `FrameAroundRoot`, `FrameCascade`,
`FramedAtRoot`, `FrameRebase`, `StopGrows`, `StopOutcome`, `NewNodeShape`, `ShortcutMade`, `TimerMade`,
`ExtendsByCancel`, `ExtendsByTimer`, and in `ContextModel` `DetachLocal`,
`AncestorLocal`, `MaterializeLocal` and `DetachAbove`.

## Left out

- The watcher goroutine that propagateCancel starts for a parent it cannot link to (context/main.go:319-326), and the `goroutines` counter. In the model the child is linked to nothing.
- Mutexes and the `atomic.Value` double-checked load in `Done`. The model is sequential and each method is one atomic step. The lock invariant is the predicate `Sound`.
- The clock and timers. `time.Until` becomes `d - now`, with `now` a parameter. The running timer is the flag `armed`. Its firing is the method `FireTimer`, which may be called at any time. Nothing ties it to `now`.
- `go a.f()` is recorded only as the counter `scheduled`; the function itself never runs.
- `String`, `contextName`, `stringify` and `reflectlite`. A key's comparability is its constructor (`Comparable` or `Incomparable`).
- The `Timeout` and `Temporary` methods of the deadline error. `Canceled` and `DeadlineExceeded` are distinct constructors of `Error`.
- Foreign contexts are modelled only as far as this file relies on them:
  - they answer nil to every `Value` (and so to the sentinel key). No custom context wrapping a cancelCtx can therefore be built, and the sentinel lookup always finds the canceler that serves `Done` (SentinelFindsDoneOwner). The identity check `pdone != done` of parentCancelCtx (context/main.go:172-175), which exists for such wrappers, can therefore never fail in the model;
  - their deadline is fixed;
  - they are canceled or not from the start, and never canceled later, so callbacks registered through their `AfterFunc` never run;
  - the `stop` function their `AfterFunc` returns is modelled as dropping the registration, which is kept in the foreign node's children set.
- The nil-parent panics. A parent is an index into the arena, so it cannot be nil; callers must pass an existing one.
- The panic on a nil `err` in `cancel`: `Error` has no nil value.
- CancelCtxCancel, Cascade, CancelNode, TimerCancel, AfterFuncCancel, Invoke, FireTimer, Stop: cancellation of the whole subtree is stated one level at a time. Each former child is canceled and Settled, and each child's own call ensures the same of its children; every context canceled anywhere in the cascade has a closed channel and is Settled. No contract or lemma states that every descendant is canceled, because no clause of `Valid` ties a linked canceler to the state of its parent's `Done` owner: an arena in which a canceled context still holds an uncanceled registered child is not excluded, and a cascade that reaches that context leaves the child as it is.
- A foreign context whose `Done` returns nil cannot be built: `Foreign` gives it an open or closed channel. The early return of propagateCancel for a nil `Done` (context/main.go:263-265) is still reached through Background, TODO and WithoutCancel parents.
- The model accepts an afterFuncCtx as the parent of a new context, as the Go code does; nothing in context/main.go relies on this.
- AfterFuncCancel: that `scheduled` grows by exactly one when, and only when, the guard fires is stated in `Evolves` (through `NodeGrows`), not as a separate clause.
