/**
 * The state-changing half of the context package: one object holding every
 * context of the program in an arena, and a method per function of the
 * package that allocates a context or changes one (`cancel`,
 * `propagateCancel`, `removeChild`, the `With*` constructors, `AfterFunc`
 * and the functions they hand back).
 *
 * The package guards this state with a mutex per cancelCtx; this model is
 * sequential and each method runs as one step.
 */
module ContextTree {
  import opened Wrappers
  import opened ContextModel

  /** A CancelFunc or CancelCauseFunc handed out by a constructor: the node it
      cancels, the `removeFromParent` flag it passes, and whether it forwards
      its cause argument (only the one of WithCancelCause does). */
  datatype CancelFunc = CancelFunc(node: nat, removeFromParent: bool, takesCause: bool)

  /** The contexts not yet canceled: the measure on which `cancel` recurses. */
  ghost function Uncanceled(a: seq<Node>): set<nat> {
    set j | 0 <= j < |a| && a[j].err.None?
  }

  /** How one node may change while contexts are canceled or detached: a set
      error and cause never change, a closed channel stays closed, a stopped
      timer is never re-armed, and the once-guard of an afterFuncCtx fires at
      most once, starting its function exactly when it fires. */
  predicate NodeGrows(o: Node, n: Node) {
    && (o.err.Some? ==> n.err == o.err && n.cause == o.cause)
    && (SlotClosed(o.done) ==> n.done == o.done)
    && (!o.armed ==> !n.armed)
    && (o.onceFired ==> n.onceFired)
    && n.scheduled == (if !o.onceFired && n.onceFired then o.scheduled + 1 else o.scheduled)
  }

  /** Every context but `n` changed no more than NodeGrows allows. */
  ghost predicate GrowsBesides(o: seq<Node>, a: seq<Node>, n: nat) {
    |a| == |o| && forall j :: 0 <= j < |o| && j != n ==> NodeGrows(o[j], a[j])
  }

  ghost predicate Grows(o: seq<Node>, a: seq<Node>) {
    SameShape(o, a) && forall j :: 0 <= j < |o| ==> NodeGrows(o[j], a[j])
  }

  /** Every context canceled between `o` and `a` got error `e` and cause `c`,
      and its channel is closed. */
  ghost predicate CancelsWith(o: seq<Node>, a: seq<Node>, e: Error, c: Error) {
    |a| == |o| &&
    forall j :: 0 <= j < |o| && o[j].err.None? && a[j].err.Some? ==>
      a[j].err == Some(e) && a[j].cause == Some(c) && SlotClosed(a[j].done)
  }

  /** A canceler whose `cancel` has run to its end: a timerCtx has its timer
      stopped, and an afterFuncCtx has its once-guard fired. */
  predicate Settled(n: Node) {
    && (n.kind.Timer? ==> !n.armed)
    && (n.kind.AfterFunc? ==> n.onceFired)
  }

  /** Every context canceled between `o` and `a`, except possibly `n`, is
      Settled. */
  ghost predicate SettledBesides(o: seq<Node>, a: seq<Node>, n: nat) {
    |a| == |o| &&
    forall j :: 0 <= j < |o| && j != n && o[j].err.None? && a[j].err.Some? ==> Settled(a[j])
  }

  /** No error or cause changed between `o` and `a`. */
  ghost predicate KeepsErrors(o: seq<Node>, a: seq<Node>) {
    |a| == |o| && forall j :: 0 <= j < |o| ==> a[j].err == o[j].err && a[j].cause == o[j].cause
  }

  /** One cancellation cascade with error `e` and cause `c`, seen from outside. */
  ghost predicate Evolves(o: seq<Node>, a: seq<Node>, e: Error, c: Error) {
    Grows(o, a) && CancelsWith(o, a, e, c)
  }

  /** The state of node `n` after its first cancel: error and cause recorded,
      its channel closed (its own or `closedchan`), its children set nil, and
      every context that was in that set canceled and Settled. */
  ghost predicate FirstCancelDone(o: seq<Node>, a: seq<Node>, n: nat, e: Error, c: Error)
    requires n < |o| == |a|
  {
    && a[n].err == Some(e) && a[n].cause == Some(c)
    && SlotClosed(a[n].done) && a[n].children.None?
    && (o[n].children.Some? ==> forall k :: k in o[n].children.value ==> k < |a| && a[k].err.Some? && Settled(a[k]))
  }

  /** Only node `n` differs between `o` and `a`. */
  ghost predicate OnlyAt(o: seq<Node>, a: seq<Node>, n: nat) {
    |a| == |o| && forall j :: 0 <= j < |o| && j != n ==> a[j] == o[j]
  }

  /** Nothing outside `s` differs between `o` and `a`. */
  ghost predicate Outside(o: seq<Node>, a: seq<Node>, s: set<nat>) {
    |a| == |o| && forall j :: 0 <= j < |o| && j !in s ==> a[j] == o[j]
  }

  /** The frame of a cancel of `n`: every context outside `n`'s subtree is as
      in `o`, after `removeChild` dropped `n` from its parent when `detach`. */
  ghost predicate Framed(o: seq<Node>, a: seq<Node>, n: nat, detach: bool)
    requires WF(o) && n < |o| && Cancelish(o[n].kind)
  {
    Outside(if detach then Detach(o, n) else o, a, Subtree(o, n))
  }

  /** The outcome of `c.propagateCancel(parent, c)` from state `a0`, case by
      case (see LinkCase): nothing linked; the child canceled with the
      parent's error and cause (which, for an afterFuncCtx, fires its
      once-guard and starts its function); the child canceled with the
      ancestor's error and cause, or inserted into the ancestor's children set; the child
      registered with a foreign parent's AfterFunc and its parent wrapped in a
      stopCtx; or nothing linked (the watcher goroutine). */
  ghost predicate Propagated(a0: seq<Node>, a: seq<Node>, c: nat)
    requires WF(a0) && c < |a0| && a0[c].parent < c
  {
    var parent := a0[c].parent;
    var m := Materialize(a0, parent);
    |a| == |m| &&
    match LinkCase(m, parent)
    case NeverCanceled => a == m
    case ParentDone =>
      OnlyAt(m, a, c) && a[c].err == ErrOf(m, parent) && a[c].cause == Cause(m, parent)
      && SlotClosed(a[c].done) && Settled(a[c]) && NodeGrows(m[c], a[c])
    case ToAncestor(p) =>
      if m[p].err.Some? then
        OnlyAt(m, a, c) && a[c].err == m[p].err && a[c].cause == m[p].cause && SlotClosed(a[c].done)
        && Settled(a[c]) && NodeGrows(m[c], a[c])
      else
        a == m[p := m[p].(children := Some(m[p].children.GetOr({}) + {c}))]
    case ToForeign =>
      a == m[parent := m[parent].(children := Some(m[parent].children.GetOr({}) + {c}))]
            [c := m[c].(viaStop := true)]
    case ToWatcher => a == m
  }

  /** A context linked by propagateCancel is canceled only with its parent's
      `Err` and `Cause` as they were before the call, so a parent whose `Err`
      is nil leaves it uncanceled. */
  lemma PropagatedErrorIsParents(a0: seq<Node>, a: seq<Node>, c: nat)
    requires WF(a0) && Sound(a0) && c < |a0| && a0[c].parent < c && a0[c].err.None?
    requires Propagated(a0, a, c)
    ensures a[c].err.Some? ==> a[c].err == ErrOf(a0, a0[c].parent) && a[c].cause == Cause(a0, a0[c].parent)
    ensures a[c].err.Some? <==> ErrOf(a0, a0[c].parent).Some?
    ensures a[c].err.Some? ==> Settled(a[c]) && SlotClosed(a[c].done) && NodeGrows(a0[c], a[c])
    ensures a[c].err.None? ==>
      a[c].armed == a0[c].armed && a[c].onceFired == a0[c].onceFired && a[c].scheduled == a0[c].scheduled
  {
    var parent := a0[c].parent;
    var m := Materialize(a0, parent);
    MaterializeGrows(a0, parent);
    MaterializeGivesChannel(a0, parent);
    LinkCaseByOwner(a0, parent);
    ErrIsOwnerErr(a0, parent);
    ErrIsOwnerErr(m, parent);
    CauseIsOwnerCause(a0, parent);
    CauseIsOwnerCause(m, parent);
    CancelAncestorIsDoneOwner(m, parent);
    MaterializeLocal(a0, a0, parent, c);
    assert m[c] == a0[c];
    if IsClosed(m, ChanOf(m, parent)) {
      ClosedDoneHasErr(m, parent);
    }
    if o :| DoneOwner(a0, parent) == Some(o) {
      assert m[o].err == a0[o].err && m[o].cause == a0[o].cause;
      assert SoundNode(m[o]);
    }
  }

  /** A context canceled along an Evolves step is seen canceled through the
      interface: its `Done` channel is closed and `Err` and `Cause` report
      the error and cause of that cascade. */
  lemma CanceledSeesDone(o: seq<Node>, a: seq<Node>, e: Error, c: Error, j: nat)
    requires WF(a) && CancelsWith(o, a, e, c) && j < |o| && Cancelish(a[j].kind)
    requires o[j].err.None? && a[j].err.Some?
    ensures IsClosed(a, ChanOf(a, j)) && ErrOf(a, j) == Some(e) && Cause(a, j) == Some(c)
  {
  }

  /** Once the once-guard of an afterFuncCtx has fired, by `stop` or by a
      cancel, no later cascade starts its function again. */
  lemma OnceGuardSettles(o: seq<Node>, a: seq<Node>, i: nat)
    requires Grows(o, a) && i < |o| && o[i].onceFired
    ensures a[i].onceFired && a[i].scheduled == o[i].scheduled
  {
    assert NodeGrows(o[i], a[i]);
  }

  lemma GrowsShrinksUncanceled(o: seq<Node>, a: seq<Node>)
    requires Grows(o, a)
    ensures Uncanceled(a) <= Uncanceled(o)
  {
    forall j | j in Uncanceled(a) ensures j in Uncanceled(o) {
      assert NodeGrows(o[j], a[j]);
    }
  }

  lemma EvolvesTrans(a: seq<Node>, b: seq<Node>, c: seq<Node>, e: Error, cs: Error)
    requires Evolves(a, b, e, cs) && Evolves(b, c, e, cs)
    ensures Evolves(a, c, e, cs)
  {
    forall j | 0 <= j < |a| ensures ShapeStep(a[j], c[j]) && NodeGrows(a[j], c[j]) {
      assert ShapeStep(a[j], b[j]) && NodeGrows(a[j], b[j]);
      assert ShapeStep(b[j], c[j]) && NodeGrows(b[j], c[j]);
    }
  }

  lemma FirstCancelStays(o: seq<Node>, a: seq<Node>, b: seq<Node>, n: nat, e: Error, c: Error)
    requires n < |o| == |a| && FirstCancelDone(o, a, n, e, c) && Grows(a, b)
    ensures FirstCancelDone(o, b, n, e, c)
  {
    assert ShapeStep(a[n], b[n]) && NodeGrows(a[n], b[n]);
    if o[n].children.Some? {
      forall k | k in o[n].children.value ensures k < |b| && b[k].err.Some? {
        assert NodeGrows(a[k], b[k]);
      }
    }
  }

  lemma OnlyAtTrans(a: seq<Node>, b: seq<Node>, c: seq<Node>, n: nat)
    requires OnlyAt(a, b, n) && OnlyAt(b, c, n)
    ensures OnlyAt(a, c, n)
  {
  }

  lemma KeepsTrans(a: seq<Node>, b: seq<Node>, c: seq<Node>)
    requires KeepsErrors(a, b) && KeepsErrors(b, c)
    ensures KeepsErrors(a, c)
  {
  }

  /** A set of children stays a set of cancelers, and the canceled ones stay
      canceled, along Grows. */
  lemma KidsStay(o: seq<Node>, a: seq<Node>, kids: set<nat>)
    requires Grows(o, a) && ChildrenIn(o, Some(kids))
    ensures ChildrenIn(a, Some(kids))
    ensures forall j :: j in kids && o[j].err.Some? && Settled(o[j]) ==> a[j].err.Some? && Settled(a[j])
  {
    forall j | j in kids
      ensures Cancelish(a[j].kind) && (o[j].err.Some? && Settled(o[j]) ==> a[j].err.Some? && Settled(a[j]))
    {
      assert ShapeStep(o[j], a[j]) && NodeGrows(o[j], a[j]);
    }
  }

  /** Carries SettledBesides over a further step in which every context
      newly canceled other than `k` settled, and so did `k` unless it is `n`. */
  lemma SettledStep(o: seq<Node>, b: seq<Node>, a: seq<Node>, n: nat, k: nat)
    requires SettledBesides(o, b, n) && Grows(b, a) && SettledBesides(b, a, k)
    requires k == n || (k < |a| && Settled(a[k]))
    ensures SettledBesides(o, a, n)
  {
    forall j | 0 <= j < |o| && j != n && o[j].err.None? && a[j].err.Some? ensures Settled(a[j]) {
      assert NodeGrows(b[j], a[j]);
    }
  }

  lemma OutsideTrans(o: seq<Node>, a: seq<Node>, b: seq<Node>, s: set<nat>, t: set<nat>)
    requires Outside(o, a, s) && Outside(a, b, t) && t <= s
    ensures Outside(o, b, s)
  {
  }

  /** One child's cancel inside the loop of `cancel`: the child's subtree
      lies inside the subtree of `n`, and `n` itself, created before the
      child, is not in it. */
  lemma FrameChild(o: seq<Node>, mid: seq<Node>, a: seq<Node>, n: nat, k: nat)
    requires WF(o) && WF(mid) && SameShape(o, mid) && n < |o|
    requires o[n].children.Some? && k in o[n].children.value
    requires Outside(o, mid, Subtree(o, n)) && mid[n] == o[n]
    requires k < |mid| && Outside(mid, a, Subtree(mid, k))
    ensures Outside(o, a, Subtree(o, n)) && a[n] == o[n]
  {
    assert ChildrenAbove(n, o[n].children);
    SubtreeShrinks(o, mid, k);
    SubtreeOfChild(o, n, k);
    SubtreeAbove(mid, k);
    OutsideTrans(o, mid, a, Subtree(o, n), Subtree(mid, k));
  }

  /** The invariant of the children loop of `cancel` on `n`, from state `o`
      to state `a`, with `todo` the children not yet canceled: a cascade
      step in which every child handled is canceled and Settled, every other
      newly canceled context is Settled, the cancel's measure stays below
      `bound`, and nothing outside the subtree of `n` (nor `n` itself)
      changes. */
  ghost predicate ChildLoop(o: seq<Node>, a: seq<Node>, kids: set<nat>, todo: set<nat>,
                            e: Error, c: Error, bound: set<nat>, n: nat)
    requires WF(o) && n < |o|
  {
    && Evolves(o, a, e, c)
    && todo <= kids && ChildrenIn(a, Some(kids))
    && (forall k :: k in kids - todo ==> k < |a| && a[k].err.Some? && Settled(a[k]))
    && SettledBesides(o, a, n)
    && Uncanceled(a) < bound
    && (kids == {} ==> a == o)
    && Outside(o, a, Subtree(o, n)) && a[n] == o[n]
  }

  /** One turn of the children loop: canceling child `k` from state `mid`
      keeps the loop invariant, with `k` handled. */
  lemma ChildStep(o: seq<Node>, mid: seq<Node>, a: seq<Node>, kids: set<nat>, todo: set<nat>, k: nat,
                  e: Error, c: Error, bound: set<nat>, n: nat)
    requires WF(o) && WF(mid) && n < |o| && o[n].children.GetOr({}) == kids
    requires ChildLoop(o, mid, kids, todo, e, c, bound, n) && k in todo
    requires k < |mid| && Evolves(mid, a, e, c) && a[k].err.Some? && Settled(a[k])
    requires SettledBesides(mid, a, k) && Outside(mid, a, Subtree(mid, k))
    ensures ChildLoop(o, a, kids, todo - {k}, e, c, bound, n)
  {
    FrameChild(o, mid, a, n, k);
    GrowsShrinksUncanceled(mid, a);
    EvolvesTrans(o, mid, a, e, c);
    SettledStep(o, mid, a, n, k);
    KidsStay(mid, a, kids);
  }

  /** Changes at `n`, then inside the subtree of `n`, then at `n` again stay
      inside the subtree of `n`. */
  lemma FrameAroundRoot(o: seq<Node>, b: seq<Node>, a: seq<Node>, c: seq<Node>, n: nat)
    requires WF(o) && WF(b) && SameShape(o, b) && n < |o|
    requires OnlyAt(o, b, n) && Outside(b, a, Subtree(b, n)) && OnlyAt(a, c, n)
    ensures Outside(o, c, Subtree(o, n))
  {
    SubtreeAbove(o, n);
    SubtreeShrinks(o, b, n);
  }

  /** The frame of `cancel` put together: changes confined to the subtree of
      `n`, then `removeChild` when asked, which agrees outside the subtree
      with detaching `n` from the arena before the cascade. */
  lemma FrameCascade(o: seq<Node>, a: seq<Node>, b: seq<Node>, n: nat, detach: bool)
    requires WF(o) && WF(a) && n < |o| && Cancelish(o[n].kind) && SameShape(o, a)
    requires Outside(o, a, Subtree(o, n))
    requires b == if detach then Detach(a, n) else a
    ensures Framed(o, b, n, detach)
  {
    if detach {
      SubtreeAbove(o, n);
      assert ShapeStep(o[n], a[n]);
      DetachLocal(o, a, n);
      DetachAbove(o, n);
      DetachAbove(a, n);
    }
  }

  /** A step that changes only `n` keeps the frame of a cancel of `n`. */
  lemma FramedAtRoot(o: seq<Node>, a: seq<Node>, b: seq<Node>, n: nat, detach: bool)
    requires WF(o) && n < |o| && Cancelish(o[n].kind)
    requires Framed(o, a, n, detach) && OnlyAt(a, b, n)
    ensures Framed(o, b, n, detach)
  {
    SubtreeAbove(o, n);
  }

  /** What the frame of a cancel of `n` promises about a context `j` outside
      `n`'s subtree (every context created before `n` is one): its kind,
      parent, error and cause are as they were, its children set still holds
      every other canceler it held, and when `n` was detached the set that
      DetachFrom names no longer holds `n`. */
  lemma FramedMeaning(o: seq<Node>, a: seq<Node>, n: nat, detach: bool, j: nat, c: nat)
    requires WF(o) && n < |o| && Cancelish(o[n].kind) && Framed(o, a, n, detach) && j < |o|
    requires j < n || j !in Subtree(o, n)
    ensures a[j].kind == o[j].kind && a[j].parent == o[j].parent
    ensures a[j].err == o[j].err && a[j].cause == o[j].cause
    ensures a[j].children.Some? <==> o[j].children.Some?
    ensures o[j].children.Some? && c != n ==> (c in a[j].children.value <==> c in o[j].children.value)
    ensures o[j].children.Some? && detach && j == DetachFrom(o, n) ==> n !in a[j].children.value
    ensures !detach ==> a[j] == o[j]
  {
    SubtreeAbove(o, n);
    DetachRemovesOnlyChild(o, n, j, c);
  }

  /** Carries the contract of a cancel method over one more step that
      changes node `n` only and keeps every error. */
  lemma Settle(o: seq<Node>, pre: seq<Node>, a: seq<Node>, n: nat, e: Error, c: Error)
    requires n < |o| == |pre| && Evolves(o, pre, e, c) && Evolves(pre, a, e, c)
    requires KeepsErrors(pre, a)
    ensures Evolves(o, a, e, c)
    ensures KeepsErrors(o, pre) ==> KeepsErrors(o, a)
    ensures FirstCancelDone(o, pre, n, e, c) ==> FirstCancelDone(o, a, n, e, c)
    ensures OnlyAt(o, pre, n) && OnlyAt(pre, a, n) ==> OnlyAt(o, a, n)
    ensures SettledBesides(o, pre, n) ==> SettledBesides(o, a, n)
  {
    EvolvesTrans(o, pre, a, e, c);
    if SettledBesides(o, pre, n) {
      SettledStep(o, pre, a, n, n);
    }
    if FirstCancelDone(o, pre, n, e, c) {
      FirstCancelStays(o, pre, a, n, e, c);
    }
  }

  lemma KeepsIsEvolves(o: seq<Node>, a: seq<Node>, e: Error, c: Error)
    requires Grows(o, a) && KeepsErrors(o, a)
    ensures Evolves(o, a, e, c)
  {
  }

  /** Replacing one node by an allowed successor keeps the arena well formed
      and sound, and is a step of a cascade. */
  lemma Update(a: seq<Node>, k: nat, x: Node, e: Error, c: Error)
    requires WF(a) && Sound(a) && k < |a|
    requires ShapeStep(a[k], x) && NodeGrows(a[k], x) && SoundNode(x)
    requires (x.err == a[k].err && x.cause == a[k].cause)
          || (a[k].err.None? && x.err == Some(e) && x.cause == Some(c) && SlotClosed(x.done))
    ensures WF(a[k := x]) && Sound(a[k := x]) && Evolves(a, a[k := x], e, c) && OnlyAt(a, a[k := x], k)
    ensures x.err == a[k].err && x.cause == a[k].cause ==> KeepsErrors(a, a[k := x])
  {
    var b := a[k := x];
    assert SameShape(a, b);
    SameShapeKeepsWF(a, b);
  }

  lemma WithoutChildGrows(a: seq<Node>, p: nat, child: nat)
    requires WF(a) && Sound(a) && p < |a|
    ensures WF(WithoutChild(a, p, child)) && Sound(WithoutChild(a, p, child))
    ensures Grows(a, WithoutChild(a, p, child)) && KeepsErrors(a, WithoutChild(a, p, child))
    ensures OnlyAt(a, WithoutChild(a, p, child), p)
  {
    if a[p].children.Some? {
      Update(a, p, a[p].(children := Some(a[p].children.value - {child})), Canceled, Canceled);
    } else {
      assert SameShape(a, a);
    }
  }

  lemma MaterializeGrows(a: seq<Node>, i: nat)
    requires WF(a) && Sound(a) && i < |a|
    ensures WF(Materialize(a, i)) && Sound(Materialize(a, i))
    ensures Grows(a, Materialize(a, i)) && KeepsErrors(a, Materialize(a, i))
    ensures forall j :: i < j < |a| ==> Materialize(a, i)[j] == a[j]
  {
    match DoneOwner(a, i)
    case None =>
      assert SameShape(a, a);
    case Some(o) =>
      if a[o].done.Unmade? {
        Update(a, o, a[o].(done := Made(false)), Canceled, Canceled);
      } else {
        assert SameShape(a, a);
      }
  }

  lemma DetachGrows(a: seq<Node>, child: nat)
    requires WF(a) && Sound(a) && child < |a| && Cancelish(a[child].kind)
    ensures Grows(a, Detach(a, child)) && KeepsErrors(a, Detach(a, child))
    ensures Sound(Detach(a, child)) && WF(Detach(a, child))
    ensures Detach(a, child)[child] == a[child]
  {
    var parent := a[child].parent;
    if a[child].viaStop {
      WithoutChildGrows(a, parent, child);
    } else {
      var m := Materialize(a, parent);
      MaterializeGrows(a, parent);
      match CancelAncestor(m, parent)
      case None =>
      case Some(p) =>
        WithoutChildGrows(m, p, child);
        KeepsIsEvolves(a, m, Canceled, Canceled);
        KeepsIsEvolves(m, WithoutChild(m, p, child), Canceled, Canceled);
        EvolvesTrans(a, m, WithoutChild(m, p, child), Canceled, Canceled);
    }
  }

  /** No context changed kind or parent between `o` and `a`. */
  ghost predicate KeepsShape(o: seq<Node>, a: seq<Node>) {
    |a| == |o| && forall j :: 0 <= j < |o| ==> a[j].kind == o[j].kind && a[j].parent == o[j].parent
  }

  /** A new canceler `c` allocated under `parent` answers every key but the
      sentinel as its parent does, the sentinel with itself, and reports the
      earlier of its own timer's deadline and its parent's. */
  lemma NewCancelerAnswers(o: seq<Node>, a: seq<Node>, kind: Kind, parent: nat)
    requires WF(o) && WF(a) && parent < |o| && Cancelish(kind)
    requires KeepsShape(o + [NewNode(kind, parent)], a)
    ensures Lookup(a, |o|, CancelCtxKey) == CancelCtxRef(|o|)
    ensures forall key :: key != CancelCtxKey ==> Lookup(a, |o|, key) == Lookup(o, parent, key)
    ensures DeadlineOf(a, |o|) == if kind.Timer? then Some(kind.deadline) else DeadlineOf(o, parent)
  {
    NewNodeShape(o, a, kind, parent);
  }

  /** The new node has the kind and parent it was allocated with, and the
      walks from its parent answer as they did before it was added. */
  lemma NewNodeShape(o: seq<Node>, a: seq<Node>, kind: Kind, parent: nat)
    requires WF(o) && WF(a) && parent < |o|
    requires KeepsShape(o + [NewNode(kind, parent)], a)
    ensures a[|o|].kind == kind && a[|o|].parent == parent
    ensures DeadlineOf(a, parent) == DeadlineOf(o, parent)
    ensures forall key :: Lookup(a, parent, key) == Lookup(o, parent, key)
  {
    var n := o + [NewNode(kind, parent)];
    assert n[|o|] == NewNode(kind, parent);
    forall j | 0 <= j <= parent ensures a[j].kind == o[j].kind && a[j].parent == o[j].parent {
      assert n[j] == o[j];
    }
    ShapeAgree(o, a, parent);
  }

  lemma GrowsKeepsShape(o: seq<Node>, a: seq<Node>)
    requires Grows(o, a)
    ensures KeepsShape(o, a)
  {
    forall j | 0 <= j < |o| ensures a[j].kind == o[j].kind && a[j].parent == o[j].parent {
      assert ShapeStep(o[j], a[j]);
    }
  }

  lemma KeepsShapeTrans(a: seq<Node>, b: seq<Node>, c: seq<Node>)
    requires KeepsShape(a, b) && KeepsShape(b, c)
    ensures KeepsShape(a, c)
  {
  }

  /** Replacing one node by one of the same shape that is itself sound keeps
      the arena well formed and sound (arming a timer, firing a once-guard
      from `stop`). */
  lemma Retouch(a: seq<Node>, k: nat, x: Node)
    requires WF(a) && Sound(a) && k < |a| && ShapeStep(a[k], x) && SoundNode(x)
    ensures WF(a[k := x]) && Sound(a[k := x]) && KeepsShape(a, a[k := x])
  {
    assert SameShape(a, a[k := x]);
    SameShapeKeepsWF(a, a[k := x]);
  }

  /** The error state of a new context `c` linked under `parent`: canceled
      exactly when the parent reported an error in `o`, and then with the
      parent's `Err` and `Cause`, a closed channel and a cancel run to its
      end; an afterFuncCtx's function is started exactly when it was
      canceled here. */
  ghost predicate Linked(o: seq<Node>, a: seq<Node>, c: nat, parent: nat)
    requires WF(o) && parent < |o| && c < |a|
  {
    && (a[c].err.Some? <==> ErrOf(o, parent).Some?)
    && (a[c].err.Some? ==> a[c].err == ErrOf(o, parent) && a[c].cause == Cause(o, parent))
    && (a[c].err.Some? ==> SlotClosed(a[c].done) && Settled(a[c]))
    && (a[c].onceFired ==> a[c].err.Some?)
    && a[c].scheduled == (if a[c].onceFired then 1 else 0)
  }

  /** `a` holds every context of `o`, each with the same kind, parent, error
      and cause, and changed no more than NodeGrows allows. */
  ghost predicate Extends(o: seq<Node>, a: seq<Node>) {
    |o| <= |a| &&
    forall j :: 0 <= j < |o| ==>
      && a[j].kind == o[j].kind && a[j].parent == o[j].parent
      && a[j].err == o[j].err && a[j].cause == o[j].cause && NodeGrows(o[j], a[j])
  }

  lemma NodeGrowsTrans(x: Node, y: Node, z: Node)
    requires NodeGrows(x, y) && NodeGrows(y, z)
    ensures NodeGrows(x, z)
  {
  }

  /** Allocating a canceler and linking it with propagateCancel leaves every
      context that was already there with its kind, parent, error and cause:
      it only makes the parent's channel and adds to one children set. */
  lemma {:induction false} PropagatedExtends(o: seq<Node>, kind: Kind, parent: nat, a: seq<Node>)
    requires parent < |o| && Cancelish(kind)
    requires WF(o + [NewNode(kind, parent)]) && Sound(o + [NewNode(kind, parent)])
    requires Propagated(o + [NewNode(kind, parent)], a, |o|)
    ensures Extends(o, a)
  {
    var a0 := o + [NewNode(kind, parent)];
    var c := |o|;
    var m := Materialize(a0, parent);
    MaterializeGrows(a0, parent);
    forall j | 0 <= j < |o|
      ensures a[j].kind == o[j].kind && a[j].parent == o[j].parent
      ensures a[j].err == o[j].err && a[j].cause == o[j].cause && NodeGrows(o[j], a[j])
    {
      assert a0[j] == o[j];
      assert ShapeStep(a0[j], m[j]) && NodeGrows(a0[j], m[j]);
      assert a[j] == m[j] || (a[j] == m[j].(children := a[j].children) && !a[j].viaStop == !m[j].viaStop);
      NodeGrowsTrans(a0[j], m[j], a[j]);
    }
  }

  /** Canceling `c` (with its frame) after allocating it keeps Extends. */
  lemma ExtendsByCancel(o: seq<Node>, l: seq<Node>, a: seq<Node>, c: nat, detach: bool)
    requires WF(l) && c == |o| < |l| && Cancelish(l[c].kind)
    requires Extends(o, l) && Grows(l, a) && Framed(l, a, c, detach)
    ensures Extends(o, a)
  {
    forall j | 0 <= j < |o|
      ensures a[j].kind == o[j].kind && a[j].parent == o[j].parent
      ensures a[j].err == o[j].err && a[j].cause == o[j].cause && NodeGrows(o[j], a[j])
    {
      FramedMeaning(l, a, c, detach, j, c);
      assert NodeGrows(l[j], a[j]);
      NodeGrowsTrans(o[j], l[j], a[j]);
    }
  }

  /** Setting the timer of the new context `c` keeps Extends. */
  lemma ExtendsByTimer(o: seq<Node>, l: seq<Node>, a: seq<Node>, c: nat, dur: int, cause: Option<Error>)
    requires WF(l) && c == |o| < |l| && Cancelish(l[c].kind)
    requires Extends(o, l) && TimerSet(l, a, c, dur, cause)
    ensures Extends(o, a)
  {
    if dur <= 0 {
      ExtendsByCancel(o, l, a, c, true);
    }
  }

  /** A cancel of `n` framed in state `b` is framed in `o` as well when `b`
      differs from `o` only at `n`, and not in `n`'s links or children. */
  lemma FrameRebase(o: seq<Node>, b: seq<Node>, a: seq<Node>, n: nat, detach: bool)
    requires WF(o) && WF(b) && n < |o| && Cancelish(o[n].kind) && SameShape(o, b) && OnlyAt(o, b, n)
    requires Framed(b, a, n, detach)
    ensures Framed(o, a, n, detach)
  {
    SubtreeAbove(o, n);
    SubtreeShrinks(o, b, n);
    if detach {
      assert ShapeStep(o[n], b[n]);
      DetachLocal(o, b, n);
      DetachAbove(o, n);
      DetachAbove(b, n);
      var d0, d1 := Detach(o, n), Detach(b, n);
      forall j | 0 <= j < |o| && j !in Subtree(o, n)
        ensures a[j] == d0[j]
      {
        assert j !in Subtree(b, n) && a[j] == d1[j];
        if n < j {
          assert d1[j] == b[j] == o[j] == d0[j];
        }
      }
    } else {
      forall j | 0 <= j < |o| && j !in Subtree(o, n)
        ensures a[j] == o[j]
      {
        assert j !in Subtree(b, n) && a[j] == b[j];
      }
    }
  }

  /** The once-guard step of `stop` followed by a cancel keeps every other
      context to NodeGrows and errors to the cancel's. */
  lemma StopGrows(o: seq<Node>, b: seq<Node>, a: seq<Node>, n: nat)
    requires n < |o| && SameShape(o, b) && OnlyAt(o, b, n) && Evolves(b, a, Canceled, Canceled)
    requires o[n].err == b[n].err && o[n].cause == b[n].cause
    ensures SameShape(o, a) && CancelsWith(o, a, Canceled, Canceled)
    ensures GrowsBesides(o, a, n)
    ensures SettledBesides(b, a, n) ==> SettledBesides(o, a, n)
  {
    forall j | 0 <= j < |o| ensures ShapeStep(o[j], a[j]) {
      assert ShapeStep(o[j], b[j]) && ShapeStep(b[j], a[j]);
    }
  }

  /** The outcome of a `stop` of afterFuncCtx `n` that fired the once-guard,
      from state `o`: the guard fired without scheduling the function, `n`
      is canceled (with `Canceled` and the first-cancel state if it was not
      yet, its errors kept if it was), no shape changes, every other context
      changes no more than NodeGrows allows and is Settled if newly
      canceled, and the cancel is framed to `n`'s subtree with `n` detached. */
  ghost predicate Stopped(o: seq<Node>, a: seq<Node>, n: nat)
    requires WF(o) && n < |o| && Cancelish(o[n].kind)
  {
    && |a| == |o| && a[n].onceFired && a[n].scheduled == 0 && a[n].err.Some?
    && SameShape(o, a) && CancelsWith(o, a, Canceled, Canceled)
    && GrowsBesides(o, a, n) && SettledBesides(o, a, n)
    && (o[n].err.None? ==> FirstCancelDone(o, a, n, Canceled, Canceled))
    && (o[n].err.Some? ==> KeepsErrors(o, a))
    && Framed(o, a, n, true)
  }

  /** Firing the guard (state `b`) and then canceling `n` with a detaching
      `cancel(true, Canceled, nil)` (state `a`) is Stopped. */
  lemma StopOutcome(o: seq<Node>, b: seq<Node>, a: seq<Node>, n: nat)
    requires WF(o) && WF(b) && n < |o| && o[n].kind.AfterFunc? && !o[n].onceFired && SoundNode(o[n])
    requires SameShape(o, b) && b == o[n := o[n].(onceFired := true)]
    requires Evolves(b, a, Canceled, Canceled) && a[n].err.Some? && SettledBesides(b, a, n)
    requires b[n].err.Some? ==> KeepsErrors(b, a)
    requires b[n].err.None? ==> FirstCancelDone(b, a, n, Canceled, Canceled)
    requires Framed(b, a, n, true)
    ensures Stopped(o, a, n)
  {
    assert NodeGrows(b[n], a[n]);
    if o[n].err.Some? {
      KeepsTrans(o, b, a);
    }
    FrameRebase(o, b, a, n, true);
    StopGrows(o, b, a, n);
  }

  /** What WithDeadlineCause does to timerCtx `c` after propagateCancel
      linked it (state `l`), `dur` before the deadline: with the deadline
      passed, cancel it with DeadlineExceeded and detach it, leaving no
      timer; otherwise arm its (not yet armed) timer unless it is already
      canceled. */
  ghost predicate TimerSet(l: seq<Node>, a: seq<Node>, c: nat, dur: int, cause: Option<Error>)
    requires WF(l) && c < |l| && Cancelish(l[c].kind)
  {
    |a| == |l| &&
    if dur <= 0 then
      && Evolves(l, a, DeadlineExceeded, cause.GetOr(DeadlineExceeded)) && Framed(l, a, c, true)
      && (l[c].err.None? ==> FirstCancelDone(l, a, c, DeadlineExceeded, cause.GetOr(DeadlineExceeded)))
      && !a[c].armed && SettledBesides(l, a, c)
    else
      && !l[c].armed
      && a == if l[c].err.None? then l[c := l[c].(armed := true)] else l
  }

  /** The new context `c` answers `Value` for every key but the sentinel as
      `parent` did in `o`, the sentinel with itself, and `Deadline` with its
      own timer's deadline or else its parent's. */
  ghost predicate Answers(o: seq<Node>, a: seq<Node>, kind: Kind, parent: nat, c: nat)
    requires WF(o) && WF(a) && parent < |o| && c < |a|
  {
    && Lookup(a, c, CancelCtxKey) == CancelCtxRef(c)
    && (forall key :: key != CancelCtxKey ==> Lookup(a, c, key) == Lookup(o, parent, key))
    && DeadlineOf(a, c) == if kind.Timer? then Some(kind.deadline) else DeadlineOf(o, parent)
  }

  /** The outcome of allocating a canceler of `kind` under `parent` in state
      `o` and linking it with propagateCancel: the new context `c` comes
      last, is linked as Propagated says and canceled, if at all, only with
      its parent's error and cause; every context already there is kept as
      Extends says; and `c` answers as Answers says. */
  ghost predicate CancelerMade(o: seq<Node>, a: seq<Node>, kind: Kind, parent: nat, c: nat) {
    && WF(o) && parent < |o| && Cancelish(kind) && c == |o| && |a| == c + 1 && WF(a)
    && WF(o + [NewNode(kind, parent)]) && Propagated(o + [NewNode(kind, parent)], a, c)
    && Linked(o, a, c, parent) && Extends(o, a) && a[c].kind == kind && Answers(o, a, kind, parent, c)
  }

  /** The outcome of `WithDeadlineCause(parent, d, cause)` read at time
      `now`, from state `o` to state `a`, with `l` the state once
      propagateCancel has linked the new context `c`: a parent whose deadline
      is earlier makes a plain cancelCtx; otherwise a timerCtx, set as
      TimerSet says.  Either way the contexts of `o` are kept as Extends says
      and `c` answers as Answers says. */
  ghost predicate DeadlineMade(o: seq<Node>, l: seq<Node>, a: seq<Node>, parent: nat, d: int,
                               cause: Option<Error>, now: int, c: nat, f: CancelFunc)
  {
    WF(o) && parent < |o| &&
    var cur := DeadlineOf(o, parent);
    var kind := if cur.Some? && cur.value < d then Cancel else Timer(d, cause);
    && CancelerMade(o, l, kind, parent, c)
    && |a| == c + 1 && WF(a) && Extends(o, a) && a[c].kind == kind && Answers(o, a, kind, parent, c)
    && if kind.Cancel? then a == l && f == CancelFunc(c, true, false)
       else f == CancelFunc(c, d - now > 0, false) && TimerSet(l, a, c, d - now, cause)
  }

  /** The branch of WithDeadlineCause that falls back to WithCancel. */
  lemma ShortcutMade(o: seq<Node>, a: seq<Node>, parent: nat, d: int, cause: Option<Error>, now: int, c: nat, f: CancelFunc)
    requires WF(o) && parent < |o| && DeadlineOf(o, parent).Some? && DeadlineOf(o, parent).value < d
    requires CancelerMade(o, a, Cancel, parent, c) && f == CancelFunc(c, true, false)
    ensures DeadlineMade(o, a, a, parent, d, cause, now, c, f)
  {
  }

  /** The branch of WithDeadlineCause that makes a timerCtx. */
  lemma TimerMade(o: seq<Node>, l: seq<Node>, a: seq<Node>, parent: nat, d: int, cause: Option<Error>, now: int, c: nat, f: CancelFunc)
    requires WF(o) && parent < |o| && !(DeadlineOf(o, parent).Some? && DeadlineOf(o, parent).value < d)
    requires CancelerMade(o, l, Timer(d, cause), parent, c)
    requires |a| == c + 1 && WF(a) && Extends(o, a) && a[c].kind == Timer(d, cause)
    requires Answers(o, a, Timer(d, cause), parent, c)
    requires f == CancelFunc(c, d - now > 0, false) && TimerSet(l, a, c, d - now, cause)
    ensures DeadlineMade(o, l, a, parent, d, cause, now, c, f)
  {
  }

  /** WithDeadlineCause's context reports the earlier of the parent's
      deadline and `d`.  For a parent that is not canceled, its timerCtx is
      canceled at once with DeadlineExceeded and the given cause (or
      DeadlineExceeded) when the deadline has passed, and otherwise is live
      with its timer armed. */
  lemma DeadlineMadeMeaning(o: seq<Node>, l: seq<Node>, a: seq<Node>, parent: nat, d: int,
                            cause: Option<Error>, now: int, c: nat, f: CancelFunc)
    requires DeadlineMade(o, l, a, parent, d, cause, now, c, f)
    ensures var cur := DeadlineOf(o, parent);
      DeadlineOf(a, c) == Some(if cur.Some? && cur.value < d then cur.value else d)
    ensures a[c].kind.Timer? && ErrOf(o, parent).None? && d - now <= 0 ==>
      a[c].err == Some(DeadlineExceeded) && a[c].cause == Some(cause.GetOr(DeadlineExceeded))
      && SlotClosed(a[c].done) && !a[c].armed && f == CancelFunc(c, false, false)
    ensures a[c].kind.Timer? && ErrOf(o, parent).None? && d - now > 0 ==>
      a[c].err.None? && a[c].armed && f == CancelFunc(c, true, false)
  {
    if a[c].kind.Timer? && ErrOf(o, parent).None? {
      assert l[c].err.None?;
    }
  }

  /** Loading `Done` a second time changes nothing. */
  lemma MaterializeTwice(a: seq<Node>, i: nat)
    requires WF(a) && i < |a|
    ensures Materialize(Materialize(a, i), i) == Materialize(a, i)
  {
    ShapeAgree(a, Materialize(a, i), i);
  }

  /** Inserting a cancelable node into a children set keeps the arena well
      formed and sound. */
  lemma InsertKeepsWF(a: seq<Node>, p: nat, c: nat)
    requires WF(a) && Sound(a) && p < c < |a| && Cancelish(a[c].kind)
    ensures var b := a[p := a[p].(children := Some(a[p].children.GetOr({}) + {c}))];
      WF(b) && Sound(b)
  {
    var b := a[p := a[p].(children := Some(a[p].children.GetOr({}) + {c}))];
    forall i | 0 <= i < |b| ensures ChildrenIn(b, b[i].children) && ChildrenAbove(i, b[i].children) {
      assert ChildrenIn(a, a[i].children) && ChildrenAbove(i, a[i].children);
    }
  }

  /** Marking a node registered through a stopCtx, whose parent is foreign,
      keeps the arena well formed and sound. */
  lemma StopKeepsWF(a: seq<Node>, c: nat)
    requires WF(a) && Sound(a) && c < |a| && Cancelish(a[c].kind)
    requires a[c].parent < c && a[a[c].parent].kind.Foreign?
    ensures WF(a[c := a[c].(viaStop := true)]) && Sound(a[c := a[c].(viaStop := true)])
  {
    var b := a[c := a[c].(viaStop := true)];
    forall i | 0 <= i < |b| ensures ChildrenIn(b, b[i].children) && ChildrenAbove(i, b[i].children) {
      assert ChildrenIn(a, a[i].children) && ChildrenAbove(i, a[i].children);
    }
  }

  class Tree {
    /** Every context created so far, indexed by its handle. */
    var nodes: seq<Node>

    ghost predicate Valid()
      reads this
    {
      WF(nodes) && Sound(nodes)
    }

    constructor ()
      ensures Valid() && nodes == []
    {
      nodes := [];
    }

    /** Appends a node and returns its handle. */
    method Add(n: Node) returns (i: nat)
      requires Valid() && SoundNode(n) && n.children.None? && !n.viaStop
      requires !IsRoot(n.kind) ==> n.parent < |nodes|
      requires n.kind.Value? ==> n.kind.key.Comparable?
      requires n.kind.Foreign? ==> n.done.Made?
      modifies this
      ensures Valid() && i == |old(nodes)| && nodes == old(nodes) + [n]
    {
      i := |nodes|;
      nodes := nodes + [n];
      assert forall j :: 0 <= j < i ==> nodes[j] == old(nodes)[j];
      assert forall j :: 0 <= j < i ==> ChildrenIn(old(nodes), old(nodes)[j].children);
    }

    /** `Background()`: an empty context that is never canceled. */
    method Background() returns (i: nat)
      requires Valid()
      modifies this
      ensures Valid() && nodes == old(nodes) + [NewNode(Kind.Background, 0)]
      ensures i == |old(nodes)| && ChanOf(nodes, i) == NilChan && ErrOf(nodes, i).None?
      ensures DeadlineOf(nodes, i).None? && forall key :: Lookup(nodes, i, key) == Nil
    {
      i := Add(NewNode(Kind.Background, 0));
    }

    /** `TODO()`: the other empty context. */
    method Todo() returns (i: nat)
      requires Valid()
      modifies this
      ensures Valid() && nodes == old(nodes) + [NewNode(Kind.Todo, 0)]
      ensures i == |old(nodes)| && ChanOf(nodes, i) == NilChan && ErrOf(nodes, i).None?
      ensures DeadlineOf(nodes, i).None? && forall key :: Lookup(nodes, i, key) == Nil
    {
      i := Add(NewNode(Kind.Todo, 0));
    }

    /** A context implemented outside the package, canceled or not from the
        start, with or without an AfterFunc method. */
    method Foreign(afterFuncer: bool, deadline: Option<int>, err: Option<Error>) returns (i: nat)
      requires Valid()
      modifies this
      ensures Valid() && i == |old(nodes)| && |nodes| == i + 1 && nodes[..i] == old(nodes)
      ensures nodes[i].kind == Kind.Foreign(afterFuncer, deadline) && ErrOf(nodes, i) == err
      ensures IsClosed(nodes, ChanOf(nodes, i)) <==> err.Some?
    {
      var n := NewNode(Kind.Foreign(afterFuncer, deadline), 0).(err := err, cause := err, done := Made(err.Some?));
      i := Add(n);
    }

    /** `Done()`: loads the channel, creating the owner's open channel on first
        use; nil for a context that is never canceled. */
    method Done(i: nat) returns (ch: Chan)
      requires Valid() && i < |nodes|
      modifies this
      ensures Valid() && nodes == Materialize(old(nodes), i)
      ensures ch == ChanOf(nodes, i) && DoneOwner(nodes, i) == DoneOwner(old(nodes), i)
      ensures ch == NilChan <==> DoneOwner(old(nodes), i).None?
    {
      MaterializeGivesChannel(nodes, i);
      var o := DoneOwner(nodes, i);
      if o.Some? && nodes[o.value].done.Unmade? {
        nodes := nodes[o.value := nodes[o.value].(done := Made(false))];
      }
      ch := ChanOf(nodes, i);
    }

    /** `parentCancelCtx(parent)`: the cancelCtx to link a child of `parent`
        into, if one is identifiable. */
    method ParentCancelCtx(parent: nat) returns (p: nat, ok: bool)
      requires Valid() && parent < |nodes|
      modifies this
      ensures Valid() && nodes == Materialize(old(nodes), parent)
      ensures ok <==> CancelAncestor(nodes, parent).Some?
      ensures ok ==> CancelAncestor(nodes, parent) == Some(p) && p <= parent && Cancelish(nodes[p].kind)
    {
      var done := Done(parent);
      if done == ClosedChan || done == NilChan {
        return 0, false;
      }
      var v := Lookup(nodes, parent, CancelCtxKey);
      if !v.CancelCtxRef? {
        return 0, false;
      }
      if SlotChan(nodes[v.node].done, v.node) != done {
        return 0, false;
      }
      return v.node, true;
    }

    /** `removeChild(child.Context, child)`. */
    method RemoveChild(child: nat)
      requires Valid() && child < |nodes| && Cancelish(nodes[child].kind)
      modifies this
      ensures Valid() && nodes == Detach(old(nodes), child)
      ensures Grows(old(nodes), nodes) && KeepsErrors(old(nodes), nodes) && nodes[child] == old(nodes[child])
    {
      DetachGrows(nodes, child);
      var parent := nodes[child].parent;
      if nodes[child].viaStop {
        // s.stop(): the foreign parent drops the callback registered for child
        var f := nodes[parent];
        if f.children.Some? {
          nodes := nodes[parent := f.(children := Some(f.children.value - {child}))];
        }
        return;
      }
      var p, ok := ParentCancelCtx(parent);
      if !ok {
        return;
      }
      if nodes[p].children.Some? {
        nodes := nodes[p := nodes[p].(children := Some(nodes[p].children.value - {child}))];
      }
    }

    /** `c.propagateCancel(parent, child)` for a freshly allocated canceler
        `c`: load the parent's `Done`, then cancel the child at once, link it
        into the nearest cancelCtx, register it with a foreign parent's
        AfterFunc, or leave it to the watcher goroutine. */
    method PropagateCancel(c: nat)
      requires Valid() && c < |nodes| && Cancelish(nodes[c].kind) && nodes[c].parent < c
      requires nodes[c].err.None? && nodes[c].children.None? && !nodes[c].viaStop
      modifies this
      ensures Valid() && Propagated(old(nodes), nodes, c) && KeepsShape(old(nodes), nodes)
      ensures nodes[c].armed ==> old(nodes[c].armed)
    {
      var parent := nodes[c].parent;
      MaterializeGrows(nodes, parent);
      GrowsKeepsShape(nodes, Materialize(nodes, parent));
      var done := Done(parent);
      ghost var m := nodes;
      assert m[c] == old(nodes)[c];
      if done == NilChan {
        return;  // no owner serves the parent's Done: nothing to link
      }
      if IsClosed(nodes, done) {
        assert LinkCase(m, parent) == ParentDone;
        ClosedDoneHasErr(nodes, parent);
        CancelFresh(c, ErrOf(nodes, parent).value, Cause(nodes, parent).value);
        KeepsShapeTrans(old(nodes), m, nodes);
        return;
      }
      MaterializeTwice(old(nodes), parent);
      var p, ok := ParentCancelCtx(parent);
      assert nodes == m;
      if ok {
        assert LinkCase(m, parent) == ToAncestor(p);
        LinkAncestor(c, p);
        KeepsShapeTrans(old(nodes), m, nodes);
        return;
      }
      if nodes[parent].kind.Foreign? && nodes[parent].kind.afterFuncer {
        assert LinkCase(m, parent) == ToForeign;
        LinkForeign(c, parent);
        KeepsShapeTrans(old(nodes), m, nodes);
        return;
      }
      // the watcher goroutine, not modelled
    }

    /** The branch of propagateCancel that found cancelCtx `p`: under `p`'s
        lock, cancel the child with `p`'s error and cause if `p` is already
        canceled, otherwise record the child in `p`'s children set. */
    method LinkAncestor(c: nat, p: nat)
      requires Valid() && p < c < |nodes| && Cancelish(nodes[c].kind)
      requires nodes[c].err.None? && nodes[c].children.None?
      modifies this
      ensures Valid() && KeepsShape(old(nodes), nodes)
      ensures old(nodes[p].err).Some? ==>
        OnlyAt(old(nodes), nodes, c) && nodes[c].err == old(nodes[p].err)
        && nodes[c].cause == old(nodes[p].cause) && SlotClosed(nodes[c].done)
        && Settled(nodes[c]) && NodeGrows(old(nodes[c]), nodes[c])
      ensures old(nodes[p].err).None? ==>
        nodes == old(nodes)[p := old(nodes)[p].(children := Some(old(nodes)[p].children.GetOr({}) + {c}))]
      ensures nodes[c].armed ==> old(nodes[c].armed)
    {
      if nodes[p].err.Some? {
        assert SoundNode(nodes[p]);
        CancelFresh(c, nodes[p].err.value, nodes[p].cause.value);  // the ancestor holds an error: pass it on
      } else {
        Insert(p, c);
      }
    }

    /** The branch of propagateCancel for a foreign parent with an AfterFunc
        method: register the child's cancel with it and wrap the parent in a
        stopCtx holding the returned stop function. */
    method LinkForeign(c: nat, parent: nat)
      requires Valid() && c < |nodes| && Cancelish(nodes[c].kind)
      requires parent == nodes[c].parent && parent < c && nodes[parent].kind.Foreign?
      modifies this
      ensures Valid() && KeepsShape(old(nodes), nodes)
      ensures nodes == old(nodes)[parent := old(nodes)[parent].(children := Some(old(nodes)[parent].children.GetOr({}) + {c}))]
                                 [c := old(nodes)[c].(viaStop := true)]
    {
      Insert(parent, c);
      StopKeepsWF(nodes, c);
      nodes := nodes[c := nodes[c].(viaStop := true)];
    }

    /** `child.cancel(false, err, cause)` on a child that has no children yet:
        only the child changes: it takes the given error and cause, its
        channel is closed, and its cancel runs to the end (a timer stopped, an
        AfterFunc function started). */
    method CancelFresh(c: nat, err: Error, cause: Error)
      requires Valid() && c < |nodes| && Cancelish(nodes[c].kind)
      requires nodes[c].err.None? && nodes[c].children.None?
      modifies this
      ensures Valid() && OnlyAt(old(nodes), nodes, c) && KeepsShape(old(nodes), nodes)
      ensures nodes[c].err == Some(err) && nodes[c].cause == Some(cause) && SlotClosed(nodes[c].done)
      ensures Settled(nodes[c]) && NodeGrows(old(nodes[c]), nodes[c])
      ensures nodes[c].armed ==> old(nodes[c].armed)
    {
      CancelNode(c, false, err, Some(cause));
      GrowsKeepsShape(old(nodes), nodes);
      assert NodeGrows(old(nodes)[c], nodes[c]);
    }

    /** `p.children[child] = struct{}{}`, making the map first if it is nil. */
    method Insert(p: nat, c: nat)
      requires Valid() && p < c < |nodes| && Cancelish(nodes[c].kind)
      modifies this
      ensures Valid() && KeepsShape(old(nodes), nodes)
      ensures nodes == old(nodes)[p := old(nodes)[p].(children := Some(old(nodes)[p].children.GetOr({}) + {c}))]
    {
      InsertKeepsWF(nodes, p, c);
      nodes := nodes[p := nodes[p].(children := Some(nodes[p].children.GetOr({}) + {c}))];
    }

    /** `cancelCtx.cancel(removeFromParent, err, cause)`. */
    method CancelCtxCancel(n: nat, removeFromParent: bool, err: Error, cause: Option<Error>)
      requires Valid() && n < |nodes| && Cancelish(nodes[n].kind)
      modifies this
      decreases Uncanceled(nodes), 2
      ensures Valid() && Evolves(old(nodes), nodes, err, cause.GetOr(err))
      ensures old(nodes[n].err).Some? ==> nodes == old(nodes)
      ensures old(nodes[n].err).None? ==> FirstCancelDone(old(nodes), nodes, n, err, cause.GetOr(err))
      ensures !removeFromParent && old(nodes[n].children).GetOr({}) == {} ==> OnlyAt(old(nodes), nodes, n)
      ensures SettledBesides(old(nodes), nodes, n)
      ensures Framed(old(nodes), nodes, n, removeFromParent && old(nodes[n].err).None?)
    {
      var c0 := cause.GetOr(err);
      if nodes[n].err.Some? {
        assert SameShape(nodes, nodes);
        return;  // err is set: a second cancel is a no-op
      }
      Cascade(n, err, c0);
      ghost var cleared := nodes;
      DetachIfAsked(n, removeFromParent, err, c0);
      KeepsIsEvolves(cleared, nodes, err, c0);
      Settle(old(nodes), cleared, nodes, n, err, c0);
      FrameCascade(old(nodes), cleared, nodes, n, removeFromParent);
    }

    /** The body of `cancel` after the already-canceled check: close `n`,
        cancel every child with the same error and cause, and set the
        children set nil; nothing outside `n`'s subtree changes. */
    method Cascade(n: nat, err: Error, c0: Error)
      requires Valid() && n < |nodes| && Cancelish(nodes[n].kind) && nodes[n].err.None?
      modifies this
      decreases Uncanceled(nodes), 1
      ensures Valid() && Evolves(old(nodes), nodes, err, c0)
      ensures FirstCancelDone(old(nodes), nodes, n, err, c0)
      ensures old(nodes[n].children).GetOr({}) == {} ==> OnlyAt(old(nodes), nodes, n)
      ensures SettledBesides(old(nodes), nodes, n)
      ensures Outside(old(nodes), nodes, Subtree(old(nodes), n))
    {
      ghost var u0 := Uncanceled(nodes);
      var kids := nodes[n].children;
      assert ChildrenIn(nodes, kids);
      Close(n, err, c0);
      ghost var closed := nodes;
      CancelChildren(kids.GetOr({}), err, c0, u0, n);
      EvolvesTrans(old(nodes), closed, nodes, err, c0);
      SettledStep(old(nodes), closed, nodes, n, n);
      ghost var looped := nodes;
      assert NodeGrows(closed[n], looped[n]);
      ClearChildren(n, err, c0);
      EvolvesTrans(old(nodes), looped, nodes, err, c0);
      SettledStep(old(nodes), looped, nodes, n, n);
      FrameAroundRoot(old(nodes), closed, looped, nodes, n);
    }

    /** `c.children = nil` at the end of the first cancel of `n`. */
    method ClearChildren(n: nat, ghost err: Error, ghost c0: Error)
      requires Valid() && n < |nodes| && nodes[n].err.Some?
      modifies this
      ensures Valid() && Evolves(old(nodes), nodes, err, c0) && KeepsErrors(old(nodes), nodes)
      ensures SettledBesides(old(nodes), nodes, n)
      ensures nodes == old(nodes)[n := old(nodes)[n].(children := None)]
    {
      Update(nodes, n, nodes[n].(children := None), err, c0);
      nodes := nodes[n := nodes[n].(children := None)];
    }

    /** The first-cancel transition under the lock: record err and cause, and
        close the channel, or store `closedchan` when none was ever made. */
    method Close(n: nat, err: Error, c0: Error)
      requires Valid() && n < |nodes| && nodes[n].err.None?
      modifies this
      ensures Valid() && Evolves(old(nodes), nodes, err, c0) && OnlyAt(old(nodes), nodes, n)
      ensures SettledBesides(old(nodes), nodes, n)
      ensures Uncanceled(nodes) < Uncanceled(old(nodes))
      ensures nodes[n].err == Some(err) && nodes[n].cause == Some(c0) && SlotClosed(nodes[n].done)
      ensures nodes[n].children == old(nodes[n].children)
    {
      var d := nodes[n].done;
      assert SoundNode(nodes[n]);
      assert d == Unmade || d == Made(false);  // so the channel is never closed twice
      var closed := nodes[n].(err := Some(err), cause := Some(c0), done := if d.Unmade? then Shared else Made(true));
      Update(nodes, n, closed, err, c0);
      nodes := nodes[n := closed];
      GrowsShrinksUncanceled(old(nodes), nodes);
      assert n in Uncanceled(old(nodes)) && n !in Uncanceled(nodes);
    }

    /** The loop `for child := range c.children { child.cancel(false, err, cause) }`.
        `bound` is the measure of the cancel call that runs it. */
    method CancelChildren(kids: set<nat>, err: Error, c0: Error, ghost bound: set<nat>, ghost n: nat)
      requires Valid() && ChildrenIn(nodes, Some(kids)) && Uncanceled(nodes) < bound
      requires n < |nodes| && nodes[n].children.GetOr({}) == kids
      modifies this
      decreases bound, 0
      ensures Valid() && Evolves(old(nodes), nodes, err, c0)
      ensures forall k :: k in kids ==> nodes[k].err.Some? && Settled(nodes[k])
      ensures SettledBesides(old(nodes), nodes, n)
      ensures kids == {} ==> nodes == old(nodes)
      ensures Outside(old(nodes), nodes, Subtree(old(nodes), n)) && nodes[n] == old(nodes[n])
    {
      var todo := kids;
      assert SameShape(nodes, nodes);
      while todo != {}
        invariant Valid() && ChildLoop(old(nodes), nodes, kids, todo, err, c0, bound, n)
        decreases todo
      {
        var k :| k in todo;
        ghost var mid := nodes;
        CancelNode(k, false, err, Some(c0));
        ChildStep(old(nodes), mid, nodes, kids, todo, k, err, c0, bound, n);
        todo := todo - {k};
      }
    }

    /** The `cancel` method of the `canceler` a node is: dispatch on its kind. */
    method CancelNode(n: nat, removeFromParent: bool, err: Error, cause: Option<Error>)
      requires Valid() && n < |nodes| && Cancelish(nodes[n].kind)
      modifies this
      decreases Uncanceled(nodes), 4
      ensures Valid() && Evolves(old(nodes), nodes, err, cause.GetOr(err))
      ensures old(nodes[n].err).Some? ==> KeepsErrors(old(nodes), nodes)
      ensures old(nodes[n].err).Some? && nodes[n].kind.Cancel? ==> nodes == old(nodes)
      ensures old(nodes[n].err).None? ==> FirstCancelDone(old(nodes), nodes, n, err, cause.GetOr(err))
      ensures !removeFromParent && old(nodes[n].children).GetOr({}) == {} ==> OnlyAt(old(nodes), nodes, n)
      ensures nodes[n].err.Some? && Settled(nodes[n]) && SettledBesides(old(nodes), nodes, n)
      ensures Framed(old(nodes), nodes, n, removeFromParent && (old(nodes[n].err).None? || !old(nodes[n].kind).Cancel?))
    {
      if nodes[n].kind.Cancel? {
        CancelCtxCancel(n, removeFromParent, err, cause);
      } else if nodes[n].kind.Timer? {
        TimerCancel(n, removeFromParent, err, cause);
      } else {
        AfterFuncCancel(n, removeFromParent, err, cause);
      }
    }

    /** `timerCtx.cancel`: cancel the embedded cancelCtx without detaching,
        detach if asked, and stop and drop the timer in every case. */
    method TimerCancel(n: nat, removeFromParent: bool, err: Error, cause: Option<Error>)
      requires Valid() && n < |nodes| && nodes[n].kind.Timer?
      modifies this
      decreases Uncanceled(nodes), 3
      ensures Valid() && Evolves(old(nodes), nodes, err, cause.GetOr(err))
      ensures old(nodes[n].err).Some? ==> KeepsErrors(old(nodes), nodes)
      ensures old(nodes[n].err).None? ==> FirstCancelDone(old(nodes), nodes, n, err, cause.GetOr(err))
      ensures !removeFromParent && old(nodes[n].children).GetOr({}) == {} ==> OnlyAt(old(nodes), nodes, n)
      ensures !nodes[n].armed && SettledBesides(old(nodes), nodes, n)
      ensures Framed(old(nodes), nodes, n, removeFromParent)
    {
      CancelCtxCancel(n, false, err, cause);
      ghost var canceled := nodes;
      DetachIfAsked(n, removeFromParent, err, cause.GetOr(err));
      KeepsIsEvolves(canceled, nodes, err, cause.GetOr(err));
      Settle(old(nodes), canceled, nodes, n, err, cause.GetOr(err));
      FrameCascade(old(nodes), canceled, nodes, n, removeFromParent);
      if nodes[n].armed {
        ghost var pre := nodes;
        Update(nodes, n, nodes[n].(armed := false), err, cause.GetOr(err));
        nodes := nodes[n := nodes[n].(armed := false)];  // c.timer.Stop(); c.timer = nil
        Settle(old(nodes), pre, nodes, n, err, cause.GetOr(err));
        FramedAtRoot(old(nodes), pre, nodes, n, removeFromParent);
      }
    }

    /** The `if removeFromParent { removeChild(...) }` step shared by the
        cancel methods of timerCtx and afterFuncCtx. */
    method DetachIfAsked(n: nat, removeFromParent: bool, ghost e: Error, ghost c: Error)
      requires Valid() && n < |nodes| && Cancelish(nodes[n].kind)
      modifies this
      ensures Valid() && Grows(old(nodes), nodes) && KeepsErrors(old(nodes), nodes)
      ensures nodes[n] == old(nodes[n])
      ensures nodes == if removeFromParent then Detach(old(nodes), n) else old(nodes)
    {
      if removeFromParent {
        RemoveChild(n);
      } else {
        assert SameShape(nodes, nodes);
      }
    }

    /** `afterFuncCtx.cancel`: cancel the embedded cancelCtx without
        detaching, detach if asked, then start the function unless the
        once-guard has already fired. */
    method AfterFuncCancel(n: nat, removeFromParent: bool, err: Error, cause: Option<Error>)
      requires Valid() && n < |nodes| && nodes[n].kind.AfterFunc?
      modifies this
      decreases Uncanceled(nodes), 3
      ensures Valid() && Evolves(old(nodes), nodes, err, cause.GetOr(err))
      ensures old(nodes[n].err).Some? ==> KeepsErrors(old(nodes), nodes)
      ensures old(nodes[n].err).None? ==> FirstCancelDone(old(nodes), nodes, n, err, cause.GetOr(err))
      ensures !removeFromParent && old(nodes[n].children).GetOr({}) == {} ==> OnlyAt(old(nodes), nodes, n)
      ensures nodes[n].onceFired && SettledBesides(old(nodes), nodes, n)
      ensures Framed(old(nodes), nodes, n, removeFromParent)
    {
      CancelCtxCancel(n, false, err, cause);
      ghost var canceled := nodes;
      DetachIfAsked(n, removeFromParent, err, cause.GetOr(err));
      KeepsIsEvolves(canceled, nodes, err, cause.GetOr(err));
      Settle(old(nodes), canceled, nodes, n, err, cause.GetOr(err));
      FrameCascade(old(nodes), canceled, nodes, n, removeFromParent);
      ghost var pre := nodes;
      RunOnce(n, err, cause.GetOr(err));
      Settle(old(nodes), pre, nodes, n, err, cause.GetOr(err));
      FramedAtRoot(old(nodes), pre, nodes, n, removeFromParent);
    }

    /** `a.once.Do(func() { go a.f() })`: start the function unless the
        once-guard has already fired. */
    method RunOnce(n: nat, ghost err: Error, ghost c0: Error)
      requires Valid() && n < |nodes| && nodes[n].kind.AfterFunc?
      modifies this
      ensures Valid() && Evolves(old(nodes), nodes, err, c0) && KeepsErrors(old(nodes), nodes)
      ensures OnlyAt(old(nodes), nodes, n) && nodes[n].onceFired
      ensures nodes[n] == if old(nodes[n].onceFired) then old(nodes[n])
                          else old(nodes[n]).(onceFired := true, scheduled := old(nodes[n].scheduled) + 1)
    {
      if !nodes[n].onceFired {
        assert SoundNode(nodes[n]);
        var fired := nodes[n].(onceFired := true, scheduled := nodes[n].scheduled + 1);  // go a.f()
        Update(nodes, n, fired, err, c0);
        nodes := nodes[n := fired];
      } else {
        assert SameShape(nodes, nodes);
      }
    }

    /** `withCancel` and `AfterFunc`'s allocation: a new canceler of the given
        kind under `parent`, linked by propagateCancel. */
    method NewCanceler(kind: Kind, parent: nat) returns (c: nat)
      requires Valid() && parent < |nodes| && Cancelish(kind)
      modifies this
      ensures Valid() && CancelerMade(old(nodes), nodes, kind, parent, c)
      ensures KeepsShape(old(nodes) + [NewNode(kind, parent)], nodes) && !nodes[c].armed
    {
      c := Add(NewNode(kind, parent));
      ghost var added := nodes;
      PropagateCancel(c);
      PropagatedExtends(old(nodes), kind, parent, nodes);
      NewCancelerAnswers(old(nodes), nodes, kind, parent);
      PropagatedErrorIsParents(added, nodes, c);
      PrefixAgree(old(nodes), added, parent);
    }

    /** `WithCancel(parent)`: a cancelCtx and a CancelFunc that cancels it
        with `Canceled` and detaches it from its parent. */
    method WithCancel(parent: nat) returns (c: nat, f: CancelFunc)
      requires Valid() && parent < |nodes|
      modifies this
      ensures Valid() && CancelerMade(old(nodes), nodes, Cancel, parent, c) && f == CancelFunc(c, true, false)
    {
      c := NewCanceler(Cancel, parent);
      f := CancelFunc(c, true, false);
    }

    /** `WithCancelCause(parent)`: as WithCancel, but the function returned
        passes its argument on as the cause. */
    method WithCancelCause(parent: nat) returns (c: nat, f: CancelFunc)
      requires Valid() && parent < |nodes|
      modifies this
      ensures Valid() && CancelerMade(old(nodes), nodes, Cancel, parent, c) && f == CancelFunc(c, true, true)
    {
      c := NewCanceler(Cancel, parent);
      f := CancelFunc(c, true, true);
    }

    /** Calling a CancelFunc (`cause` is ignored unless it is the function
        of WithCancelCause): the first call cancels its context with
        `Canceled` and the cause, later calls change no error. */
    method Invoke(f: CancelFunc, cause: Option<Error>)
      requires Valid() && f.node < |nodes| && Cancelish(nodes[f.node].kind)
      modifies this
      ensures Valid() && Evolves(old(nodes), nodes, Canceled, if f.takesCause then cause.GetOr(Canceled) else Canceled)
      ensures old(nodes[f.node].err).None? ==>
        FirstCancelDone(old(nodes), nodes, f.node, Canceled, if f.takesCause then cause.GetOr(Canceled) else Canceled)
      ensures old(nodes[f.node].err).Some? ==> KeepsErrors(old(nodes), nodes)
      ensures Settled(nodes[f.node]) && SettledBesides(old(nodes), nodes, f.node)
      ensures Framed(old(nodes), nodes, f.node,
                     f.removeFromParent && (old(nodes[f.node].err).None? || !old(nodes[f.node].kind).Cancel?))
    {
      CancelNode(f.node, f.removeFromParent, Canceled, if f.takesCause then cause else None);
    }

    /** `WithDeadlineCause(parent, d, cause)`, read at time `now`: a parent
        whose deadline is strictly earlier than `d` makes it WithCancel. */
    method WithDeadlineCause(parent: nat, d: int, cause: Option<Error>, now: int)
      returns (c: nat, f: CancelFunc, ghost linked: seq<Node>)
      requires Valid() && parent < |nodes|
      modifies this
      ensures Valid() && DeadlineMade(old(nodes), linked, nodes, parent, d, cause, now, c, f)
    {
      var cur := DeadlineOf(nodes, parent);
      if cur.Some? && cur.value < d {
        // an ancestor's deadline comes first: a plain cancelCtx will do
        c, f := WithCancel(parent);
        linked := nodes;
        ShortcutMade(old(nodes), nodes, parent, d, cause, now, c, f);
        return;
      }
      c, f, linked := NewTimer(parent, d, cause, now);
      TimerMade(old(nodes), linked, nodes, parent, d, cause, now, c, f);
    }

    /** The rest of WithDeadlineCause: a timerCtx is linked; if `d` has passed
        it is canceled at once with DeadlineExceeded and its function no
        longer detaches it, else its timer is armed unless propagateCancel
        already canceled it. */
    method NewTimer(parent: nat, d: int, cause: Option<Error>, now: int)
      returns (c: nat, f: CancelFunc, ghost linked: seq<Node>)
      requires Valid() && parent < |nodes|
      modifies this
      ensures Valid() && CancelerMade(old(nodes), linked, Timer(d, cause), parent, c)
      ensures |nodes| == c + 1 && Extends(old(nodes), nodes) && nodes[c].kind == Timer(d, cause)
      ensures Answers(old(nodes), nodes, Timer(d, cause), parent, c)
      ensures f == CancelFunc(c, d - now > 0, false) && TimerSet(linked, nodes, c, d - now, cause)
    {
      c := NewCanceler(Timer(d, cause), parent);
      linked := nodes;
      f := SetTimer(c, d - now, cause);
      ExtendsByTimer(old(nodes), linked, nodes, c, d - now, cause);
      KeepsShapeTrans(old(nodes) + [NewNode(Timer(d, cause), parent)], linked, nodes);
      NewCancelerAnswers(old(nodes), nodes, Timer(d, cause), parent);
    }

    /** The tail of WithDeadlineCause, `dur` before the deadline: cancel the
        timerCtx at once when the deadline has passed, else arm its timer
        unless propagateCancel already canceled it. */
    method SetTimer(c: nat, dur: int, cause: Option<Error>) returns (f: CancelFunc)
      requires Valid() && c < |nodes| && nodes[c].kind.Timer? && !nodes[c].armed
      modifies this
      ensures Valid() && KeepsShape(old(nodes), nodes)
      ensures f == CancelFunc(c, dur > 0, false) && TimerSet(old(nodes), nodes, c, dur, cause)
    {
      if dur <= 0 {
        CancelNode(c, true, DeadlineExceeded, cause);  // no time left: cancel at once
        GrowsKeepsShape(old(nodes), nodes);
        f := CancelFunc(c, false, false);
      } else {
        if nodes[c].err.None? {
          Arm(c);  // c.timer = time.AfterFunc(dur, ...)
        } else {
          assert SameShape(nodes, nodes);
          GrowsKeepsShape(nodes, nodes);
        }
        f := CancelFunc(c, true, false);
      }
    }

    /** Starting the timer of a timerCtx that is not canceled. */
    method Arm(c: nat)
      requires Valid() && c < |nodes| && nodes[c].kind.Timer? && nodes[c].err.None?
      modifies this
      ensures Valid() && KeepsShape(old(nodes), nodes)
      ensures nodes == old(nodes)[c := old(nodes)[c].(armed := true)]
    {
      assert SoundNode(nodes[c]);
      Retouch(nodes, c, nodes[c].(armed := true));
      nodes := nodes[c := nodes[c].(armed := true)];
    }

    /** `WithDeadline(parent, d)`: WithDeadlineCause with a nil cause. */
    method WithDeadline(parent: nat, d: int, now: int) returns (c: nat, f: CancelFunc, ghost linked: seq<Node>)
      requires Valid() && parent < |nodes|
      modifies this
      ensures Valid() && DeadlineMade(old(nodes), linked, nodes, parent, d, None, now, c, f)
    {
      c, f, linked := WithDeadlineCause(parent, d, None, now);
    }

    /** `WithTimeout(parent, timeout)`: WithDeadline at `now + timeout`. */
    method WithTimeout(parent: nat, timeout: int, now: int)
      returns (c: nat, f: CancelFunc, ghost linked: seq<Node>, ghost d: int)
      requires Valid() && parent < |nodes|
      modifies this
      ensures Valid() && d == now + timeout
      ensures DeadlineMade(old(nodes), linked, nodes, parent, d, None, now, c, f)
    {
      var deadline := now + timeout;
      c, f, linked := WithDeadline(parent, deadline, now);
      d := deadline;
    }

    /** `WithTimeoutCause(parent, timeout, cause)`: the deadline is `now + timeout`. */
    method WithTimeoutCause(parent: nat, timeout: int, cause: Option<Error>, now: int)
      returns (c: nat, f: CancelFunc, ghost linked: seq<Node>, ghost d: int)
      requires Valid() && parent < |nodes|
      modifies this
      ensures Valid() && d == now + timeout
      ensures DeadlineMade(old(nodes), linked, nodes, parent, d, cause, now, c, f)
    {
      var deadline := now + timeout;
      c, f, linked := WithDeadlineCause(parent, deadline, cause, now);
      d := deadline;
    }

    /** The timer of a timerCtx going off: `c.cancel(true, DeadlineExceeded, cause)`. */
    method FireTimer(c: nat)
      requires Valid() && c < |nodes| && nodes[c].kind.Timer? && nodes[c].armed
      modifies this
      ensures Valid() && Evolves(old(nodes), nodes, DeadlineExceeded, old(nodes[c].kind.timerCause).GetOr(DeadlineExceeded))
      ensures !nodes[c].armed && SettledBesides(old(nodes), nodes, c)
      ensures old(nodes[c].err).None? ==>
        FirstCancelDone(old(nodes), nodes, c, DeadlineExceeded, old(nodes[c].kind.timerCause).GetOr(DeadlineExceeded))
      ensures Framed(old(nodes), nodes, c, true)
    {
      CancelNode(c, true, DeadlineExceeded, nodes[c].kind.timerCause);
    }

    /** `AfterFunc(ctx, f)`: an afterFuncCtx linked under `ctx`; the handle
        returned stands for both the context and its `stop` function. */
    method AfterFunc(ctx: nat) returns (a: nat)
      requires Valid() && ctx < |nodes|
      modifies this
      ensures Valid() && CancelerMade(old(nodes), nodes, Kind.AfterFunc, ctx, a)
      ensures nodes[a].onceFired <==> ErrOf(old(nodes), ctx).Some?
      ensures nodes[a].scheduled == if nodes[a].onceFired then 1 else 0
    {
      a := NewCanceler(Kind.AfterFunc, ctx);
    }

    /** The `stop` function AfterFunc returns: it fires the once-guard
        itself, and reports whether it did; if so, `f` never starts and the
        context is canceled with `Canceled` and detached. */
    method Stop(a: nat) returns (stopped: bool)
      requires Valid() && a < |nodes| && nodes[a].kind.AfterFunc?
      modifies this
      ensures Valid() && |nodes| == |old(nodes)|
      ensures stopped <==> !old(nodes[a].onceFired)
      ensures !stopped ==> nodes == old(nodes)
      ensures stopped ==> Stopped(old(nodes), nodes, a)
    {
      stopped := !nodes[a].onceFired;
      if stopped {
        assert SoundNode(nodes[a]);
        FireGuard(a);
        ghost var pre := nodes;
        CancelNode(a, true, Canceled, None);
        StopOutcome(old(nodes), pre, nodes, a);
      }
    }

    /** The once-guard step of `stop`: mark the AfterFunc context as fired
        without scheduling `f`. */
    method FireGuard(a: nat)
      requires Valid() && a < |nodes| && nodes[a].kind.AfterFunc? && !nodes[a].onceFired
      modifies this
      ensures Valid() && KeepsShape(old(nodes), nodes)
      ensures nodes == old(nodes)[a := old(nodes[a]).(onceFired := true)]
    {
      assert SoundNode(nodes[a]);
      Retouch(nodes, a, nodes[a].(onceFired := true));
      nodes := nodes[a := nodes[a].(onceFired := true)];
    }

    /** `WithoutCancel(parent)`: a context that is never canceled and has no
        deadline, but sees its parent's values. */
    method WithoutCancel(parent: nat) returns (c: nat)
      requires Valid() && parent < |nodes|
      modifies this
      ensures Valid() && c == |old(nodes)| && nodes == old(nodes) + [NewNode(Kind.WithoutCancel, parent)]
      ensures ChanOf(nodes, c) == NilChan && ErrOf(nodes, c).None? && Cause(nodes, c).None?
      ensures DeadlineOf(nodes, c).None? && Lookup(nodes, c, CancelCtxKey) == Nil
      ensures forall key :: key != CancelCtxKey ==> Lookup(nodes, c, key) == Lookup(old(nodes), parent, key)
    {
      c := Add(NewNode(Kind.WithoutCancel, parent));
      ShapeAgree(old(nodes), nodes, parent);
    }

    /** `WithValue(parent, key, val)`; a nil or incomparable key panics. */
    method WithValue(parent: nat, key: Key, val: Any) returns (c: nat)
      requires Valid() && parent < |nodes| && key.Comparable?
      modifies this
      ensures Valid() && c == |old(nodes)| && nodes == old(nodes) + [NewNode(Value(key, val), parent)]
      ensures Lookup(nodes, c, key) == val
      ensures forall k :: k != key ==> Lookup(nodes, c, k) == Lookup(old(nodes), parent, k)
      ensures ErrOf(nodes, c) == ErrOf(old(nodes), parent) && Cause(nodes, c) == Cause(old(nodes), parent)
      ensures ChanOf(nodes, c) == ChanOf(old(nodes), parent) && DeadlineOf(nodes, c) == DeadlineOf(old(nodes), parent)
    {
      c := Add(NewNode(Value(key, val), parent));
      PrefixAgree(old(nodes), nodes, parent);
    }
  }
}
