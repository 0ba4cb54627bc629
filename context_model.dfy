/**
 * The read-only half of the context package: the node arena, its
 * well-formedness, and the walks up the parent chain that `Done`, `Err`,
 * `Deadline`, `Value` and `Cause` perform.
 *
 * Every context lives in an arena `seq<Node>` and is named by its index.
 * A node records the context it was derived from (`parent`); a node that is
 * not a root always has a smaller index than itself, because a context can
 * only be derived from one that already exists.  All walks recurse on that
 * index.
 */
module ContextModel {
  import opened Wrappers

  /** The errors a context reports: the package's two sentinels and any
      caller-supplied cause. */
  datatype Error = Canceled | DeadlineExceeded | Custom(msg: string)

  /** A key passed to `Value`.  `CancelCtxKey` is the address of the private
      variable `cancelCtxKey`; callers outside the package cannot form it.
      `Incomparable` stands for a key whose dynamic type is not comparable. */
  datatype Key = NilKey | CancelCtxKey | Comparable(name: string) | Incomparable(name: string)

  /** What `Value` returns: nil, a user value, or the `*cancelCtx` embedded in
      the node with the given index. */
  datatype Any = Nil | Str(s: string) | CancelCtxRef(node: nat)

  /** The concrete type behind a `Context`.  `Foreign` is a Context
      implementation from outside the package; `afterFuncer` says whether it
      has an `AfterFunc(func()) func() bool` method. */
  datatype Kind =
    | Background
    | Todo
    | Value(key: Key, val: Any)
    | Cancel
    | Timer(deadline: int, timerCause: Option<Error>)
    | AfterFunc
    | WithoutCancel
    | Foreign(afterFuncer: bool, foreignDeadline: Option<int>)

  /** The `done` atomic.Value of a cancelCtx: nothing stored yet, a channel of
      the node's own (open or closed), or the shared, already closed
      `closedchan`. */
  datatype Slot = Unmade | Made(closed: bool) | Shared

  /** One context.  The fields after `kind` and `parent` are the mutable state
      of a cancelCtx (for a foreign node: its own done channel, error and the
      callbacks registered through its AfterFunc method, kept in `children`).
      `viaStop` says the node's parent Context was wrapped in a stopCtx;
      `armed` is the timer of a timerCtx being non-nil; `onceFired` is the
      sync.Once of an afterFuncCtx having run and `scheduled` counts the
      goroutines started for its function. */
  datatype Node = Node(
    kind: Kind,
    parent: nat,
    viaStop: bool,
    err: Option<Error>,
    cause: Option<Error>,
    done: Slot,
    children: Option<set<nat>>,
    armed: bool,
    onceFired: bool,
    scheduled: nat)

  /** The channel a `Done` call returns, by identity. */
  datatype Chan = NilChan | ClosedChan | NodeChan(owner: nat)

  /** A node as its constructor allocates it: no error, no channel, no children. */
  function NewNode(kind: Kind, parent: nat): (n: Node)
    ensures n.kind == kind && n.parent == parent
    ensures n.err.None? && n.cause.None? && n.done.Unmade? && n.children.None?
    ensures !n.viaStop && !n.armed && !n.onceFired && n.scheduled == 0
  {
    Node(kind, parent, false, None, None, Unmade, None, false, false, 0)
  }

  /** Contexts that end every walk: the two empty contexts and foreign ones. */
  predicate IsRoot(k: Kind) {
    k.Background? || k.Todo? || k.Foreign?
  }

  /** The kinds that embed a cancelCtx and so implement `canceler`. */
  predicate Cancelish(k: Kind) {
    k.Cancel? || k.Timer? || k.AfterFunc?
  }

  predicate SlotClosed(s: Slot) {
    s == Shared || s == Made(true)
  }

  /** Structural well-formedness of an arena. */
  ghost predicate WF(a: seq<Node>) {
    && (forall i :: 0 <= i < |a| && !IsRoot(a[i].kind) ==> a[i].parent < i)
    && (forall i :: 0 <= i < |a| && a[i].viaStop ==>
          Cancelish(a[i].kind) && a[i].parent < i && a[a[i].parent].kind.Foreign?)
    && (forall i :: 0 <= i < |a| && a[i].kind.Value? ==> a[i].kind.key.Comparable?)
    && (forall i :: 0 <= i < |a| && a[i].kind.Foreign? ==> a[i].done.Made?)
    && (forall i :: 0 <= i < |a| ==> ChildrenIn(a, a[i].children))
    && (forall i :: 0 <= i < |a| ==> ChildrenAbove(i, a[i].children))
  }

  /** A context is only ever registered with one created before it. */
  predicate ChildrenAbove(i: nat, children: Option<set<nat>>) {
    children.Some? ==> forall c :: c in children.value ==> i < c
  }

  /** Every member of a children set is a cancelable node of the arena. */
  ghost predicate ChildrenIn(a: seq<Node>, children: Option<set<nat>>) {
    children.Some? ==> forall c :: c in children.value ==> c < |a| && Cancelish(a[c].kind)
  }

  /** What the lock of a cancelCtx protects: a closed channel is never seen
      without an error, err and cause are set together, and an afterFuncCtx
      starts its function at most once, and only after its once-guard fired.
      A foreign context reports an error exactly when its channel is closed. */
  predicate SoundNode(n: Node) {
    && (SlotClosed(n.done) ==> n.err.Some?)
    && (n.err.Some? <==> n.cause.Some?)
    && n.scheduled <= (if n.onceFired then 1 else 0)
    && (n.kind.Foreign? ==> (SlotClosed(n.done) <==> n.err.Some?))
  }

  ghost predicate Sound(a: seq<Node>) {
    forall i :: 0 <= i < |a| ==> SoundNode(a[i])
  }

  /** The node whose channel `Done` returns: a value node forwards to its
      parent, the empty contexts and withoutCancelCtx return nil. */
  function DoneOwner(a: seq<Node>, i: nat): (r: Option<nat>)
    requires WF(a) && i < |a|
    ensures r.Some? ==> r.value <= i && (Cancelish(a[r.value].kind) || a[r.value].kind.Foreign?)
    decreases i
  {
    match a[i].kind
    case Value(_, _) => DoneOwner(a, a[i].parent)
    case Background => None
    case Todo => None
    case WithoutCancel => None
    case _ => Some(i)
  }

  /** What loading a `done` slot yields. */
  function SlotChan(s: Slot, owner: nat): Chan {
    match s
    case Unmade => NilChan
    case Made(_) => NodeChan(owner)
    case Shared => ClosedChan
  }

  /** The channel `Done` of node `i` returns, once the owner's slot is
      loaded: only ever the owner's own channel or `closedchan`, and nil
      exactly when there is no owner or its slot was never loaded. */
  function ChanOf(a: seq<Node>, i: nat): (r: Chan)
    requires WF(a) && i < |a|
    ensures r.NodeChan? ==> DoneOwner(a, i) == Some(r.owner) && a[r.owner].done.Made?
    ensures r.NilChan? <==> DoneOwner(a, i).None? || a[DoneOwner(a, i).value].done.Unmade?
  {
    match DoneOwner(a, i)
    case None => NilChan
    case Some(o) => SlotChan(a[o].done, o)
  }

  /** A non-blocking receive on `ch` succeeds. */
  predicate IsClosed(a: seq<Node>, ch: Chan) {
    match ch
    case NilChan => false
    case ClosedChan => true
    case NodeChan(o) => o < |a| && a[o].done == Made(true)
  }

  /** The lazy creation in `cancelCtx.Done`: the owner of `i`'s channel gets
      an open channel if it has none yet. */
  function Materialize(a: seq<Node>, i: nat): (m: seq<Node>)
    requires WF(a) && i < |a|
    ensures |m| == |a|
    ensures forall j :: 0 <= j < |a| ==>
      m[j] == a[j] || (a[j].done.Unmade? && m[j] == a[j].(done := Made(false)))
    ensures WF(m)
  {
    match DoneOwner(a, i)
    case None => a
    case Some(o) =>
      if a[o].done.Unmade? then
        var m := a[o := a[o].(done := Made(false))];
        SameShapeKeepsWF(a, m);
        m
      else a
  }

  /** `n` is `o` with at most state changed that no walk looks at: errors,
      channels (a loaded one stays loaded), timers and once-guards, and a
      children set that only loses members. */
  predicate ShapeStep(o: Node, n: Node) {
    && n.kind == o.kind && n.parent == o.parent && n.viaStop == o.viaStop
    && (n.done.Made? || !o.done.Made?)
    && (n.children.Some? ==> o.children.Some? && n.children.value <= o.children.value)
  }

  ghost predicate SameShape(a: seq<Node>, b: seq<Node>) {
    |b| == |a| && forall j :: 0 <= j < |a| ==> ShapeStep(a[j], b[j])
  }

  lemma SameShapeKeepsWF(a: seq<Node>, b: seq<Node>)
    requires WF(a) && SameShape(a, b)
    ensures WF(b)
  {
    forall i | 0 <= i < |b|
      ensures ChildrenIn(b, b[i].children) && ChildrenAbove(i, b[i].children)
    {
      assert ShapeStep(a[i], b[i]) && ChildrenIn(a, a[i].children) && ChildrenAbove(i, a[i].children);
      forall c | b[i].children.Some? && c in b[i].children.value
        ensures c < |b| && Cancelish(b[c].kind)
      {
        assert ShapeStep(a[c], b[c]);
      }
    }
  }

  /** `Err`: a value node forwards to its parent; the empty contexts and
      withoutCancelCtx report nil, so a context whose `Done` has no owner
      never reports an error. */
  function ErrOf(a: seq<Node>, i: nat): (r: Option<Error>)
    requires WF(a) && i < |a|
    ensures r.Some? ==> DoneOwner(a, i).Some?
    decreases i
  {
    match a[i].kind
    case Value(_, _) => ErrOf(a, a[i].parent)
    case Background => None
    case Todo => None
    case WithoutCancel => None
    case _ => a[i].err
  }

  /** `Deadline`: a timerCtx reports its own; value, cancel and afterFunc
      nodes forward to their parent Context; the empty contexts and
      withoutCancelCtx report none. */
  function DeadlineOf(a: seq<Node>, i: nat): (r: Option<int>)
    requires WF(a) && i < |a|
    ensures r.Some? ==> exists j :: 0 <= j <= i && HoldsDeadline(a[j].kind, r.value)
    decreases i
  {
    match a[i].kind
    case Timer(d, _) => Some(d)
    case Foreign(_, d) => d
    case Background => None
    case Todo => None
    case WithoutCancel => None
    case _ => DeadlineOf(a, a[i].parent)
  }

  /** A timerCtx or foreign context whose own deadline is `d`. */
  predicate HoldsDeadline(k: Kind, d: int) {
    (k.Timer? && k.deadline == d) || (k.Foreign? && k.foreignDeadline == Some(d))
  }

  /** The `value` walk (and `Value` of every node kind): the innermost value
      node holding `key` answers; a cancel, timer or afterFunc node answers
      the sentinel key with its own cancelCtx; withoutCancelCtx answers it
      with nil; the empty contexts end the walk with nil.  A foreign context
      is opaque here and answers nil. */
  function Lookup(a: seq<Node>, i: nat, key: Key): (r: Any)
    requires WF(a) && i < |a|
    ensures key == CancelCtxKey && r.CancelCtxRef? ==> r.node <= i && Cancelish(a[r.node].kind)
    decreases i
  {
    var k := a[i].kind;
    if k.Value? then
      if key == k.key then k.val else Lookup(a, a[i].parent, key)
    else if Cancelish(k) then
      if key == CancelCtxKey then CancelCtxRef(i) else Lookup(a, a[i].parent, key)
    else if k.WithoutCancel? then
      if key == CancelCtxKey then Nil else Lookup(a, a[i].parent, key)
    else
      Nil
  }

  /** `Cause`: the cause stored in the cancelCtx the sentinel lookup finds,
      otherwise the context's `Err`; like `Err`, nil for a context whose
      `Done` has no owner. */
  function Cause(a: seq<Node>, i: nat): (r: Option<Error>)
    requires WF(a) && i < |a|
    ensures r.Some? ==> DoneOwner(a, i).Some?
  {
    SentinelFindsDoneOwner(a, i);
    match Lookup(a, i, CancelCtxKey)
    case CancelCtxRef(p) => a[p].cause
    case _ => ErrOf(a, i)
  }

  /** `parentCancelCtx`, evaluated after its call of `parent.Done()`: the
      channel must be neither nil nor `closedchan`, the sentinel lookup must
      yield a cancelCtx, and that cancelCtx's stored channel must be the very
      channel `Done` returned.  What it finds is a canceler at or above `i`
      whose own channel is the one `Done` returned. */
  function CancelAncestor(a: seq<Node>, i: nat): (r: Option<nat>)
    requires WF(a) && i < |a|
    ensures r.Some? ==> r.value <= i && Cancelish(a[r.value].kind) && ChanOf(a, i) == NodeChan(r.value)
  {
    var done := ChanOf(a, i);
    if done == ClosedChan || done == NilChan then None
    else
      match Lookup(a, i, CancelCtxKey)
      case CancelCtxRef(p) => if SlotChan(a[p].done, p) == done then Some(p) else None
      case _ => None
  }

  /** `removeChild(child.Context, child)` as a state change.  Through a stopCtx
      it calls the registration's stop function, which drops the callback the
      foreign parent held for `child`.  Otherwise it loads the parent's `Done`
      and, when a cancelCtx ancestor is found whose children set is not nil,
      deletes `child` from that set alone. */
  function Detach(a: seq<Node>, child: nat): (r: seq<Node>)
    requires WF(a) && child < |a| && Cancelish(a[child].kind)
    ensures |r| == |a| && r[child] == a[child]
  {
    var parent := a[child].parent;
    if a[child].viaStop then
      WithoutChild(a, parent, child)
    else
      var m := Materialize(a, parent);
      match CancelAncestor(m, parent)
      case None => m
      case Some(p) => WithoutChild(m, p, child)
  }

  /** The node whose children set removeChild edits: the foreign parent
      behind a stopCtx, otherwise the cancelCtx parentCancelCtx finds, if any. */
  function DetachFrom(a: seq<Node>, child: nat): (r: nat)
    requires WF(a) && child < |a| && Cancelish(a[child].kind)
    ensures r < |a| ==> r < child && (a[r].kind.Foreign? || Cancelish(a[r].kind))
  {
    var parent := a[child].parent;
    if a[child].viaStop then parent
    else CancelAncestor(Materialize(a, parent), parent).GetOr(|a|)
  }

  /** `delete(children, child)` on the set held by node `p`, if it is not nil. */
  function WithoutChild(a: seq<Node>, p: nat, child: nat): (r: seq<Node>)
    requires p < |a|
    ensures |r| == |a|
  {
    if a[p].children.Some? then a[p := a[p].(children := Some(a[p].children.value - {child}))] else a
  }

  /** The key/value pairs visible from node `i`, innermost first: the
      reference against which `Lookup` is proved. */
  function Bindings(a: seq<Node>, i: nat): seq<(Key, Any)>
    requires WF(a) && i < |a|
    decreases i
  {
    var k := a[i].kind;
    if k.Value? then [(k.key, k.val)] + Bindings(a, a[i].parent)
    else if IsRoot(k) then []
    else Bindings(a, a[i].parent)
  }

  /** The value of the first pair whose key is `key`, or nil. */
  function FirstMatch(bs: seq<(Key, Any)>, key: Key): Any {
    if bs == [] then Nil
    else if bs[0].0 == key then bs[0].1
    else FirstMatch(bs[1..], key)
  }

  /** The nearest node at or above `i` that is not a value node. */
  function Boundary(a: seq<Node>, i: nat): (r: nat)
    requires WF(a) && i < |a|
    ensures r <= i && !a[r].kind.Value?
    decreases i
  {
    if a[i].kind.Value? then Boundary(a, a[i].parent) else i
  }

  // ---------------------------------------------------------------------
  // Lemmas about the walks
  // ---------------------------------------------------------------------

  /** The sentinel lookup and `Done` agree: the sentinel key finds exactly
      the cancelCtx whose channel `Done` returns, and nil when `Done` is
      served by no cancelCtx. */
  lemma {:induction false} SentinelFindsDoneOwner(a: seq<Node>, i: nat)
    requires WF(a) && i < |a|
    ensures Lookup(a, i, CancelCtxKey) ==
      match DoneOwner(a, i)
      case Some(o) => if Cancelish(a[o].kind) then CancelCtxRef(o) else Nil
      case None => Nil
    decreases i
  {
    if a[i].kind.Value? {
      SentinelFindsDoneOwner(a, a[i].parent);
    }
  }

  /** `Err` is the error stored in the node that serves `Done`. */
  lemma {:induction false} ErrIsOwnerErr(a: seq<Node>, i: nat)
    requires WF(a) && i < |a|
    ensures ErrOf(a, i) == match DoneOwner(a, i) case Some(o) => a[o].err case None => None
    decreases i
  {
    if a[i].kind.Value? {
      ErrIsOwnerErr(a, a[i].parent);
    }
  }

  /** `Cause` is the cause stored in the cancelCtx serving `Done`, the error
      of a foreign context serving it, and nil when `Done` is nil. */
  lemma {:induction false} CauseIsOwnerCause(a: seq<Node>, i: nat)
    requires WF(a) && i < |a|
    ensures Cause(a, i) ==
      match DoneOwner(a, i)
      case Some(o) => if Cancelish(a[o].kind) then a[o].cause else a[o].err
      case None => None
  {
    SentinelFindsDoneOwner(a, i);
    ErrIsOwnerErr(a, i);
  }

  /** A context whose `Done` channel is closed reports an error and a cause:
      this is what makes `child.cancel(false, parent.Err(), Cause(parent))`
      in propagateCancel never hit the missing-error panic. */
  lemma {:induction false} ClosedDoneHasErr(a: seq<Node>, i: nat)
    requires WF(a) && Sound(a) && i < |a|
    requires IsClosed(a, ChanOf(a, i))
    ensures ErrOf(a, i).Some? && Cause(a, i).Some?
  {
    ErrIsOwnerErr(a, i);
    CauseIsOwnerCause(a, i);
    var o := DoneOwner(a, i).value;
    assert SoundNode(a[o]);
  }

  /** `Cause` is nil exactly when `Err` is nil. */
  lemma {:induction false} CauseNilIffErrNil(a: seq<Node>, i: nat)
    requires WF(a) && Sound(a) && i < |a|
    ensures Cause(a, i).None? <==> ErrOf(a, i).None?
  {
    ErrIsOwnerErr(a, i);
    CauseIsOwnerCause(a, i);
    if DoneOwner(a, i).Some? {
      assert SoundNode(a[DoneOwner(a, i).value]);
    }
  }

  /** Below a WithoutCancel boundary (only value nodes in between) `Done`
      is nil, `Err` is nil and `Cause` is nil, whatever the state above. */
  lemma {:induction false} WithoutCancelHidesCancellation(a: seq<Node>, i: nat)
    requires WF(a) && i < |a|
    requires a[Boundary(a, i)].kind.WithoutCancel?
    ensures ChanOf(a, i) == NilChan && ErrOf(a, i).None? && Cause(a, i).None?
    decreases i
  {
    if a[i].kind.Value? {
      WithoutCancelHidesCancellation(a, a[i].parent);
    }
  }

  /** `Value` for any key but the private sentinel returns the innermost binding of that key on
      the way to the root, and nil when there is none. */
  lemma {:induction false} LookupIsInnermostBinding(a: seq<Node>, i: nat, key: Key)
    requires WF(a) && i < |a| && key != CancelCtxKey
    ensures Lookup(a, i, key) == FirstMatch(Bindings(a, i), key)
    decreases i
  {
    var k := a[i].kind;
    if !IsRoot(k) {
      LookupIsInnermostBinding(a, a[i].parent, key);
      if k.Value? {
        var bs := Bindings(a, i);
        assert bs[1..] == Bindings(a, a[i].parent);
      }
    }
  }

  /** Once `Done` has been loaded, the identity check of parentCancelCtx
      accepts exactly a cancelCtx that serves `Done` with a channel of its
      own; it refuses nil, `closedchan` and every foreign context. */
  lemma {:induction false} CancelAncestorIsDoneOwner(a: seq<Node>, i: nat)
    requires WF(a) && i < |a|
    ensures CancelAncestor(a, i) ==
      match DoneOwner(a, i)
      case Some(o) => if Cancelish(a[o].kind) && a[o].done.Made? then Some(o) else None
      case None => None
  {
    SentinelFindsDoneOwner(a, i);
  }

  /** Loading `Done` gives every context that can be cancelled a non-nil
      channel, and changes nothing else. */
  lemma {:induction false} MaterializeGivesChannel(a: seq<Node>, i: nat)
    requires WF(a) && Sound(a) && i < |a|
    ensures WF(Materialize(a, i)) && Sound(Materialize(a, i))
    ensures DoneOwner(Materialize(a, i), i) == DoneOwner(a, i)
    ensures ChanOf(Materialize(a, i), i) == NilChan <==> DoneOwner(a, i).None?
  {
    ShapeAgree(a, Materialize(a, i), i);
  }

  /** removeChild touches one children set only: it removes `child` from it
      and keeps every other entry of every set; errors, causes and the tree
      shape do not change. */
  lemma DetachRemovesOnlyChild(a: seq<Node>, child: nat, i: nat, c: nat)
    requires WF(a) && child < |a| && Cancelish(a[child].kind) && i < |a|
    ensures Detach(a, child)[i].kind == a[i].kind && Detach(a, child)[i].parent == a[i].parent
    ensures Detach(a, child)[i].err == a[i].err && Detach(a, child)[i].cause == a[i].cause
    ensures Detach(a, child)[i].children.Some? <==> a[i].children.Some?
    ensures a[i].children.Some? && c != child ==>
      (c in Detach(a, child)[i].children.value <==> c in a[i].children.value)
    ensures a[i].children.Some? && i == DetachFrom(a, child) ==> child !in Detach(a, child)[i].children.value
  {
    var parent := a[child].parent;
    if a[child].viaStop {
      WithoutChildOnly(a, parent, child, i);
    } else {
      var m := Materialize(a, parent);
      assert m[i] == a[i] || m[i] == a[i].(done := Made(false));
      match CancelAncestor(m, parent)
      case None =>
      case Some(p) => WithoutChildOnly(m, p, child, i);
    }
  }

  lemma WithoutChildOnly(a: seq<Node>, p: nat, child: nat, i: nat)
    requires p < |a| && i < |a|
    ensures var r := WithoutChild(a, p, child)[i];
      && r.kind == a[i].kind && r.parent == a[i].parent && r.err == a[i].err && r.cause == a[i].cause
      && (r.children.Some? <==> a[i].children.Some?)
      && (a[i].children.Some? ==> r.children.value == a[i].children.value || r.children.value == a[i].children.value - {child})
  {
  }

  /** Which of the five cases of propagateCancel applies to a parent, read in
      the state after `parent.Done()` has been loaded. */
  datatype Link = NeverCanceled | ParentDone | ToAncestor(p: nat) | ToForeign | ToWatcher

  function LinkCase(m: seq<Node>, parent: nat): (r: Link)
    requires WF(m) && parent < |m|
    ensures r.ToAncestor? ==> r.p <= parent && Cancelish(m[r.p].kind)
  {
    var done := ChanOf(m, parent);
    if done == NilChan then NeverCanceled
    else if IsClosed(m, done) then ParentDone
    else
      match CancelAncestor(m, parent)
      case Some(p) => ToAncestor(p)
      case None => if m[parent].kind.Foreign? && m[parent].kind.afterFuncer then ToForeign else ToWatcher
  }

  /** propagateCancel, classified by the context that serves the parent's
      `Done` (its owner): nil means never canceled; a closed channel means the
      child is canceled at once; an open cancelCtx owner is always found as
      the ancestor to link to; only a foreign owner leads to the AfterFunc
      registration or to the watcher goroutine. */
  lemma LinkCaseByOwner(a: seq<Node>, parent: nat)
    requires WF(a) && Sound(a) && parent < |a|
    ensures var m := Materialize(a, parent);
      match DoneOwner(a, parent)
      case None => LinkCase(m, parent) == NeverCanceled
      case Some(o) =>
        if SlotClosed(m[o].done) then LinkCase(m, parent) == ParentDone
        else if Cancelish(a[o].kind) then LinkCase(m, parent) == ToAncestor(o)
        else LinkCase(m, parent) == (if o == parent && a[o].kind.afterFuncer then ToForeign else ToWatcher)
  {
    var m := Materialize(a, parent);
    MaterializeGivesChannel(a, parent);
    CancelAncestorIsDoneOwner(m, parent);
  }

  /** The walks that read only kinds and parents give the same answers in two
      arenas that agree on the kinds and parents of `i` and its ancestors. */
  lemma {:induction false} ShapeAgree(a: seq<Node>, b: seq<Node>, i: nat)
    requires WF(a) && WF(b) && i < |a| && i < |b|
    requires forall j :: 0 <= j <= i ==> b[j].kind == a[j].kind && b[j].parent == a[j].parent
    ensures DoneOwner(b, i) == DoneOwner(a, i) && DeadlineOf(b, i) == DeadlineOf(a, i)
    ensures Bindings(b, i) == Bindings(a, i) && Boundary(b, i) == Boundary(a, i)
    ensures forall key :: Lookup(b, i, key) == Lookup(a, i, key)
    decreases i
  {
    if !IsRoot(a[i].kind) {
      ShapeAgree(a, b, a[i].parent);
    }
  }

  /** All walks, `Err` and `Cause` included, give the same answers in two
      arenas that agree on `i` and every node below it. */
  lemma {:induction false} PrefixAgree(a: seq<Node>, b: seq<Node>, i: nat)
    requires WF(a) && WF(b) && i < |a| && i < |b|
    requires forall j :: 0 <= j <= i ==> b[j] == a[j]
    ensures ErrOf(b, i) == ErrOf(a, i) && Cause(b, i) == Cause(a, i) && ChanOf(b, i) == ChanOf(a, i)
    ensures DoneOwner(b, i) == DoneOwner(a, i) && DeadlineOf(b, i) == DeadlineOf(a, i)
    ensures Bindings(b, i) == Bindings(a, i)
    ensures forall key :: Lookup(b, i, key) == Lookup(a, i, key)
    decreases i
  {
    ShapeAgree(a, b, i);
    if a[i].kind.Value? {
      PrefixAgree(a, b, a[i].parent);
    }
  }

  /** The contexts a cancel of `n` reaches: `n` itself and, through the
      children sets, every canceler registered below it. */
  ghost function Subtree(a: seq<Node>, n: nat): set<nat>
    requires WF(a) && n < |a|
    decreases |a| - n
  {
    assert ChildrenIn(a, a[n].children) && ChildrenAbove(n, a[n].children);
    {n} + if a[n].children.None? then {} else
      set c, j | c in a[n].children.value && j in Subtree(a, c) :: j
  }

  /** A subtree holds its root and contexts created after it. */
  lemma {:induction false} SubtreeAbove(a: seq<Node>, n: nat)
    requires WF(a) && n < |a|
    ensures n in Subtree(a, n)
    ensures forall j :: j in Subtree(a, n) ==> n <= j < |a|
    decreases |a| - n
  {
    assert ChildrenIn(a, a[n].children) && ChildrenAbove(n, a[n].children);
    if a[n].children.Some? {
      forall c | c in a[n].children.value
        ensures forall j :: j in Subtree(a, c) ==> n <= j < |a|
      {
        SubtreeAbove(a, c);
      }
    }
  }

  /** The subtree of a child lies inside the subtree of its parent. */
  lemma SubtreeOfChild(a: seq<Node>, n: nat, k: nat)
    requires WF(a) && n < |a| && a[n].children.Some? && k in a[n].children.value
    ensures k < |a| && Subtree(a, k) <= Subtree(a, n)
  {
    assert ChildrenIn(a, a[n].children);
  }

  /** Children sets only shrink along SameShape, so subtrees do too. */
  lemma {:induction false} SubtreeShrinks(o: seq<Node>, a: seq<Node>, n: nat)
    requires WF(o) && WF(a) && SameShape(o, a) && n < |o|
    ensures Subtree(a, n) <= Subtree(o, n)
    decreases |o| - n
  {
    assert ShapeStep(o[n], a[n]);
    assert ChildrenIn(a, a[n].children) && ChildrenAbove(n, a[n].children);
    if a[n].children.Some? {
      forall c | c in a[n].children.value
        ensures Subtree(a, c) <= Subtree(o, n)
      {
        SubtreeShrinks(o, a, c);
        SubtreeOfChild(o, n, c);
      }
    }
  }

  /** `removeChild` reads only contexts created before the child: two arenas
      that agree below the child and on the child's links detach it alike. */
  lemma DetachLocal(a: seq<Node>, b: seq<Node>, child: nat)
    requires WF(a) && WF(b) && child < |a| == |b| && Cancelish(a[child].kind)
    requires forall j :: 0 <= j < child ==> b[j] == a[j]
    requires b[child].kind == a[child].kind && b[child].parent == a[child].parent
    requires b[child].viaStop == a[child].viaStop
    ensures forall j :: 0 <= j < child ==> Detach(b, child)[j] == Detach(a, child)[j]
    ensures DetachFrom(b, child) == DetachFrom(a, child)
  {
    var parent := a[child].parent;
    if a[child].viaStop {
      assert b[parent] == a[parent];
    } else {
      AncestorLocal(a, b, parent, child);
    }
  }

  /** The cancelCtx `parentCancelCtx` finds from `i`, and the arena after it
      made the channel it loads, depend only on the contexts up to `i`. */
  lemma AncestorLocal(a: seq<Node>, b: seq<Node>, i: nat, n: nat)
    requires WF(a) && WF(b) && i < n <= |a| == |b|
    requires forall j :: 0 <= j < n ==> b[j] == a[j]
    ensures forall j :: 0 <= j < n ==> Materialize(b, i)[j] == Materialize(a, i)[j]
    ensures CancelAncestor(Materialize(b, i), i) == CancelAncestor(Materialize(a, i), i)
    ensures CancelAncestor(Materialize(a, i), i).Some? ==> CancelAncestor(Materialize(a, i), i).value <= i
  {
    MaterializeLocal(a, b, i, n);
    PrefixAgree(Materialize(a, i), Materialize(b, i), i);
  }

  /** `removeChild` leaves the child and everything created after it alone. */
  lemma DetachAbove(a: seq<Node>, child: nat)
    requires WF(a) && child < |a| && Cancelish(a[child].kind)
    ensures forall j :: child <= j < |a| ==> Detach(a, child)[j] == a[j]
  {
    var parent := a[child].parent;
    if !a[child].viaStop {
      MaterializeLocal(a, a, parent, child);
      var m := Materialize(a, parent);
      match CancelAncestor(m, parent)
      case None =>
      case Some(p) =>
        assert p <= parent;
    }
  }

  /** Making the channel of `i` touches `i` or a context before it. */
  lemma MaterializeLocal(a: seq<Node>, b: seq<Node>, i: nat, n: nat)
    requires WF(a) && WF(b) && i < n <= |a| == |b|
    requires forall j :: 0 <= j < n ==> b[j] == a[j]
    ensures forall j :: 0 <= j < n ==> Materialize(b, i)[j] == Materialize(a, i)[j]
    ensures forall j :: i < j < |a| ==> Materialize(a, i)[j] == a[j]
  {
    ShapeAgree(a, b, i);
    var ma, mb := Materialize(a, i), Materialize(b, i);
    match DoneOwner(a, i)
    case None =>
      assert ma == a && mb == b;
    case Some(o) =>
      assert o <= i && b[o] == a[o];
      assert ma == if a[o].done.Unmade? then a[o := a[o].(done := Made(false))] else a;
      assert mb == if a[o].done.Unmade? then b[o := b[o].(done := Made(false))] else b;
  }
}
