/** The scope guard that sets a thread's debug information for the lifetime of
    a scope and puts back what was there before when the scope ends. */
module DebugInfoGuard {
  import opened ThreadLocalDebugInfo

  /** Where a guard is in its life: built but not yet in effect, in effect,
      or already restored. Restored is terminal. */
  datatype Phase = Inactive | Active | Restored

  /** A guard bound to one thread's context. It cannot be copied or moved, so
      its restoration runs once, from the one object. `active` starts false,
      but both constructors always complete and set it, so a constructed
      guard is never `Inactive`: that phase exists only inside a constructor,
      and the inactive branch of `Destroy` is unreachable for clients. */
  class Guard<P> {
    const ctx: DebugContext<P>
    var active: bool
    var prevInfo: Frame<P>
    ghost var restored: bool

    ghost function State(): Phase
      reads this
    {
      if restored then Restored else if active then Active else Inactive
    }

    /** `DebugInfoGuard(kind, info)`: saves the current top and pushes one frame. */
    constructor WithInfo(ctx: DebugContext<P>, kind: Kind, info: P)
      modifies ctx
      ensures this.ctx == ctx && State() == Active
      ensures prevInfo == old(ctx.top)
      ensures ctx.top == PushFrame(old(ctx.top), kind, info)
    {
      this.ctx := ctx;
      active := false;
      prevInfo := Empty;
      restored := false;
      new;
      prevInfo := ctx.Current();
      ctx.Push(kind, info);
      active := true;
    }

    /** `DebugInfoGuard(info)`: saves the current top and installs a whole snapshot. */
    constructor WithSnapshot(ctx: DebugContext<P>, info: Frame<P>)
      modifies ctx
      ensures this.ctx == ctx && State() == Active
      ensures prevInfo == old(ctx.top)
      ensures ctx.top == info
    {
      this.ctx := ctx;
      active := false;
      prevInfo := Empty;
      restored := false;
      new;
      prevInfo := ctx.Current();
      ctx.ForceCurrentDebugInfo(info);
      active := true;
    }

    /** `~DebugInfoGuard()`: an active guard reinstates the saved top, verbatim;
        an inactive one changes nothing. It runs once per guard. */
    method Destroy()
      requires State() != Restored
      modifies this, ctx
      ensures State() == Restored
      ensures active == old(active) && prevInfo == old(prevInfo)
      ensures ctx.top == if old(active) then old(prevInfo) else old(ctx.top)
    {
      if active {
        ctx.ForceCurrentDebugInfo(prevInfo);
      }
      restored := true;
    }
  }

  /** A payload guard is visible to `get` while active; its destruction gives
      every kind back the lookup it had before the guard. */
  method GuardedLookup<P>(ctx: DebugContext<P>, kind: Kind, info: P) returns (inside: Option<P>)
    modifies ctx
    ensures inside == Some(info)
    ensures ctx.top == old(ctx.top)
    ensures forall k :: ctx.Get(k) == old(ctx.Get(k))
  {
    var g := new Guard.WithInfo(ctx, kind, info);
    inside := ctx.Get(kind);
    g.Destroy();
  }

  /** Nested guards of the same kind: the inner one overrides the outer while
      both are active, and the outer value is back once the inner one is gone. */
  method NestedOverride<P>(ctx: DebugContext<P>, kind: Kind, p1: P, p2: P)
    returns (bothActive: Option<P>, outerOnly: Option<P>)
    modifies ctx
    ensures bothActive == Some(p2) && outerOnly == Some(p1)
    ensures ctx.top == old(ctx.top)
  {
    var outer := new Guard.WithInfo(ctx, kind, p1);
    var inner := new Guard.WithInfo(ctx, kind, p2);
    bothActive := ctx.Get(kind);
    inner.Destroy();
    outerOnly := ctx.Get(kind);
    outer.Destroy();
  }

  /** Guards built for `items` in order and destroyed in reverse order: inside
      the innermost scope the thread sees `PushAll(old top, items)`, and
      afterwards its top is exactly what it was before the outermost guard. */
  method NestedScopes<P>(ctx: DebugContext<P>, items: seq<Entry<P>>) returns (ghost innermost: Frame<P>)
    modifies ctx
    ensures innermost == PushAll(old(ctx.top), items)
    ensures ctx.top == old(ctx.top)
    decreases |items|
  {
    if items == [] {
      innermost := ctx.top;
    } else {
      var outer := new Guard.WithInfo(ctx, items[0].kind, items[0].payload);
      innermost := NestedScopes(ctx, items[1..]);
      outer.Destroy();
      PushAllFirst(old(ctx.top), items);
    }
  }

  /** Pushing a sequence is pushing its first item and then the rest. */
  lemma {:induction false} PushAllFirst<P>(f: Frame<P>, items: seq<Entry<P>>)
    requires items != []
    ensures PushAll(PushFrame(f, items[0].kind, items[0].payload), items[1..]) == PushAll(f, items)
    decreases |items|
  {
    var n := |items|;
    if n > 1 {
      var init := items[..n - 1];
      assert init[0] == items[0] && init[1..] == items[1..][..n - 2];
      PushAllFirst(f, init);
    }
  }

  /** A snapshot guard makes the thread see exactly the captured stack: after
      further pushes, installing a snapshot taken earlier gives back every
      lookup as it was at capture time. Destruction reinstates the pushes. */
  method SnapshotRestore<P>(ctx: DebugContext<P>, kind: Kind, info: P) returns (seen: Frame<P>)
    modifies ctx
    ensures seen == old(ctx.top)
    ensures ctx.top == PushFrame(old(ctx.top), kind, info)
  {
    var snapshot := ctx.Current();
    ctx.Push(kind, info);
    var g := new Guard.WithSnapshot(ctx, snapshot);
    seen := ctx.Current();
    g.Destroy();
  }

  /** Handing a snapshot to another thread: thread `b` installs the stack
      captured in thread `a`, sees `a`'s payload, overrides it locally, and
      none of this is visible in `a`. Both threads end as they started. */
  method CrossThreadHandoff<P>(a: DebugContext<P>, b: DebugContext<P>, x: P, y: P)
    returns (inheritedInB: Option<P>, overriddenInB: Option<P>, stillInA: Option<P>)
    requires a != b
    modifies a, b
    ensures inheritedInB == Some(x) && overriddenInB == Some(y) && stillInA == Some(x)
    ensures a.top == old(a.top) && b.top == old(b.top)
  {
    var ga := new Guard.WithInfo(a, ProducerInfo, x);
    var snapshot := a.Current();
    var gb := new Guard.WithSnapshot(b, snapshot);
    inheritedInB := b.Get(ProducerInfo);
    var gb2 := new Guard.WithInfo(b, ProducerInfo, y);
    overriddenInB := b.Get(ProducerInfo);
    stillInA := a.Get(ProducerInfo);
    gb2.Destroy();
    gb.Destroy();
    ga.Destroy();
  }
}
