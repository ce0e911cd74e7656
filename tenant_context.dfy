/** The ambient tenant context (TenantContext.cs).

    The source keeps a process-wide async-local slot whose value flows with each
    logical call chain. The model makes the chain explicit: an `ExecutionContext`
    object owns the slot, and forking a chain copies the slot's reference into a
    new context. The slot refers to a mutable `TenantContextHolder`, so clearing
    a holder is observed by every context that shares that holder. */
module TenantContext {
  import opened Wrappers

  /** The mutable cell the slot refers to; `EndScope` clears it in place. */
  class TenantContextHolder {
    var tenant: Option<string>

    constructor (tenant: string)
      ensures this.tenant == Some(tenant)
    {
      this.tenant := Some(tenant);
    }
  }

  /** The async-local slot of one logical call chain. */
  class ExecutionContext {
    var slot: TenantContextHolder?

    /** A chain that has never entered a scope: no holder is installed. */
    constructor ()
      ensures slot == null
    {
      slot := null;
    }

    /** The continuation or child chain of this one: it starts with the same
        holder reference, aliasing the holder itself. */
    method Fork() returns (child: ExecutionContext)
      ensures fresh(child)
      ensures child.slot == slot
    {
      child := new ExecutionContext();
      child.slot := slot;
    }
  }

  /** The tenant the chain `ctx` currently sees: none without a holder,
      otherwise whatever the shared holder holds. */
  function CurrentTenant(ctx: ExecutionContext): Option<string>
    reads ctx, ctx.slot
  {
    if ctx.slot == null then None else ctx.slot.tenant
  }

  /** The handle `BeginScope` returns. It remembers only whether it has been
      disposed; it keeps no reference to the holder its scope installed. */
  class ContextDisposable {
    var disposed: bool

    constructor ()
      ensures !disposed
    {
      disposed := false;
    }

    /** Ends the scope at most once, in the chain `ctx` the disposal runs in:
        the first call clears the holder that is current THEN; later calls
        change nothing. */
    method Dispose(ctx: ExecutionContext)
      modifies this, ctx.slot
      ensures disposed
      ensures ctx.slot == old(ctx.slot)
      ensures !old(disposed) ==> CurrentTenant(ctx) == None
      ensures old(disposed) && ctx.slot != null ==> ctx.slot.tenant == old(ctx.slot.tenant)
    {
      if !disposed {
        EndScope(ctx);
        disposed := true;
      }
    }
  }

  /** Installs a newly allocated holder for `tenant` in the slot of `ctx`.
      No existing holder is written, so every other context, including one
      forked from `ctx` earlier, keeps seeing what it saw. */
  method BeginScope(ctx: ExecutionContext, tenant: string) returns (handle: ContextDisposable)
    modifies ctx
    ensures ctx.slot != null && fresh(ctx.slot)
    ensures CurrentTenant(ctx) == Some(tenant)
    ensures fresh(handle) && !handle.disposed
  {
    ctx.slot := new TenantContextHolder(tenant);
    handle := new ContextDisposable();
  }

  /** Clears the tenant of the holder the slot of `ctx` refers to, if any; the
      slot keeps referring to that (now empty) holder. */
  method EndScope(ctx: ExecutionContext)
    modifies ctx.slot
    ensures ctx.slot == old(ctx.slot)
    ensures ctx.slot != null ==> ctx.slot.tenant == None
    ensures CurrentTenant(ctx) == None
  {
    var holder := ctx.slot;
    if holder != null {
      holder.tenant := None;
    }
  }

  // Properties of whole call chains, each stated over contexts the method
  // allocates itself, so that nothing outside it changes.

  /** A chain that has entered no scope sees no tenant. */
  method FreshChainHasNoTenant() returns (seen: Option<string>)
    ensures seen == None
  {
    var ctx := new ExecutionContext();
    seen := CurrentTenant(ctx);
  }

  /** Two chains forked from one root that each begin their own scope see
      only their own tenant. */
  method ChainsAreIsolated(x: string, y: string) returns (seenByA: Option<string>, seenByB: Option<string>)
    ensures seenByA == Some(x)
    ensures seenByB == Some(y)
  {
    var root := new ExecutionContext();
    var a := root.Fork();
    var b := root.Fork();
    var ha := BeginScope(a, x);
    var hb := BeginScope(b, y);
    seenByA := CurrentTenant(a);
    seenByB := CurrentTenant(b);
  }

  /** A child chain that begins and ends its own scope leaves the parent's
      tenant as it was. */
  method ChildScopeIsNotRetroactive(x: string, y: string) returns (parentSees: Option<string>, childSees: Option<string>)
    ensures parentSees == Some(x)
    ensures childSees == None
  {
    var parent := new ExecutionContext();
    var hx := BeginScope(parent, x);
    var child := parent.Fork();
    var hy := BeginScope(child, y);
    hy.Dispose(child);
    parentSees := CurrentTenant(parent);
    childSees := CurrentTenant(child);
  }

  /** Ending a scope clears the shared holder, so a chain forked inside the
      scope sees no tenant either. */
  method EndingIsSharedWithForks(x: string) returns (parentSees: Option<string>, forkSees: Option<string>)
    ensures parentSees == None
    ensures forkSees == None
  {
    var parent := new ExecutionContext();
    var h := BeginScope(parent, x);
    var fork := parent.Fork();
    h.Dispose(parent);
    parentSees := CurrentTenant(parent);
    forkSees := CurrentTenant(fork);
  }

  /** A handle disposed a second time does not clear a scope begun after its
      first disposal. */
  method SecondDisposeIsNoOp(x: string, y: string) returns (seen: Option<string>)
    ensures seen == Some(y)
  {
    var ctx := new ExecutionContext();
    var h1 := BeginScope(ctx, x);
    h1.Dispose(ctx);
    var h2 := BeginScope(ctx, y);
    h1.Dispose(ctx);
    seen := CurrentTenant(ctx);
  }

  /** Disposing an outer handle while an inner scope is current clears the
      inner scope's holder, not the outer one: a chain forked inside the outer
      scope still sees the outer tenant afterwards. */
  method DisposeClearsCurrentHolder(x: string, y: string) returns (seen: Option<string>, outerForkSees: Option<string>)
    ensures seen == None
    ensures outerForkSees == Some(x)
  {
    var ctx := new ExecutionContext();
    var outer := BeginScope(ctx, x);
    var fork := ctx.Fork();
    var inner := BeginScope(ctx, y);
    outer.Dispose(ctx);
    seen := CurrentTenant(ctx);
    outerForkSees := CurrentTenant(fork);
  }
}
