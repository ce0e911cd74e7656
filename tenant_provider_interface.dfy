/** The provider interface (ITenantProvider.cs). The program has exactly two
    implementations, so the interface is the closed choice between them and
    each member dispatches to the implementation's own member. */
module TenantProviderInterface {
  import opened Wrappers
  import TenantContext
  import opened TenantProviders
  import opened MigrationsTenantProviders

  datatype AnyTenantProvider =
    | Runtime(runtime: TenantProvider)
    | DesignTime(designTime: MigrationsTenantProvider)
  {
    function CurrentTenant(ctx: TenantContext.ExecutionContext): Option<string>
      reads ctx, ctx.slot
    {
      match this
      case Runtime(p) => p.CurrentTenant(ctx)
      case DesignTime(p) => p.CurrentTenant()
    }

    function DbSchemaName(ctx: TenantContext.ExecutionContext): string
      reads ctx, ctx.slot
    {
      match this
      case Runtime(p) => p.DbSchemaName(ctx)
      case DesignTime(p) => p.DbSchemaName()
    }

    function ConnectionString(ctx: TenantContext.ExecutionContext): string
      reads ctx, ctx.slot
    {
      match this
      case Runtime(p) => p.ConnectionString(ctx)
      case DesignTime(p) => p.ConnectionString()
    }

    /** The runtime provider enters the scope; the design-time one fails and
        leaves the chain's slot as it was. */
    method BeginScope(ctx: TenantContext.ExecutionContext, tenant: string)
      returns (r: Result<TenantContext.ContextDisposable, NotImplemented>)
      modifies ctx
      ensures DesignTime? ==> r.Failure? && ctx.slot == old(ctx.slot)
      ensures Runtime? ==> r.Success? && fresh(r.value) && !r.value.disposed
      ensures Runtime? ==> ctx.slot != null && fresh(ctx.slot) && CurrentTenant(ctx) == Some(tenant)
    {
      match this
      case Runtime(p) =>
        var handle := p.BeginScope(ctx, tenant);
        r := Success(handle);
      case DesignTime(p) =>
        var outcome := p.BeginScope(tenant);
        r := Failure(outcome.error);
    }
  }

  /** Both implementations resolve the schema the same way from their current
      tenant: the tenant itself, or "dbo" when there is none. */
  lemma SchemaFollowsCurrentTenant(p: AnyTenantProvider, ctx: TenantContext.ExecutionContext)
    ensures p.DbSchemaName(ctx) == SchemaNameFor(p.CurrentTenant(ctx))
    ensures p.CurrentTenant(ctx).None? ==> p.DbSchemaName(ctx) == DefaultSchemaName
  {
  }

  /** The design-time provider ignores the ambient context entirely. */
  lemma DesignTimeIgnoresContext(p: MigrationsTenantProvider, ctx1: TenantContext.ExecutionContext, ctx2: TenantContext.ExecutionContext)
    ensures DesignTime(p).DbSchemaName(ctx1) == DesignTime(p).DbSchemaName(ctx2) == "dbo"
    ensures DesignTime(p).ConnectionString(ctx1) == DesignTime(p).ConnectionString(ctx2) == DesignTimeConnectionString
    ensures DesignTime(p).CurrentTenant(ctx1) == None
  {
  }
}
