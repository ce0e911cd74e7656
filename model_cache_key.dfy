/** The schema-aware model cache key (DbSchemaAwareModelCacheKeyFactory.cs):
    the compiled model of a context type is cached per schema and per
    design-time flag. */
module ModelCacheKeys {
  import opened Wrappers
  import TenantContext
  import opened TenantProviders
  import opened TenantProviderInterface

  /** The runtime type of the context (`context.GetType()`), as an opaque tag. */
  datatype ContextType = ContextType(fullName: string)

  /** The key tuple (context type, schema, design time); tuples are equal
      exactly when their components are. */
  datatype ModelCacheKey = ModelCacheKey(contextType: ContextType, dbSchemaName: string, designTime: bool)

  /** The factory keeps only the provider; it holds no cache of its own. */
  datatype DbSchemaAwareModelCacheKeyFactory = DbSchemaAwareModelCacheKeyFactory(tenantProvider: AnyTenantProvider)
  {
    /** The key for `context` in the chain `ctx`: the schema is read from the
        provider at the time of the call. */
    function Create(ctx: TenantContext.ExecutionContext, context: ContextType, designTime: bool): ModelCacheKey
      reads ctx, ctx.slot
    {
      ModelCacheKey(context, tenantProvider.DbSchemaName(ctx), designTime)
    }
  }

  /** Two keys are equal exactly when the context types, the schemas resolved
      at the two calls and the design-time flags are. */
  lemma KeyEquality(f: DbSchemaAwareModelCacheKeyFactory,
                    ctx1: TenantContext.ExecutionContext, c1: ContextType, d1: bool,
                    ctx2: TenantContext.ExecutionContext, c2: ContextType, d2: bool)
    ensures f.Create(ctx1, c1, d1) == f.Create(ctx2, c2, d2) <==>
      c1 == c2 && d1 == d2 && f.tenantProvider.DbSchemaName(ctx1) == f.tenantProvider.DbSchemaName(ctx2)
  {
  }

  /** Under the runtime provider, two chains in different tenants get
      different keys for the same context type and flag, so one tenant's
      model is never served to the other. */
  lemma TenantsGetDistinctKeys(p: TenantProvider,
                               ctx1: TenantContext.ExecutionContext, ctx2: TenantContext.ExecutionContext,
                               context: ContextType, designTime: bool)
    requires TenantContext.CurrentTenant(ctx1).Some? && TenantContext.CurrentTenant(ctx2).Some?
    requires TenantContext.CurrentTenant(ctx1) != TenantContext.CurrentTenant(ctx2)
    ensures DbSchemaAwareModelCacheKeyFactory(Runtime(p)).Create(ctx1, context, designTime)
         != DbSchemaAwareModelCacheKeyFactory(Runtime(p)).Create(ctx2, context, designTime)
  {
  }

  /** The model built at design time is never the one served at run time. */
  lemma DesignTimeFlagSeparatesKeys(f: DbSchemaAwareModelCacheKeyFactory,
                                    ctx: TenantContext.ExecutionContext, context: ContextType)
    ensures f.Create(ctx, context, true) != f.Create(ctx, context, false)
  {
  }

  /** The key is keyed by schema, not by tenant: a tenant named "dbo" shares
      its key, and so its compiled model, with the chain that has no tenant
      and with the design-time provider. */
  lemma DboTenantSharesDefaultKey(p: TenantProvider, d: MigrationsTenantProviders.MigrationsTenantProvider,
                                  ctx1: TenantContext.ExecutionContext, ctx2: TenantContext.ExecutionContext,
                                  context: ContextType, designTime: bool)
    requires TenantContext.CurrentTenant(ctx1) == Some("dbo")
    requires TenantContext.CurrentTenant(ctx2) == None
    ensures DbSchemaAwareModelCacheKeyFactory(Runtime(p)).Create(ctx1, context, designTime)
         == DbSchemaAwareModelCacheKeyFactory(Runtime(p)).Create(ctx2, context, designTime)
         == DbSchemaAwareModelCacheKeyFactory(DesignTime(d)).Create(ctx1, context, designTime)
  {
  }

  /** One factory, one chain, two scopes in turn: each key carries the schema
      of the scope it was created in, because the schema is read again at
      every call. */
  method SchemaIsReadOnEveryCall(x: string, y: string, context: ContextType, designTime: bool)
    returns (first: ModelCacheKey, second: ModelCacheKey)
    ensures first == ModelCacheKey(context, x, designTime)
    ensures second == ModelCacheKey(context, y, designTime)
  {
    var ctx := new TenantContext.ExecutionContext();
    var provider := TenantProvider("", map[]);
    var factory := DbSchemaAwareModelCacheKeyFactory(Runtime(provider));
    var hx := provider.BeginScope(ctx, x);
    first := factory.Create(ctx, context, designTime);
    hx.Dispose(ctx);
    var hy := provider.BeginScope(ctx, y);
    second := factory.Create(ctx, context, designTime);
  }
}
