# Tenant routing for a multi-tenant EF Core sample, modelled in Dafny

This project models the tenant-routing layer of EFCoreMultitenantSample. One
process serves many tenants, and each tenant gets its own database schema and,
optionally, its own connection string. The layer has four parts:

- **The ambient tenant context** (`TenantContext`, tenant_context.dfy). Each
  logical call chain has a slot. The slot refers to a mutable holder of the
  current tenant. `BeginScope` installs a new holder. `EndScope` clears the
  holder that is current, in place. The handle returned by `BeginScope` ends
  the scope at most once. The source keeps the slot in `AsyncLocal` storage.
  Here each chain is an explicit `ExecutionContext` object, and forking a
  chain copies its slot reference. So several contexts can share one holder,
  and clearing that holder is seen by all of them. That sharing is what the
  comment in `BeginScope` describes.
- **The runtime provider** (`TenantProviders`, tenant_provider.dfy). Built
  from the configuration records in tenant_configuration.dfy, it resolves
  two things:
  - the schema: the current tenant, or `"dbo"` when there is none;
  - the connection string: the tenant's override when the per-tenant map has
    one, otherwise the default.

  The constructor builds the map with `Where` and then `ToDictionary`, and it
  throws on a duplicate key. Here that is `NewTenantProvider`, which returns
  a `Result`. Every getter takes the chain `ctx` it runs in.
- **The design-time provider** (`MigrationsTenantProviders`) and the provider
  interface (`TenantProviderInterface`). The program has exactly two
  implementations of `ITenantProvider`. The interface is therefore the closed
  choice `AnyTenantProvider = Runtime(..) | DesignTime(..)`, and each member
  dispatches to the chosen implementation.
- **The model cache key** (`ModelCacheKeys`). The key is `(context type,
  DbSchemaName, designTime)`. The schema is read from the provider at every
  call.
- **The migration schema rewriter** (`MigrationsSqlGenerator`).
  - Operations are objects of one class, `MigrationOperation`. Each has a
    fixed `kind`, a fixed list of foreign keys, and mutable `name`, `table`,
    `newName`, `schema`, `principalSchema` and `newSchema` fields.
  - `ChangeSchema` switches on the kind. It overwrites the schema fields of
    the operation in place with `DbSchemaName`. For a create-table it also
    rewrites each nested foreign key. It fails on any other kind.
  - `Generate` runs the rewrite, then hands the operation to the SQL Server
    generator. That generator is modelled by the `generated` list it is
    handed.
  - `RewriteFields` is a pure function that says what the rewrite does to one
    operation's fields. The methods are proved against it.

An exception in the source is a `Failure`/`Fail` value in the model. A C#
`null` is `None`.

A scope handle does not bind to the holder its own scope created: `Dispose`
calls `EndScope`, which clears whichever holder is current when `Dispose`
runs. `DisposeClearsCurrentHolder` shows the consequence. Dispose an outer
handle while an inner scope is current, and the inner tenant is cleared. The
outer holder keeps its tenant, and any chain forked inside the outer scope
still sees it.

## Model

| member | source | states |
|---|---|---|
| TenantContext.TenantContextHolder.constructor | src/EFCoreMultitenantSample.Infrastructure/TenantSupport/TenantContext.cs:45-48 | a new holder holds the tenant it was created with |
| TenantContext.ExecutionContext.constructor | src/EFCoreMultitenantSample.Infrastructure/TenantSupport/TenantContext.cs:19 | a chain that never entered a scope has no holder in its slot |
| TenantContext.ExecutionContext.Fork | src/EFCoreMultitenantSample.Infrastructure/TenantSupport/TenantContext.cs:19 | a forked chain starts with the same holder reference as its parent (async-local copy-on-fork) |
| TenantContext.BeginScope | src/EFCoreMultitenantSample.Infrastructure/TenantSupport/TenantContext.cs:26-33 | the slot now refers to a freshly allocated holder and the current tenant is the given one; only the slot of this chain is written, so no earlier holder changes; the returned handle is new and not disposed |
| TenantContext.EndScope | src/EFCoreMultitenantSample.Infrastructure/TenantSupport/TenantContext.cs:35-43 | the slot keeps its holder; that holder, if any, now holds null, so the current tenant is null; with no holder nothing changes |
| TenantContext.ContextDisposable.constructor | src/EFCoreMultitenantSample.Infrastructure/TenantSupport/TenantContext.cs:5-8 | a new handle is not disposed |
| TenantContext.ContextDisposable.Dispose | src/EFCoreMultitenantSample.Infrastructure/TenantSupport/TenantContext.cs:9-16 | the handle is disposed afterwards; the first call clears the holder current at that time; a later call leaves the holder's tenant as it was |
| TenantContext.FreshChainHasNoTenant | src/EFCoreMultitenantSample.Infrastructure/TenantSupport/TenantContext.cs:19-24 | with no holder installed the current tenant is null |
| TenantContext.ChainsAreIsolated | src/EFCoreMultitenantSample.Infrastructure/TenantSupport/TenantContext.cs:26-30 | two chains forked from one root that each begin a scope see x and y respectively |
| TenantContext.ChildScopeIsNotRetroactive | src/EFCoreMultitenantSample.Infrastructure/TenantSupport/TenantContext.cs:28-30 | a child that begins and ends its own scope sees null afterwards, while its parent still sees its own tenant |
| TenantContext.EndingIsSharedWithForks | src/EFCoreMultitenantSample.Infrastructure/TenantSupport/TenantContext.cs:28-29 | ending a scope clears it for the parent and for a chain forked inside that scope, which shares the holder |
| TenantContext.SecondDisposeIsNoOp | src/EFCoreMultitenantSample.Infrastructure/TenantSupport/TenantContext.cs:9-16 | disposing a handle again after a new scope began leaves the new scope's tenant in place |
| TenantContext.DisposeClearsCurrentHolder | src/EFCoreMultitenantSample.Infrastructure/TenantSupport/TenantContext.cs:32-43 | disposing the outer handle inside an inner scope clears the inner tenant; a chain forked in the outer scope still sees the outer tenant |
| TenantProviders.TenantProvider.BeginScope | src/EFCoreMultitenantSample.Infrastructure/TenantSupport/TenantProvider.cs:37-40 | delegates to the context: the current tenant and the schema name are now the given tenant |
| TenantProviders.SchemaNameResolution | src/EFCoreMultitenantSample.Infrastructure/TenantSupport/TenantProvider.cs:7-13 | the schema is "dbo" without a tenant and the tenant's own name with one |
| TenantProviders.ToDictionarySucceedsIffDistinct | src/EFCoreMultitenantSample.Infrastructure/TenantSupport/TenantProvider.cs:34 | building the dictionary succeeds exactly when no key occurs twice; a failure names a key that occurs twice |
| TenantProviders.ToDictionaryContents | src/EFCoreMultitenantSample.Infrastructure/TenantSupport/TenantProvider.cs:34 | a built dictionary has exactly the keys of the pairs, each mapped to the value paired with it |
| TenantProviders.OverridePairsMembership | src/EFCoreMultitenantSample.Infrastructure/TenantSupport/TenantProvider.cs:32-34 | the pairs handed to ToDictionary are exactly (name, override) for the configured tenants whose override is not null or white space |
| TenantProviders.DistinctOverrideKeys | src/EFCoreMultitenantSample.Infrastructure/TenantSupport/TenantProvider.cs:32-34 | those keys are distinct exactly when no two tenants with a non-blank override share a name |
| TenantProviders.ConstructionFailsIffDuplicateOverride | src/EFCoreMultitenantSample.Infrastructure/TenantSupport/TenantProvider.cs:28-35 | the constructor throws exactly when two tenants with non-blank overrides share a name; duplicates where at most one has an override do not make it throw |
| TenantProviders.ConstructedMap | src/EFCoreMultitenantSample.Infrastructure/TenantSupport/TenantProvider.cs:28-35 | a constructed provider keeps the configured default, and its map's keys are exactly the names of tenants with a non-blank override, each mapped to its own override |
| TenantProviders.ConnectionStringResolution | src/EFCoreMultitenantSample.Infrastructure/TenantSupport/TenantProvider.cs:15-26 | with no tenant the default is returned; a tenant with a non-blank override gets that override; a tenant with none, registered or not, gets the default |
| TenantProviders.UnregisteredTenantKeepsOwnSchema | src/EFCoreMultitenantSample.Infrastructure/TenantSupport/TenantProvider.cs:13-24 | a tenant without an override still gets its own name as schema, with the default connection string |
| TenantProviders.ConnectionFallbackExample | src/EFCoreMultitenantSample.Infrastructure/TenantSupport/TenantProvider.cs:19-34 | with acme overriding and globex not, acme gets CS_ACME, globex and no tenant get CS_DEFAULT |
| MigrationsTenantProviders.DesignTimeMatchesRuntimeDefault | src/EFCoreMultitenantSample.Persistence.EF.SQL/Infrastructure/MigrationsTenantProvider.cs:7-9 | the design-time provider has no tenant and schema "dbo", the runtime provider's default schema and what it resolves with no tenant |
| MigrationsTenantProviders.BeginScopeAlwaysFails | src/EFCoreMultitenantSample.Persistence.EF.SQL/Infrastructure/MigrationsTenantProvider.cs:13-16 | entering a scope on the design-time provider always fails |
| TenantProviderInterface.AnyTenantProvider.BeginScope | src/EFCoreMultitenantSample.Infrastructure/TenantSupport/ITenantProvider.cs:11 | the runtime provider returns a new handle and installs a new holder for the tenant; the design-time one fails and leaves the slot as it was |
| TenantProviderInterface.SchemaFollowsCurrentTenant | src/EFCoreMultitenantSample.Infrastructure/TenantSupport/ITenantProvider.cs:6-8 | under either implementation the schema is the current tenant, or "dbo" when there is none |
| TenantProviderInterface.DesignTimeIgnoresContext | src/EFCoreMultitenantSample.Persistence.EF.SQL/Infrastructure/MigrationsTenantProvider.cs:5-11 | the design-time provider answers "dbo", the fixed connection string and no tenant whatever the ambient context |
| ModelCacheKeys.KeyEquality | src/EFCoreMultitenantSample.Persistence.EF.SQL/Infrastructure/DbSchemaAwareModelCacheKeyFactory.cs:16-19 | two keys are equal exactly when the context types, the schemas resolved at the two calls, and the design-time flags are equal |
| ModelCacheKeys.TenantsGetDistinctKeys | src/EFCoreMultitenantSample.Persistence.EF.SQL/Infrastructure/DbSchemaAwareModelCacheKeyFactory.cs:18 | under the runtime provider, chains in different tenants get different keys for the same type and flag |
| ModelCacheKeys.DesignTimeFlagSeparatesKeys | src/EFCoreMultitenantSample.Persistence.EF.SQL/Infrastructure/DbSchemaAwareModelCacheKeyFactory.cs:18 | keys that differ only in the design-time flag are unequal |
| ModelCacheKeys.DboTenantSharesDefaultKey | src/EFCoreMultitenantSample.Persistence.EF.SQL/Infrastructure/DbSchemaAwareModelCacheKeyFactory.cs:18 | the key depends on the schema, not on the tenant: a tenant named "dbo", no tenant, and the design-time provider all give one key |
| ModelCacheKeys.SchemaIsReadOnEveryCall | src/EFCoreMultitenantSample.Persistence.EF.SQL/Infrastructure/DbSchemaAwareModelCacheKeyFactory.cs:9-19 | one factory used in two scopes in turn gives each key the schema of the scope it was created in |
| MigrationsSqlGenerator.RewriteSetsExactlySchemaFields | src/EFCoreMultitenantSample.Persistence.EF.SQL/Infrastructure/DbSchemaAwareSqlServerMigrationsSqlGenerator.cs:33-80 | each field after the rewrite is the schema if it is one of the kind's schema fields (none for create/drop database, Name for ensure-schema, Schema and PrincipalSchema for add-foreign-key, Schema and NewSchema for rename-table, Schema otherwise) and is unchanged if not |
| MigrationsSqlGenerator.UnsupportedKindFailsUnchanged | src/EFCoreMultitenantSample.Persistence.EF.SQL/Infrastructure/DbSchemaAwareSqlServerMigrationsSqlGenerator.cs:77-79 | the rewrite fails exactly for an unsupported kind, and such an operation's fields are unchanged |
| MigrationsSqlGenerator.LastRewriteWins | src/EFCoreMultitenantSample.Persistence.EF.SQL/Infrastructure/DbSchemaAwareSqlServerMigrationsSqlGenerator.cs:33-80 | the result does not depend on the schemas an operation was planned with: rewriting with s2 after s1 equals rewriting with s2 |
| MigrationsSqlGenerator.RewriteIsIdempotent | src/EFCoreMultitenantSample.Persistence.EF.SQL/Infrastructure/DbSchemaAwareSqlServerMigrationsSqlGenerator.cs:33-80 | rewriting twice under one schema equals rewriting once |
| MigrationsSqlGenerator.MigrationOperation.constructor | src/EFCoreMultitenantSample.Persistence.EF.SQL/Infrastructure/DbSchemaAwareSqlServerMigrationsSqlGenerator.cs:19 | a new operation has the given kind, fields and foreign keys |
| MigrationsSqlGenerator.DbSchemaAwareSqlServerMigrationsSqlGenerator.constructor | src/EFCoreMultitenantSample.Persistence.EF.SQL/Infrastructure/DbSchemaAwareSqlServerMigrationsSqlGenerator.cs:12-17 | the generator keeps its provider and has handed nothing on yet |
| MigrationsSqlGenerator.DbSchemaAwareSqlServerMigrationsSqlGenerator.Generate | src/EFCoreMultitenantSample.Persistence.EF.SQL/Infrastructure/DbSchemaAwareSqlServerMigrationsSqlGenerator.cs:19-24 | the rewrite runs first; a supported operation is handed on, rewritten; an unsupported one fails, unchanged, and nothing is handed on |
| MigrationsSqlGenerator.DbSchemaAwareSqlServerMigrationsSqlGenerator.ChangeSchema | src/EFCoreMultitenantSample.Persistence.EF.SQL/Infrastructure/DbSchemaAwareSqlServerMigrationsSqlGenerator.cs:26-81 | a null operation passes with nothing written; otherwise the operation's fields become RewriteFields of its kind under the current schema, each foreign key of a create-table is rewritten as an add-foreign-key, no other object is written, and the outcome fails exactly for an unsupported kind |
| MigrationsSqlGenerator.DbSchemaAwareSqlServerMigrationsSqlGenerator.ChangeForeignKeysSchema | src/EFCoreMultitenantSample.Persistence.EF.SQL/Infrastructure/DbSchemaAwareSqlServerMigrationsSqlGenerator.cs:43-46 | every listed foreign key ends up with Schema and PrincipalSchema equal to the current schema and its other fields unchanged, even a key listed twice |
| MigrationsSqlGenerator.CreateTableUnderTenant | src/EFCoreMultitenantSample.Persistence.EF.SQL/Infrastructure/DbSchemaAwareSqlServerMigrationsSqlGenerator.cs:41-47 | a create-table generated in a tenant's scope puts the table, and its foreign key's schema and principal schema, in the tenant's schema; the names stay and the operation is handed on |
| MigrationsSqlGenerator.UnsupportedOperationIsNotGenerated | src/EFCoreMultitenantSample.Persistence.EF.SQL/Infrastructure/DbSchemaAwareSqlServerMigrationsSqlGenerator.cs:19-24 | an unsupported operation fails with its type name, keeps its fields and produces no SQL |
| MigrationsSqlGenerator.RenameTableOutsideScope | src/EFCoreMultitenantSample.Persistence.EF.SQL/Infrastructure/DbSchemaAwareSqlServerMigrationsSqlGenerator.cs:73-76 | outside any scope, and under the design-time provider, a rename-table gets Schema and NewSchema "dbo" and nothing else changes |

## Left out

- SQL generation by the base SQL Server generator, and the `IModel` and
  command-builder arguments of `Generate`, are not modelled. EF Core code is
  outside this model. The hand-off is recorded in `generated`.
- `AsyncLocal` flow across awaits and threads is not modelled. Forking is an
  explicit `Fork`. The restore of a chain's value when an awaited async
  method returns is not modelled.
- The C# `switch` matches types, so a subclass of a listed operation class
  takes that class's case. The model has one kind per listed class and
  `Other` for every other class.
- Only the operation properties that matter to the rewrite are fields:
  `Name`, `Table`, `NewName` and the three schemas. Columns, annotations and
  the other properties are never written by the rewrite, so they are absent.
- The foreign-key list of a create-table is a sequence of non-null
  operations. A null entry, which `ChangeSchema` would skip, is not
  modelled.
- White space for `string.IsNullOrWhiteSpace` is a fixed set of common
  characters, not the full Unicode class.
- A configured tenant name is never null. `ToDictionary` throwing on a null
  key is not modelled.
- The default connection string of the options is never null. The source
  initialises it to `null!`, so an unbound configuration section makes
  `ConnectionString` return null; the model always has a string there.
- `context.GetType()` is an opaque `ContextType` tag.
- Exception types and message texts are not modelled. Failures are `Failure`
  or `Fail` values, and the unsupported-operation failure carries the
  operation's type name.
- The DbMigrator hosted service, the web middleware and the page, the
  `SampleDbContext` configuration and the dependency-injection wiring are
  not part of this model. They are host and I/O glue.
- Several members model source code but have no contract of their own; the
  lemmas named here state their properties:
  - `TenantProvider.CurrentTenant`, `DbSchemaName`, `ConnectionString` and
    `ToString`, and `AnyTenantProvider.CurrentTenant`, `DbSchemaName` and
    `ConnectionString` (TenantProvider.cs:11-26, 42-45) are plain reads.
    `SchemaNameResolution`, `ConnectionStringResolution`,
    `UnregisteredTenantKeepsOwnSchema` and `SchemaFollowsCurrentTenant`
    state them through `SchemaNameFor` and `ConnectionStringFor`.
  - `TenantContext.CurrentTenant` (TenantContext.cs:24) reads the slot. The
    contracts of `BeginScope`, `EndScope`, `Dispose` and the chain scenarios
    state what it returns.
  - `TenantProviders.NewTenantProvider`, `OverridePairs` and `ToDictionary`
    (TenantProvider.cs:28-35) are the constructor, its `Where` filter and
    `ToDictionary`. `OverridePairsMembership`,
    `ToDictionarySucceedsIffDistinct`, `ToDictionaryContents`,
    `DistinctOverrideKeys`, `ConstructionFailsIffDuplicateOverride` and
    `ConstructedMap` state their properties.
  - `MigrationsTenantProvider.CurrentTenant`, `DbSchemaName`,
    `ConnectionString` and `BeginScope` (MigrationsTenantProvider.cs:7-16)
    are constants. `DesignTimeMatchesRuntimeDefault`,
    `BeginScopeAlwaysFails` and `DesignTimeIgnoresContext` state them.
  - `DbSchemaAwareModelCacheKeyFactory.Create`
    (DbSchemaAwareModelCacheKeyFactory.cs:16-19) builds the key.
    `KeyEquality`, `TenantsGetDistinctKeys`, `DesignTimeFlagSeparatesKeys`,
    `DboTenantSharesDefaultKey` and `SchemaIsReadOnEveryCall` state its
    properties.
