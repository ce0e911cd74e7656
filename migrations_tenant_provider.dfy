/** The design-time tenant provider (MigrationsTenantProvider.cs), used when
    migrations are scaffolded: no tenant, the default schema, a fixed
    connection string, and no way to enter a scope. */
module MigrationsTenantProviders {
  import opened Wrappers
  import TenantProviders

  /** The connection string the design-time provider always answers. */
  const DesignTimeConnectionString: string :=
    "Persist Security Info=True;Integrated Security=true;Server=.;Database=MultiTenantSample;"

  /** What `BeginScope` throws: the operation is not implemented. */
  datatype NotImplemented = NotImplemented

  datatype MigrationsTenantProvider = MigrationsTenantProvider
  {
    function CurrentTenant(): Option<string> {
      None
    }

    function DbSchemaName(): string {
      "dbo"
    }

    function ConnectionString(): string {
      DesignTimeConnectionString
    }

    /** Always throws; no tenant is ever installed. */
    function BeginScope(tenant: string): Outcome<NotImplemented> {
      Fail(NotImplemented)
    }
  }

  /** The design-time provider answers exactly what the runtime provider
      answers outside any scope: no tenant and the default schema. */
  lemma DesignTimeMatchesRuntimeDefault(p: MigrationsTenantProvider)
    ensures p.CurrentTenant() == None
    ensures p.DbSchemaName() == TenantProviders.DefaultSchemaName
    ensures p.DbSchemaName() == TenantProviders.SchemaNameFor(p.CurrentTenant())
  {
  }

  /** Whatever tenant is asked for, `BeginScope` fails. */
  lemma BeginScopeAlwaysFails(p: MigrationsTenantProvider, tenant: string)
    ensures p.BeginScope(tenant).Fail?
  {
  }
}
