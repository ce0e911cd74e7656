/** The schema-rewriting migrations SQL generator
    (DbSchemaAwareSqlServerMigrationsSqlGenerator.cs): before a migration
    operation is handed to the SQL Server generator, every schema field it
    carries is overwritten, in place, with the provider's current schema. */
module MigrationsSqlGenerator {
  import opened Wrappers
  import TenantContext
  import opened TenantProviders
  import opened TenantProviderInterface

  /** The operation classes the rewriter recognises, and every other one. */
  datatype OperationKind =
    | SqlServerCreateDatabase
    | SqlServerDropDatabase
    | EnsureSchema
    | CreateTable
    | DropTable
    | CreateIndex
    | AddColumn
    | AlterColumn
    | DropColumn
    | RenameColumn
    | AddForeignKey
    | DropForeignKey
    | RenameTable
    | Other(typeName: string)

  /** The mutable fields of an operation, as one value. `name` is the object
      the operation is about (for ensure-schema, the schema itself); `table`
      and `newName` stand for the fields that are never schema names. */
  datatype OperationFields = OperationFields(
    name: string,
    table: string,
    newName: Option<string>,
    schema: Option<string>,
    principalSchema: Option<string>,
    newSchema: Option<string>)

  /** The fields, by name. */
  datatype Field = Name | Table | NewName | Schema | PrincipalSchema | NewSchema

  function FieldValue(f: OperationFields, field: Field): Option<string> {
    match field
    case Name => Some(f.name)
    case Table => Some(f.table)
    case NewName => f.newName
    case Schema => f.schema
    case PrincipalSchema => f.principalSchema
    case NewSchema => f.newSchema
  }

  /** The schema-bearing fields of each supported kind: none for the database
      operations, the schema name for
      ensure-schema, both schemas for add-foreign-key and rename-table, the
      single schema otherwise. Unsupported kinds have none to rewrite. */
  function SchemaFields(kind: OperationKind): set<Field> {
    match kind
    case SqlServerCreateDatabase => {}
    case SqlServerDropDatabase => {}
    case EnsureSchema => {Name}
    case AddForeignKey => {Schema, PrincipalSchema}
    case RenameTable => {Schema, NewSchema}
    case Other(_) => {}
    case _ => {Schema}
  }

  /** What the rewrite does to the fields of one operation of `kind` when the
      provider's schema is `s` (the foreign keys of a create-table are
      rewritten as operations of their own). */
  function RewriteFields(kind: OperationKind, f: OperationFields, s: string): OperationFields {
    match kind
    case SqlServerCreateDatabase => f
    case SqlServerDropDatabase => f
    case EnsureSchema => f.(name := s)
    case CreateTable => f.(schema := Some(s))
    case DropTable => f.(schema := Some(s))
    case CreateIndex => f.(schema := Some(s))
    case AddColumn => f.(schema := Some(s))
    case AlterColumn => f.(schema := Some(s))
    case DropColumn => f.(schema := Some(s))
    case RenameColumn => f.(schema := Some(s))
    case AddForeignKey => f.(schema := Some(s), principalSchema := Some(s))
    case DropForeignKey => f.(schema := Some(s))
    case RenameTable => f.(schema := Some(s), newSchema := Some(s))
    case Other(_) => f
  }

  /** The `NotImplementedException` thrown for an unsupported kind. */
  datatype UnsupportedOperation = UnsupportedOperation(typeName: string)

  /** Whether the rewrite of an operation of `kind` completes or throws. */
  function RewriteOutcome(kind: OperationKind): Outcome<UnsupportedOperation> {
    if kind.Other? then Fail(UnsupportedOperation(kind.typeName)) else Pass
  }

  /** The rewrite sets exactly the schema fields of the kind to the schema and
      leaves every other field, the table and column names included, as it
      was. */
  lemma RewriteSetsExactlySchemaFields(kind: OperationKind, f: OperationFields, s: string, field: Field)
    ensures FieldValue(RewriteFields(kind, f, s), field) ==
      if field in SchemaFields(kind) then Some(s) else FieldValue(f, field)
  {
  }

  /** An unsupported kind fails, and its fields are left exactly as they were. */
  lemma UnsupportedKindFailsUnchanged(kind: OperationKind, f: OperationFields, s: string)
    ensures RewriteOutcome(kind).Fail? <==> kind.Other?
    ensures kind.Other? ==> RewriteFields(kind, f, s) == f
  {
  }

  /** The rewrite does not depend on the schema values an operation was planned
      with: rewriting with `s2` after `s1` is rewriting with `s2`. */
  lemma LastRewriteWins(kind: OperationKind, f: OperationFields, s1: string, s2: string)
    ensures RewriteFields(kind, RewriteFields(kind, f, s1), s2) == RewriteFields(kind, f, s2)
  {
  }

  /** Rewriting twice under the same schema is rewriting once. */
  lemma RewriteIsIdempotent(kind: OperationKind, f: OperationFields, s: string)
    ensures RewriteFields(kind, RewriteFields(kind, f, s), s) == RewriteFields(kind, f, s)
  {
    LastRewriteWins(kind, f, s, s);
  }

  /** A migration operation, updated in place by the rewrite. The kind and the
      list of foreign keys of a create-table are fixed; the listed foreign keys
      are themselves operations. */
  class MigrationOperation {
    const kind: OperationKind
    const foreignKeys: seq<MigrationOperation>
    var name: string
    var table: string
    var newName: Option<string>
    var schema: Option<string>
    var principalSchema: Option<string>
    var newSchema: Option<string>

    constructor (kind: OperationKind, fields: OperationFields, foreignKeys: seq<MigrationOperation>)
      ensures this.kind == kind && this.foreignKeys == foreignKeys
      ensures Fields() == fields
    {
      this.kind := kind;
      this.foreignKeys := foreignKeys;
      name := fields.name;
      table := fields.table;
      newName := fields.newName;
      schema := fields.schema;
      principalSchema := fields.principalSchema;
      newSchema := fields.newSchema;
    }

    function Fields(): OperationFields
      reads this
    {
      OperationFields(name, table, newName, schema, principalSchema, newSchema)
    }

    /** What the C# types guarantee: only a create-table has foreign keys,
        and each is an add-foreign-key operation (which has none). */
    predicate WellFormed() {
      (kind != CreateTable ==> foreignKeys == [])
      && forall i :: 0 <= i < |foreignKeys| ==>
           foreignKeys[i].kind == AddForeignKey && foreignKeys[i].foreignKeys == []
    }

    /** The objects a rewrite of this operation may write. */
    function Footprint(): set<MigrationOperation> {
      {this} + set i | 0 <= i < |foreignKeys| :: foreignKeys[i]
    }
  }

  /** The generator. `generated` stands for the SQL Server generator it
      derives from: the operations it has been handed, in order. */
  class DbSchemaAwareSqlServerMigrationsSqlGenerator {
    const tenantProvider: AnyTenantProvider
    var generated: seq<MigrationOperation>

    constructor (tenantProvider: AnyTenantProvider)
      ensures this.tenantProvider == tenantProvider
      ensures generated == []
    {
      this.tenantProvider := tenantProvider;
      generated := [];
    }

    /** Rewrites `operation`, then hands it on; an unsupported operation makes
        the rewrite fail before anything is handed on, with no field changed. */
    method Generate(operation: MigrationOperation, ctx: TenantContext.ExecutionContext)
      returns (r: Outcome<UnsupportedOperation>)
      requires operation.WellFormed()
      modifies this`generated, operation.Footprint()
      ensures r == RewriteOutcome(operation.kind)
      ensures generated == if r.Pass? then old(generated) + [operation] else old(generated)
      ensures operation.Fields() == RewriteFields(operation.kind, old(operation.Fields()), tenantProvider.DbSchemaName(ctx))
      ensures forall i :: 0 <= i < |operation.foreignKeys| ==>
        operation.foreignKeys[i].Fields()
          == RewriteFields(AddForeignKey, old(operation.foreignKeys[i].Fields()), tenantProvider.DbSchemaName(ctx))
    {
      r := ChangeSchema(operation, ctx);
      if r.Pass? {
        generated := generated + [operation];
      }
    }

    /** Overwrites the schema fields of `operation` (and, for a create-table,
        of each of its foreign keys) with the provider's current schema.
        A null operation is left alone; an unsupported kind fails untouched. */
    method ChangeSchema(operation: MigrationOperation?, ctx: TenantContext.ExecutionContext)
      returns (r: Outcome<UnsupportedOperation>)
      requires operation != null ==> operation.WellFormed()
      modifies if operation == null then {} else operation.Footprint()
      ensures operation == null ==> r == Pass
      ensures operation != null ==> r == RewriteOutcome(operation.kind)
      ensures operation != null ==>
        operation.Fields() == RewriteFields(operation.kind, old(operation.Fields()), tenantProvider.DbSchemaName(ctx))
      ensures operation != null ==> forall i :: 0 <= i < |operation.foreignKeys| ==>
        operation.foreignKeys[i].Fields()
          == RewriteFields(AddForeignKey, old(operation.foreignKeys[i].Fields()), tenantProvider.DbSchemaName(ctx))
      decreases if operation == null then 0 else |operation.foreignKeys|, 1
    {
      if operation == null {
        return Pass;
      }
      assert operation.kind != CreateTable ==> operation.foreignKeys == [];
      r := Pass;
      match operation.kind
      case SqlServerCreateDatabase =>
      case SqlServerDropDatabase =>
      case EnsureSchema =>
        operation.name := tenantProvider.DbSchemaName(ctx);
      case CreateTable =>
        operation.schema := Some(tenantProvider.DbSchemaName(ctx));
        ChangeForeignKeysSchema(operation.foreignKeys, ctx);
      case DropTable =>
        operation.schema := Some(tenantProvider.DbSchemaName(ctx));
      case CreateIndex =>
        operation.schema := Some(tenantProvider.DbSchemaName(ctx));
      case AddColumn =>
        operation.schema := Some(tenantProvider.DbSchemaName(ctx));
      case AlterColumn =>
        operation.schema := Some(tenantProvider.DbSchemaName(ctx));
      case DropColumn =>
        operation.schema := Some(tenantProvider.DbSchemaName(ctx));
      case RenameColumn =>
        operation.schema := Some(tenantProvider.DbSchemaName(ctx));
      case AddForeignKey =>
        operation.schema := Some(tenantProvider.DbSchemaName(ctx));
        operation.principalSchema := Some(tenantProvider.DbSchemaName(ctx));
      case DropForeignKey =>
        operation.schema := Some(tenantProvider.DbSchemaName(ctx));
      case RenameTable =>
        operation.schema := Some(tenantProvider.DbSchemaName(ctx));
        operation.newSchema := Some(tenantProvider.DbSchemaName(ctx));
      case Other(typeName) =>
        r := Fail(UnsupportedOperation(typeName));
    }

    /** The `foreach` of the create-table case: rewrites each foreign key in
        turn as an operation of its own. A key listed twice is rewritten twice,
        to the same result. */
    method ChangeForeignKeysSchema(foreignKeys: seq<MigrationOperation>, ctx: TenantContext.ExecutionContext)
      requires forall i :: 0 <= i < |foreignKeys| ==>
        foreignKeys[i].kind == AddForeignKey && foreignKeys[i].foreignKeys == []
      modifies set i | 0 <= i < |foreignKeys| :: foreignKeys[i]
      ensures forall i :: 0 <= i < |foreignKeys| ==>
        foreignKeys[i].Fields()
          == RewriteFields(AddForeignKey, old(foreignKeys[i].Fields()), tenantProvider.DbSchemaName(ctx))
      decreases |foreignKeys|, 0
    {
      ghost var s := tenantProvider.DbSchemaName(ctx);
      for i := 0 to |foreignKeys|
        invariant forall j :: 0 <= j < i ==>
          foreignKeys[j].Fields() == RewriteFields(AddForeignKey, old(foreignKeys[j].Fields()), s)
        invariant forall j :: i <= j < |foreignKeys| ==>
          foreignKeys[j].Fields() == old(foreignKeys[j].Fields())
          || foreignKeys[j].Fields() == RewriteFields(AddForeignKey, old(foreignKeys[j].Fields()), s)
      {
        var foreignKey := foreignKeys[i];
        assert foreignKey.WellFormed() && foreignKey.Footprint() == {foreignKey};
        RewriteIsIdempotent(AddForeignKey, old(foreignKey.Fields()), s);
        var _ := ChangeSchema(foreignKey, ctx);
      }
    }
  }

  // Whole migrations, each over objects the method allocates itself.

  /** A create-table with one foreign key, generated inside the scope of
      `tenant`: the table, the key and the key's principal all end up in the
      tenant's schema, the names stay, and the operation is handed on. */
  method CreateTableUnderTenant(tenant: string)
    returns (r: Outcome<UnsupportedOperation>, table: OperationFields, foreignKey: OperationFields, handedOn: nat)
    ensures r == Pass
    ensures table == OperationFields("Customers", "", None, Some(tenant), None, None)
    ensures foreignKey == OperationFields("FK_Orders_Customers", "Orders", None, Some(tenant), Some(tenant), None)
    ensures handedOn == 1
  {
    var ctx := new TenantContext.ExecutionContext();
    var provider := Runtime(TenantProvider("", map[]));
    var scope := provider.BeginScope(ctx, tenant);
    var generator := new DbSchemaAwareSqlServerMigrationsSqlGenerator(provider);
    var fk := new MigrationOperation(AddForeignKey,
      OperationFields("FK_Orders_Customers", "Orders", None, Some("dbo"), Some("dbo"), None), []);
    var createTable := new MigrationOperation(CreateTable,
      OperationFields("Customers", "", None, Some("dbo"), None, None), [fk]);
    r := generator.Generate(createTable, ctx);
    assert createTable.foreignKeys[0] == fk;
    table := createTable.Fields();
    foreignKey := fk.Fields();
    handedOn := |generator.generated|;
  }

  /** An unsupported operation fails, keeps its fields and is not handed on. */
  method UnsupportedOperationIsNotGenerated(tenant: string, typeName: string, fields: OperationFields)
    returns (r: Outcome<UnsupportedOperation>, after: OperationFields, handedOn: nat)
    ensures r == Fail(UnsupportedOperation(typeName))
    ensures after == fields
    ensures handedOn == 0
  {
    var ctx := new TenantContext.ExecutionContext();
    var provider := Runtime(TenantProvider("", map[]));
    var scope := provider.BeginScope(ctx, tenant);
    var generator := new DbSchemaAwareSqlServerMigrationsSqlGenerator(provider);
    var operation := new MigrationOperation(Other(typeName), fields, []);
    r := generator.Generate(operation, ctx);
    after := operation.Fields();
    handedOn := |generator.generated|;
  }

  /** Outside any scope, and with the design-time provider, the rewrite
      targets "dbo". */
  method RenameTableOutsideScope(fields: OperationFields) returns (runtime: OperationFields, designTime: OperationFields)
    ensures runtime == fields.(schema := Some("dbo"), newSchema := Some("dbo"))
    ensures designTime == runtime
  {
    var ctx := new TenantContext.ExecutionContext();
    var g1 := new DbSchemaAwareSqlServerMigrationsSqlGenerator(Runtime(TenantProvider("", map[])));
    var op1 := new MigrationOperation(RenameTable, fields, []);
    var _ := g1.Generate(op1, ctx);
    runtime := op1.Fields();
    var g2 := new DbSchemaAwareSqlServerMigrationsSqlGenerator(DesignTime(MigrationsTenantProviders.MigrationsTenantProvider));
    var op2 := new MigrationOperation(RenameTable, fields, []);
    var _ := g2.Generate(op2, ctx);
    designTime := op2.Fields();
  }
}
