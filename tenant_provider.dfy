/** The runtime tenant provider (TenantProvider.cs): the schema and the
    connection string of the tenant the current chain is in. */
module TenantProviders {
  import opened Wrappers
  import opened TenantConfiguration
  import TenantContext

  /** The schema used when no tenant is active. */
  const DefaultSchemaName: string := "dbo"

  /** What makes construction throw: `ToDictionary` met a key twice. */
  datatype ConfigurationError = DuplicateKey(key: string)

  /** The provider's two readonly fields. The ambient tenant is not part of
      the value: every getter reads it from the chain `ctx` it runs in. */
  datatype TenantProvider = TenantProvider(
    defaultConnectionString: string,
    connectionStringPerTenant: map<string, string>)
  {
    /** Delegates to the ambient context. */
    function CurrentTenant(ctx: TenantContext.ExecutionContext): Option<string>
      reads ctx, ctx.slot
    {
      TenantContext.CurrentTenant(ctx)
    }

    function DbSchemaName(ctx: TenantContext.ExecutionContext): string
      reads ctx, ctx.slot
    {
      SchemaNameFor(CurrentTenant(ctx))
    }

    function ConnectionString(ctx: TenantContext.ExecutionContext): string
      reads ctx, ctx.slot
    {
      ConnectionStringFor(CurrentTenant(ctx))
    }

    /** The connection string for a given current tenant: the tenant's entry
        in the map when there is one, the default otherwise. */
    function ConnectionStringFor(current: Option<string>): string {
      if current.Some? && current.value in connectionStringPerTenant
      then connectionStringPerTenant[current.value]
      else defaultConnectionString
    }

    /** `ToString` renders the current tenant (null outside a scope). */
    function ToString(ctx: TenantContext.ExecutionContext): Option<string>
      reads ctx, ctx.slot
    {
      CurrentTenant(ctx)
    }

    /** Delegates to the ambient context. */
    method BeginScope(ctx: TenantContext.ExecutionContext, tenant: string) returns (handle: TenantContext.ContextDisposable)
      modifies ctx
      ensures ctx.slot != null && fresh(ctx.slot)
      ensures CurrentTenant(ctx) == Some(tenant)
      ensures DbSchemaName(ctx) == tenant
      ensures fresh(handle) && !handle.disposed
    {
      handle := TenantContext.BeginScope(ctx, tenant);
    }
  }

  /** `CurrentTenant ?? DefaultSchemaName`. */
  function SchemaNameFor(current: Option<string>): string {
    current.GetOr(DefaultSchemaName)
  }

  /** The `Where` filter and the key and value selectors of the constructor:
      the (name, override) pairs handed to `ToDictionary`, in list order. */
  function OverridePairs(tenants: seq<Tenant>): seq<(string, string)>
    decreases |tenants|
  {
    if tenants == [] then []
    else
      var last := tenants[|tenants| - 1];
      OverridePairs(tenants[..|tenants| - 1])
      + if HasOverride(last) then [(last.name, last.connectionString.value)] else []
  }

  /** `Enumerable.ToDictionary`: adds the pairs in order and fails on the
      first key that is already present. */
  function ToDictionary<K(==), V>(pairs: seq<(K, V)>): Result<map<K, V>, K>
    decreases |pairs|
  {
    if pairs == [] then Success(map[])
    else
      var last := pairs[|pairs| - 1];
      match ToDictionary(pairs[..|pairs| - 1])
      case Failure(k) => Failure(k)
      case Success(m) =>
        if last.0 in m then Failure(last.0) else Success(m[last.0 := last.1])
  }

  /** The constructor: the default connection string, and the per-tenant map
      built from the tenants with a non-blank override. */
  function NewTenantProvider(options: TenantConfigurationOptions): Result<TenantProvider, ConfigurationError> {
    match ToDictionary(OverridePairs(options.tenants))
    case Failure(k) => Failure(DuplicateKey(k))
    case Success(m) => Success(TenantProvider(options.connectionString, m))
  }

  // ---------------------------------------------------------------------
  // ToDictionary

  predicate DistinctKeys<K(==), V>(pairs: seq<(K, V)>) {
    forall i, j :: 0 <= i < j < |pairs| ==> pairs[i].0 != pairs[j].0
  }

  /** `ToDictionary` succeeds exactly when no key occurs twice, and a failure
      names a key that does occur twice. */
  lemma {:induction false} ToDictionarySucceedsIffDistinct<K, V>(pairs: seq<(K, V)>)
    ensures ToDictionary(pairs).Success? <==> DistinctKeys(pairs)
    ensures ToDictionary(pairs).Failure? ==>
      exists i, j :: 0 <= i < j < |pairs| && pairs[i].0 == pairs[j].0 == ToDictionary(pairs).error
    decreases |pairs|
  {
    if pairs != [] {
      var init, last := pairs[..|pairs| - 1], pairs[|pairs| - 1];
      assert pairs == init + [last];
      ToDictionarySucceedsIffDistinct(init);
      match ToDictionary(init)
      case Failure(k) =>
        var i, j :| 0 <= i < j < |init| && init[i].0 == init[j].0 == k;
        assert pairs[i] == init[i] && pairs[j] == init[j];
      case Success(m) =>
        ToDictionaryContents(init);
        if last.0 in m {
          var i :| 0 <= i < |init| && init[i].0 == last.0;
          assert pairs[i] == init[i];
          assert pairs[|pairs| - 1] == last;
        } else {
          forall i, j | 0 <= i < j < |pairs| ensures pairs[i].0 != pairs[j].0 {
            if j < |init| {
              assert pairs[i] == init[i] && pairs[j] == init[j];
            } else {
              assert pairs[i] == init[i] && pairs[j] == last;
              assert init[i].0 in m;
            }
          }
        }
    }
  }

  /** A dictionary built without failure holds exactly the keys of the pairs,
      each mapped to the value paired with it. */
  lemma {:induction false} ToDictionaryContents<K, V>(pairs: seq<(K, V)>)
    requires ToDictionary(pairs).Success?
    ensures forall k :: k in ToDictionary(pairs).value <==> exists i :: 0 <= i < |pairs| && pairs[i].0 == k
    ensures forall i :: 0 <= i < |pairs| ==> ToDictionary(pairs).value[pairs[i].0] == pairs[i].1
    decreases |pairs|
  {
    if pairs != [] {
      var init, last := pairs[..|pairs| - 1], pairs[|pairs| - 1];
      ToDictionaryContents(init);
      var m := ToDictionary(init).value;
      assert ToDictionary(pairs).value == m[last.0 := last.1];
      forall k ensures k in ToDictionary(pairs).value <==> exists i :: 0 <= i < |pairs| && pairs[i].0 == k {
        if k in m {
          var i :| 0 <= i < |init| && init[i].0 == k;
          assert pairs[i] == init[i];
        } else if k == last.0 {
          assert pairs[|pairs| - 1] == last;
        } else {
          forall i | 0 <= i < |pairs| ensures pairs[i].0 != k {
            if i < |init| { assert pairs[i] == init[i]; }
          }
        }
      }
      forall i | 0 <= i < |pairs| ensures ToDictionary(pairs).value[pairs[i].0] == pairs[i].1 {
        if i < |init| {
          assert pairs[i] == init[i];
          assert init[i].0 in m;
          assert init[i].0 != last.0;
        }
      }
    }
  }

  // ---------------------------------------------------------------------
  // The per-tenant map against the configured tenant list

  /** Two configured tenants with the same name that both carry a non-blank
      override. */
  predicate DuplicateOverride(tenants: seq<Tenant>) {
    exists i, j :: 0 <= i < j < |tenants| && HasOverride(tenants[i]) && HasOverride(tenants[j])
      && tenants[i].name == tenants[j].name
  }

  /** The pairs handed to `ToDictionary` are exactly the configured tenants
      with a non-blank override, paired with that override. */
  lemma {:induction false} OverridePairsMembership(tenants: seq<Tenant>)
    ensures forall k :: 0 <= k < |OverridePairs(tenants)| ==>
      exists i :: 0 <= i < |tenants| && HasOverride(tenants[i])
        && OverridePairs(tenants)[k] == (tenants[i].name, tenants[i].connectionString.value)
    ensures forall i :: 0 <= i < |tenants| && HasOverride(tenants[i]) ==>
      (tenants[i].name, tenants[i].connectionString.value) in OverridePairs(tenants)
    decreases |tenants|
  {
    if tenants != [] {
      var init, last := tenants[..|tenants| - 1], tenants[|tenants| - 1];
      OverridePairsMembership(init);
      var p := OverridePairs(init);
      var tail := if HasOverride(last) then [(last.name, last.connectionString.value)] else [];
      assert OverridePairs(tenants) == p + tail;
      forall k | 0 <= k < |OverridePairs(tenants)|
        ensures exists i :: (0 <= i < |tenants| && HasOverride(tenants[i])
          && OverridePairs(tenants)[k] == (tenants[i].name, tenants[i].connectionString.value))
      {
        if k < |p| {
          assert OverridePairs(tenants)[k] == p[k];
          var i :| 0 <= i < |init| && HasOverride(init[i]) && p[k] == (init[i].name, init[i].connectionString.value);
          assert tenants[i] == init[i];
        } else {
          assert OverridePairs(tenants)[k] == tail[0];
          assert tenants[|tenants| - 1] == last;
        }
      }
      forall i | 0 <= i < |tenants| && HasOverride(tenants[i])
        ensures (tenants[i].name, tenants[i].connectionString.value) in OverridePairs(tenants)
      {
        if i < |init| { assert tenants[i] == init[i]; }
      }
    } else {
      assert OverridePairs(tenants) == [];
    }
  }

  /** Appending one pair keeps the keys distinct exactly when its key is new. */
  lemma {:induction false} DistinctKeysAppend<K, V>(p: seq<(K, V)>, q: (K, V))
    ensures DistinctKeys(p + [q]) <==> DistinctKeys(p) && forall k :: 0 <= k < |p| ==> p[k].0 != q.0
  {
    var pq := p + [q];
    assert forall k :: 0 <= k < |p| ==> pq[k] == p[k];
    assert pq[|p|] == q;
  }

  /** Appending one tenant creates a duplicate exactly when there was one, or
      when the new tenant has an override and its name already had one. */
  lemma {:induction false} DuplicateOverrideAppend(init: seq<Tenant>, last: Tenant)
    ensures DuplicateOverride(init + [last]) <==>
      DuplicateOverride(init)
      || (HasOverride(last) && exists i :: 0 <= i < |init| && HasOverride(init[i]) && init[i].name == last.name)
  {
    var ts := init + [last];
    assert forall k :: 0 <= k < |init| ==> ts[k] == init[k];
    assert ts[|init|] == last;
    if DuplicateOverride(ts) {
      var i, j :| 0 <= i < j < |ts| && HasOverride(ts[i]) && HasOverride(ts[j]) && ts[i].name == ts[j].name;
      if j == |init| {
        assert HasOverride(init[i]) && init[i].name == last.name;
      }
    }
    if DuplicateOverride(init) {
      var i, j :| 0 <= i < j < |init| && HasOverride(init[i]) && HasOverride(init[j]) && init[i].name == init[j].name;
      assert ts[i] == init[i] && ts[j] == init[j];
    }
  }

  /** A tenant with a non-blank override contributes a key of its own name. */
  lemma OverriddenIsListed(tenants: seq<Tenant>, i: int)
    requires 0 <= i < |tenants| && HasOverride(tenants[i])
    ensures exists k :: 0 <= k < |OverridePairs(tenants)| && OverridePairs(tenants)[k].0 == tenants[i].name
  {
    var p := OverridePairs(tenants);
    OverridePairsMembership(tenants);
    assert (tenants[i].name, tenants[i].connectionString.value) in p;
    var k :| 0 <= k < |p| && p[k] == (tenants[i].name, tenants[i].connectionString.value);
    assert p[k].0 == tenants[i].name;
  }

  /** Every key comes from a tenant of that name with a non-blank override. */
  lemma ListedIsOverridden(tenants: seq<Tenant>, k: int)
    requires 0 <= k < |OverridePairs(tenants)|
    ensures exists i :: 0 <= i < |tenants| && HasOverride(tenants[i]) && tenants[i].name == OverridePairs(tenants)[k].0
  {
    OverridePairsMembership(tenants);
  }

  /** A name is a key handed to `ToDictionary` exactly when some tenant of
      that name has a non-blank override. */
  lemma {:induction false} OverrideKeys(tenants: seq<Tenant>, name: string)
    ensures (exists k :: 0 <= k < |OverridePairs(tenants)| && OverridePairs(tenants)[k].0 == name)
      <==> exists i :: 0 <= i < |tenants| && HasOverride(tenants[i]) && tenants[i].name == name
  {
    if i :| 0 <= i < |tenants| && HasOverride(tenants[i]) && tenants[i].name == name {
      OverriddenIsListed(tenants, i);
    }
    if k :| 0 <= k < |OverridePairs(tenants)| && OverridePairs(tenants)[k].0 == name {
      ListedIsOverridden(tenants, k);
    }
  }

  /** The keys handed to `ToDictionary` are distinct exactly when no two
      tenants with a non-blank override share a name. */
  lemma {:induction false} DistinctOverrideKeys(tenants: seq<Tenant>)
    ensures DistinctKeys(OverridePairs(tenants)) <==> !DuplicateOverride(tenants)
    decreases |tenants|
  {
    if tenants != [] {
      var init, last := tenants[..|tenants| - 1], tenants[|tenants| - 1];
      assert tenants == init + [last];
      DistinctOverrideKeys(init);
      DuplicateOverrideAppend(init, last);
      var p := OverridePairs(init);
      if HasOverride(last) {
        var q := (last.name, last.connectionString.value);
        assert OverridePairs(tenants) == p + [q];
        DistinctKeysAppend(p, q);
        OverrideKeys(init, last.name);
      } else {
        assert OverridePairs(tenants) == p;
      }
    } else {
      assert OverridePairs(tenants) == [];
    }
  }

  /** Construction throws exactly when two tenants with a non-blank override
      share a name; tenants without an override never make it throw. */
  lemma ConstructionFailsIffDuplicateOverride(options: TenantConfigurationOptions)
    ensures NewTenantProvider(options).Failure? <==> DuplicateOverride(options.tenants)
  {
    ToDictionarySucceedsIffDistinct(OverridePairs(options.tenants));
    DistinctOverrideKeys(options.tenants);
  }

  /** A constructed provider keeps the configured default, and its map holds
      exactly the tenants with a non-blank override, each mapped to its own
      override. */
  lemma ConstructedMap(options: TenantConfigurationOptions, p: TenantProvider)
    requires NewTenantProvider(options) == Success(p)
    ensures p.defaultConnectionString == options.connectionString
    ensures forall name :: name in p.connectionStringPerTenant <==>
      exists i :: 0 <= i < |options.tenants| && HasOverride(options.tenants[i]) && options.tenants[i].name == name
    ensures forall i :: 0 <= i < |options.tenants| && HasOverride(options.tenants[i]) ==>
      p.connectionStringPerTenant[options.tenants[i].name] == options.tenants[i].connectionString.value
  {
    var ts, pairs := options.tenants, OverridePairs(options.tenants);
    ToDictionaryContents(pairs);
    OverridePairsMembership(ts);
    forall name ensures name in p.connectionStringPerTenant <==>
      exists i :: 0 <= i < |ts| && HasOverride(ts[i]) && ts[i].name == name
    {
      if name in p.connectionStringPerTenant {
        var k :| 0 <= k < |pairs| && pairs[k].0 == name;
        var i :| 0 <= i < |ts| && HasOverride(ts[i]) && pairs[k] == (ts[i].name, ts[i].connectionString.value);
      }
      if exists i :: 0 <= i < |ts| && HasOverride(ts[i]) && ts[i].name == name {
        var i :| 0 <= i < |ts| && HasOverride(ts[i]) && ts[i].name == name;
        var k :| 0 <= k < |pairs| && pairs[k] == (ts[i].name, ts[i].connectionString.value);
      }
    }
    forall i | 0 <= i < |ts| && HasOverride(ts[i])
      ensures p.connectionStringPerTenant[ts[i].name] == ts[i].connectionString.value
    {
      var k :| 0 <= k < |pairs| && pairs[k] == (ts[i].name, ts[i].connectionString.value);
    }
  }

  /** Connection-string resolution against the configuration: a tenant with
      a non-blank override gets that override; no tenant, or a tenant without
      one (registered or not), gets the default. */
  lemma ConnectionStringResolution(options: TenantConfigurationOptions, p: TenantProvider, current: Option<string>)
    requires NewTenantProvider(options) == Success(p)
    ensures current.None? ==> p.ConnectionStringFor(current) == options.connectionString
    ensures forall i :: (0 <= i < |options.tenants| && HasOverride(options.tenants[i])
      && current == Some(options.tenants[i].name)) ==>
      p.ConnectionStringFor(current) == options.tenants[i].connectionString.value
    ensures current.Some?
      && (forall i :: 0 <= i < |options.tenants| && options.tenants[i].name == current.value ==> !HasOverride(options.tenants[i]))
      ==> p.ConnectionStringFor(current) == options.connectionString
  {
    ConstructedMap(options, p);
  }

  /** A tenant without an override still gets its own name as schema, and
      the default connection string. */
  lemma UnregisteredTenantKeepsOwnSchema(options: TenantConfigurationOptions, p: TenantProvider, tenant: string)
    requires NewTenantProvider(options) == Success(p)
    requires forall i :: 0 <= i < |options.tenants| && options.tenants[i].name == tenant ==> !HasOverride(options.tenants[i])
    ensures SchemaNameFor(Some(tenant)) == tenant
    ensures p.ConnectionStringFor(Some(tenant)) == options.connectionString
  {
    ConnectionStringResolution(options, p, Some(tenant));
  }

  /** With no tenant, the schema is the default one; with a tenant, it is the
      tenant's name, whether or not the tenant is configured. */
  lemma SchemaNameResolution(current: Option<string>)
    ensures current.None? ==> SchemaNameFor(current) == "dbo"
    ensures current.Some? ==> SchemaNameFor(current) == current.value
  {
  }

  /** The two-tenant configuration: "acme" with an override, "globex" without. */
  lemma ConnectionFallbackExample()
    ensures
      var options := TenantConfigurationOptions("CS_DEFAULT",
        [Tenant("acme", Some("CS_ACME")), Tenant("globex", None)]);
      NewTenantProvider(options).Success?
      && NewTenantProvider(options).value.ConnectionStringFor(Some("acme")) == "CS_ACME"
      && NewTenantProvider(options).value.ConnectionStringFor(Some("globex")) == "CS_DEFAULT"
      && NewTenantProvider(options).value.ConnectionStringFor(None) == "CS_DEFAULT"
  {
    var options := TenantConfigurationOptions("CS_DEFAULT",
      [Tenant("acme", Some("CS_ACME")), Tenant("globex", None)]);
    assert options.tenants[0].connectionString.value[0] == 'C';
    assert HasOverride(options.tenants[0]);
    ConstructionFailsIffDuplicateOverride(options);
    var p := NewTenantProvider(options).value;
    ConnectionStringResolution(options, p, Some("acme"));
    ConnectionStringResolution(options, p, Some("globex"));
  }
}
