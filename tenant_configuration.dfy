/** The configuration records the tenant layer is built from
    (TenantConfigurationOptions.cs). */
module TenantConfiguration {
  import opened Wrappers

  /** One configured tenant: its name and an optional connection-string override. */
  datatype Tenant = Tenant(name: string, connectionString: Option<string>)

  /** The bound configuration section: the default connection string and the
      ordered list of tenants. */
  datatype TenantConfigurationOptions = TenantConfigurationOptions(
    connectionString: string,
    tenants: seq<Tenant>)

  /** The name of the configuration section the options are bound from. */
  const ConfigKey: string := "TenantConfiguration"

  /** The white-space characters recognised by the model (a subset of the
      Unicode white-space class that `char.IsWhiteSpace` uses). */
  predicate IsWhiteSpace(c: char) {
    c == ' ' || c == '\t' || c == '\n' || c == '\r' || c == '\U{000B}' || c == '\U{000C}'
    || c == '\U{0085}' || c == '\U{00A0}'
  }

  /** `string.IsNullOrWhiteSpace`: absent, or made only of white space (the empty
      string included). */
  predicate IsNullOrWhiteSpace(s: Option<string>) {
    match s
    case None => true
    case Some(str) => forall i :: 0 <= i < |str| ==> IsWhiteSpace(str[i])
  }

  /** A tenant whose override survives the `Where` filter of the provider's constructor. */
  predicate HasOverride(t: Tenant) {
    !IsNullOrWhiteSpace(t.connectionString)
  }
}
