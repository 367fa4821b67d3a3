/**
 * The address the data provider connects to. Both data-provider classes
 * take the host and the port together from one tier: the environment when
 * it names both, else `config.properties` when it names both, else the
 * defaults 127.0.0.1 and 8992. A tier that names only one of the two is
 * skipped as a whole.
 */
module Endpoint {
  import opened Java

  const HostEnv: string := "PRODUCER_URL"
  const PortEnv: string := "PRODUCER_PORT"
  const HostProperty: string := "producer.url"
  const PortProperty: string := "producer.port"
  const DefaultHost: string := "127.0.0.1"
  const DefaultPort: int := 8992

  datatype Tier = Environment | PropertiesFile | Defaults

  datatype Address = Address(host: string, port: int)

  /** `canSetValuesFromEnvironmentVariables`, then `canSetValuesFromPropertiesFile`. */
  function TierOf(env: map<string, string>, props: map<string, string>): (t: Tier)
    ensures t == Environment <==> HostEnv in env && PortEnv in env
    ensures t == PropertiesFile <==> !(HostEnv in env && PortEnv in env) && HostProperty in props && PortProperty in props
  {
    if HostEnv in env && PortEnv in env then Environment
    else if HostProperty in props && PortProperty in props then PropertiesFile
    else Defaults
  }

  /** The host text of a tier that holds one. */
  function HostIn(tier: Tier, env: map<string, string>, props: map<string, string>): string
    requires tier == TierOf(env, props) && tier != Defaults
  {
    if tier == Environment then env[HostEnv] else props[HostProperty]
  }

  /** The port text of a tier that holds one. */
  function PortTextIn(tier: Tier, env: map<string, string>, props: map<string, string>): string
    requires tier == TierOf(env, props) && tier != Defaults
  {
    if tier == Environment then env[PortEnv] else props[PortProperty]
  }

  /**
   * The address the tiers give: the chosen tier's host, and its port text
   * parsed by `Integer.parseInt`, which throws on bad text; the defaults
   * when neither tier names both.
   */
  function AddressOf(env: map<string, string>, props: map<string, string>): (r: Result<Address>)
    ensures r.Throws? ==> r == Throws(NumberFormat) && TierOf(env, props) != Defaults
    ensures r.Ok? && TierOf(env, props) == Defaults ==> r.value == Address(DefaultHost, DefaultPort)
    ensures r.Ok? && TierOf(env, props) != Defaults ==>
              r.value.host == HostIn(TierOf(env, props), env, props)
              && Ok(r.value.port) == ParseInt(Some(PortTextIn(TierOf(env, props), env, props)))
  {
    var tier := TierOf(env, props);
    if tier == Defaults then Ok(Address(DefaultHost, DefaultPort))
    else
      var port := ParseInt(Some(PortTextIn(tier, env, props)));
      if port.Throws? then Throws(port.exception) else Ok(Address(HostIn(tier, env, props), port.value))
  }

  /**
   * An environment that names both wins, whatever the file says; a file
   * that names both is used when the environment does not; the host and
   * the port written in one tier come back together.
   */
  lemma AddressTiers(env: map<string, string>, props: map<string, string>, host: string, port: int)
    requires IntMin <= port <= IntMax
    ensures AddressOf(env[HostEnv := host][PortEnv := DecimalString(port)], props) == Ok(Address(host, port))
    ensures !(HostEnv in env && PortEnv in env) ==>
              AddressOf(env, props[HostProperty := host][PortProperty := DecimalString(port)]) == Ok(Address(host, port))
  {
    ParseIntRoundTrip(port);
  }

  /**
   * The tiers are never mixed: an environment naming only one of the two
   * is ignored as a whole, so the address is what it would be with an
   * empty environment; likewise for a file naming only one of the two.
   */
  lemma PartialTierIgnored(env: map<string, string>, props: map<string, string>)
    ensures !(HostEnv in env && PortEnv in env) ==> AddressOf(env, props) == AddressOf(map[], props)
    ensures !(HostEnv in env && PortEnv in env) && !(HostProperty in props && PortProperty in props) ==>
              AddressOf(env, props) == Ok(Address(DefaultHost, DefaultPort))
  {
  }

  /** Port text with a character that is neither a digit nor a leading sign throws, in either tier. */
  lemma PortRejects(env: map<string, string>, props: map<string, string>, text: string, i: nat)
    requires i < |text| && !IsDigit(text[i])
    requires i == 0 ==> text[i] != '-' && text[i] != '+'
    ensures HostEnv in env ==> AddressOf(env[PortEnv := text], props) == Throws(NumberFormat)
    ensures !(HostEnv in env && PortEnv in env) && HostProperty in props ==>
              AddressOf(env, props[PortProperty := text]) == Throws(NumberFormat)
  {
    ParseDecimalRejects(text, i, IntMin, IntMax);
  }
}
