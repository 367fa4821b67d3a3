/**
 * The entry point of the data-provider application
 * (`com.autostreams.dataprovider.Main`): `setValues` fills the static
 * `host` and `port` from one tier. Both start out null.
 */
module DataProviderMain {
  import opened Java
  import opened Endpoint

  /** The static fields of the class. */
  class DataProviderMain {
    var host: JString
    var port: Option<int>

    constructor ()
      ensures host == None && port == None
    {
      host := None;
      port := None;
    }

    /**
     * `setValues`: the environment tier when it names both, else the
     * properties tier when it names both, else the defaults. The host is
     * assigned before the port text is parsed, so text that does not parse
     * throws NumberFormatException after the host was already replaced.
     */
    method SetValues(env: map<string, string>, props: map<string, string>) returns (outcome: Outcome)
      modifies this
      ensures var a := AddressOf(env, props);
              && (a.Ok? ==> outcome == Normal && host == Some(a.value.host) && port == Some(a.value.port))
              && (a.Throws? ==>
                    outcome == Threw(NumberFormat) && host == Some(HostIn(TierOf(env, props), env, props))
                    && port == old(port))
    {
      if HostEnv in env && PortEnv in env {
        host := Some(env[HostEnv]);
        var parsed := ParseInt(Some(env[PortEnv]));
        if parsed.Throws? {
          return Threw(parsed.exception);
        }
        port := Some(parsed.value);
        return Normal;
      }
      if HostProperty in props && PortProperty in props {
        host := Some(props[HostProperty]);
        var parsed := ParseInt(Some(props[PortProperty]));
        if parsed.Throws? {
          return Threw(parsed.exception);
        }
        port := Some(parsed.value);
        return Normal;
      }
      host := Some(DefaultHost);
      port := Some(DefaultPort);
      outcome := Normal;
    }
  }
}
