/**
 * `com.autostreams.pulsar.receiver.DataReceiverCreator`: the listen port of
 * the data receiver (a static field), resolved as in the producer loader,
 * and the receiver built from it.
 */
module ReceiverCreator {
  import opened Java
  import opened ProducerSettings

  /**
   * A data receiver that hands its messages to `server` and listens on
   * `port`. The receiver itself is not part of this model.
   */
  datatype DataReceiver<S> = DataReceiver(server: S, port: int)

  /** The creator's static state. */
  class DataReceiverCreator {
    var port: int

    constructor ()
      ensures port == 0
    {
      port := 0;
    }

    /**
     * `loadConfigurationVariables`: `listen.port` from the environment if
     * the key is there, else from `config.properties` if the key is there,
     * else 8992. Text that does not parse throws NumberFormatException and
     * leaves the port as it was.
     */
    method LoadConfigurationVariables(env: map<string, string>, config: map<string, string>)
      returns (outcome: Outcome)
      modifies this
      ensures var p := ListenPort(env, config);
              && (p.Ok? ==> outcome == Normal && port == p.value)
              && (p.Throws? ==> outcome == Threw(NumberFormat) && port == old(port))
    {
      if ListenPortKey in env {
        var parsed := ParseInt(Get(env, ListenPortKey));
        if parsed.Throws? {
          return Threw(parsed.exception);
        }
        port := parsed.value;
      } else if ListenPortKey in config {
        var parsed := ParseInt(Get(config, ListenPortKey));
        if parsed.Throws? {
          return Threw(parsed.exception);
        }
        port := parsed.value;
      } else {
        port := DefaultListenPort;
      }
      outcome := Normal;
    }

    /**
     * `createReceiver`: the port, then a receiver for `server` on the port
     * just resolved; an exception from the port escapes.
     */
    method CreateReceiver<S>(server: S, env: map<string, string>, config: map<string, string>)
      returns (r: Result<DataReceiver<S>>)
      modifies this
      ensures var p := ListenPort(env, config);
              && (p.Ok? ==> r == Ok(DataReceiver(server, p.value)) && port == p.value)
              && (p.Throws? ==> r == Throws(NumberFormat) && port == old(port))
    {
      var loaded := LoadConfigurationVariables(env, config);
      if loaded.Threw? {
        return Throws(loaded.exception);
      }
      r := Ok(DataReceiver(server, port));
    }
  }
}
