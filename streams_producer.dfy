/**
 * The producer without batching (`com.autostreams.pulsar.producer.PulsarProducer`).
 *
 * `initialize` resolves the broker URL, builds the ten settings, and then
 * retries the connection every five seconds until one attempt succeeds. The
 * attempts are a script; when it runs out, the producer is still retrying.
 */
module StreamsProducer {
  import opened Java
  import opened ProducerSettings
  import opened PulsarClient

  class PulsarProducer {
    var client: Option<Client>
    var producer: Option<Producer>
    /** How many clients this object has built; the next one gets this serial. */
    var clientsBuilt: nat
    var closeCalls: seq<Close>

    /** A producer is only ever created after a client was built. */
    ghost predicate Valid()
      reads this
    {
      producer.Some? ==> client.Some?
    }

    constructor ()
      ensures Valid()
      ensures client == None && producer == None && clientsBuilt == 0 && closeCalls == []
    {
      client := None;
      producer := None;
      clientsBuilt := 0;
      closeCalls := [];
    }

    /**
     * `establishConnection`: builds a client for `host`, stores it, then
     * creates a producer with `settings` on it and stores that. It answers
     * false exactly when the library throws PulsarClientException; a
     * client built before `create` threw is kept.
     */
    method EstablishConnection(host: string, settings: map<string, Setting>, creation: Creation)
      returns (established: bool)
      requires Valid()
      modifies this
      ensures Valid()
      ensures established <==> creation == Created
      ensures creation == ClientFails ==> client == old(client) && clientsBuilt == old(clientsBuilt)
      ensures creation != ClientFails ==>
                client == Some(Client(old(clientsBuilt), host)) && clientsBuilt == old(clientsBuilt) + 1
      ensures producer == if creation == Created then Some(Producer(client.value, settings)) else old(producer)
      ensures closeCalls == old(closeCalls)
    {
      if creation == ClientFails {
        return false;
      }
      client := Some(Client(clientsBuilt, host));
      clientsBuilt := clientsBuilt + 1;
      if creation == ProducerFails {
        return false;
      }
      producer := Some(Producer(client.value, settings));
      return true;
    }

    /**
     * `connectToBroker`: `establishConnection` until it answers true.
     * `tries` attempts are made; the loop ends at the first attempt that
     * creates the producer, and otherwise uses up the script.
     */
    method ConnectToBroker(host: string, settings: map<string, Setting>, attempts: seq<Creation>)
      returns (connected: bool, tries: nat)
      requires Valid()
      modifies this
      ensures Valid()
      ensures tries <= |attempts|
      ensures connected <==> Created in attempts
      ensures connected ==> 0 < tries && attempts[tries - 1] == Created
      ensures connected ==> forall k :: 0 <= k < tries - 1 ==> attempts[k] != Created
      ensures !connected ==> tries == |attempts|
      ensures connected ==>
                0 < clientsBuilt && client == Some(Client(clientsBuilt - 1, host))
                && producer == Some(Producer(client.value, settings))
      ensures !connected ==> producer == old(producer)
      ensures closeCalls == old(closeCalls)
    {
      connected := false;
      tries := 0;
      while !connected && tries < |attempts|
        invariant Valid()
        invariant tries <= |attempts|
        invariant forall k :: 0 <= k < tries - (if connected then 1 else 0) ==> attempts[k] != Created
        invariant connected ==> 0 < tries && attempts[tries - 1] == Created
        invariant connected ==>
                    0 < clientsBuilt && client == Some(Client(clientsBuilt - 1, host))
                    && producer == Some(Producer(client.value, settings))
        invariant !connected ==> producer == old(producer)
        invariant closeCalls == old(closeCalls)
      {
        connected := EstablishConnection(host, settings, attempts[tries]);
        tries := tries + 1;
      }
      assert !connected ==> forall k :: 0 <= k < |attempts| ==> attempts[k] != Created;
    }

    /**
     * `initialize`: the broker URL from the environment or
     * `config.properties`, the ten settings from the environment or
     * `producer.properties`, then `connectToBroker`. An exception from the
     * settings escapes before any connection is tried.
     */
    method Initialize(env: map<string, string>, config: map<string, string>, producerProps: map<string, string>,
                      enums: PulsarEnums, attempts: seq<Creation>)
      returns (progress: Progress<()>)
      requires Valid()
      modifies this
      ensures Valid()
      ensures var settings := TransformProducerPropertiesMap(env, producerProps, enums);
              && (settings.Throws? ==>
                    progress == Raised(settings.exception)
                    && client == old(client) && producer == old(producer) && clientsBuilt == old(clientsBuilt))
              && (settings.Ok? ==> (progress.Returned? <==> Created in attempts) && !progress.Raised?)
              && (settings.Ok? && progress.Returned? ==>
                    0 < clientsBuilt
                    && producer == Some(Producer(Client(clientsBuilt - 1, BrokerUrl(env, config)), settings.value)))
      ensures closeCalls == old(closeCalls)
    {
      var host := BrokerUrl(env, config);
      var settings := TransformProducerPropertiesMap(env, producerProps, enums);
      if settings.Throws? {
        return Raised(settings.exception);
      }
      var connected, tries := ConnectToBroker(host, settings.value, attempts);
      progress := if connected then Returned(()) else Retrying;
    }

    /**
     * `onShutdown`: nothing when there is no producer; otherwise closes the
     * producer and then the client, and a producer that fails to close
     * keeps the client from being closed. The fields are not cleared, so a
     * second call closes the same handles again.
     */
    method OnShutdown(producerCloseFails: bool)
      requires Valid()
      modifies this
      ensures Valid()
      ensures client == old(client) && producer == old(producer) && clientsBuilt == old(clientsBuilt)
      ensures old(producer).None? ==> closeCalls == old(closeCalls)
      ensures old(producer).Some? ==>
                closeCalls == old(closeCalls) + [CloseProducer(producer.value)]
                                + (if producerCloseFails then [] else [CloseClient(client.value)])
    {
      if producer.Some? {
        closeCalls := closeCalls + [CloseProducer(producer.value)];
        if !producerCloseFails {
          closeCalls := closeCalls + [CloseClient(client.value)];
        }
      }
    }
  }
}
