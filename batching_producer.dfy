/**
 * The batching producer (`com.autostreams.pulsar.PulsarProducer`). Its
 * `initialize` makes a single connection attempt and reports whether it
 * worked; the retrying is done by its loader.
 */
module BatchingProducer {
  import opened Java
  import opened ProducerSettings
  import opened PulsarClient

  class PulsarProducer {
    var client: Option<Client>
    var producer: Option<Producer>
    /** How many clients this object has built; the next one gets this serial. */
    var clientsBuilt: nat
    var closeCalls: seq<Close>

    /** A producer is only ever created after a client was built. */
    ghost predicate Valid()
      reads this
    {
      producer.Some? ==> client.Some?
    }

    constructor ()
      ensures Valid()
      ensures client == None && producer == None && clientsBuilt == 0 && closeCalls == []
    {
      client := None;
      producer := None;
      clientsBuilt := 0;
      closeCalls := [];
    }

    /**
     * `initialize`: the broker URL and the thirteen settings, then one
     * attempt to build the client and create the producer. It answers false
     * exactly when the library throws PulsarClientException, and true
     * otherwise; an exception from the settings escapes before the attempt.
     */
    method Initialize(env: map<string, string>, config: map<string, string>, producerProps: map<string, string>,
                      enums: PulsarEnums, creation: Creation)
      returns (r: Result<bool>)
      requires Valid()
      modifies this
      ensures Valid()
      ensures var settings := SanitizeProducerPropertiesMap(env, producerProps, enums);
              && (settings.Throws? ==>
                    r == Throws(settings.exception)
                    && client == old(client) && producer == old(producer) && clientsBuilt == old(clientsBuilt))
              && (settings.Ok? ==> r == Ok(creation == Created))
              && (settings.Ok? && creation != ClientFails ==>
                    client == Some(Client(old(clientsBuilt), BrokerUrl(env, config)))
                    && clientsBuilt == old(clientsBuilt) + 1)
              && (settings.Ok? && creation == ClientFails ==> client == old(client) && clientsBuilt == old(clientsBuilt))
              && (settings.Ok? ==>
                    producer == if creation == Created then Some(Producer(client.value, settings.value)) else old(producer))
      ensures closeCalls == old(closeCalls)
    {
      var host := BrokerUrl(env, config);
      var settings := SanitizeProducerPropertiesMap(env, producerProps, enums);
      if settings.Throws? {
        return Throws(settings.exception);
      }
      if creation == ClientFails {
        return Ok(false);
      }
      client := Some(Client(clientsBuilt, host));
      clientsBuilt := clientsBuilt + 1;
      if creation == ProducerFails {
        return Ok(false);
      }
      producer := Some(Producer(client.value, settings.value));
      return Ok(true);
    }

    /**
     * `onShutdown`: nothing when there is no producer; otherwise closes the
     * producer and then the client, and a producer that fails to close
     * keeps the client from being closed.
     */
    method OnShutdown(producerCloseFails: bool)
      requires Valid()
      modifies this
      ensures Valid()
      ensures client == old(client) && producer == old(producer) && clientsBuilt == old(clientsBuilt)
      ensures old(producer).None? ==> closeCalls == old(closeCalls)
      ensures old(producer).Some? ==>
                closeCalls == old(closeCalls) + [CloseProducer(producer.value)]
                                + (if producerCloseFails then [] else [CloseClient(client.value)])
    {
      if producer.Some? {
        closeCalls := closeCalls + [CloseProducer(producer.value)];
        if !producerCloseFails {
          closeCalls := closeCalls + [CloseClient(client.value)];
        }
      }
    }
  }
}
