/**
 * The prototype producer (`com.klungerbo.streams.pulsar.PulsarPrototypeProducer`).
 * Its `initialize` reads both properties files itself, answers false when
 * either cannot be loaded, and otherwise answers true whether or not the
 * connection attempt worked.
 */
module PrototypeProducer {
  import opened Java
  import opened ProducerSettings
  import opened PulsarClient

  /**
   * What `initialize` answers, given what the two resource loads produced
   * (`None` for an IOException, a missing resource included). The
   * connection attempt plays no part in it.
   */
  function InitializeAnswer(env: map<string, string>, config: Option<map<string, string>>,
                            producerProps: Option<map<string, string>>, enums: PulsarEnums): (r: Result<bool>)
    ensures r == Ok(false) <==> config.None? || producerProps.None?
    ensures r == Ok(true) <==>
              config.Some? && producerProps.Some? && SanitizeProducerPropertiesMap(env, producerProps.value, enums).Ok?
    ensures r.Throws? ==> r == Throws(SanitizeProducerPropertiesMap(env, producerProps.value, enums).exception)
  {
    if config.None? || producerProps.None? then Ok(false)
    else
      var settings := SanitizeProducerPropertiesMap(env, producerProps.value, enums);
      if settings.Throws? then Throws(settings.exception) else Ok(true)
  }

  class PulsarPrototypeProducer {
    var client: Option<Client>
    var producer: Option<Producer>
    /** How many clients this object has built; the next one gets this serial. */
    var clientsBuilt: nat
    var closeCalls: seq<Close>

    /** A producer is only ever created after a client was built. */
    ghost predicate Valid()
      reads this
    {
      producer.Some? ==> client.Some?
    }

    constructor ()
      ensures Valid()
      ensures client == None && producer == None && clientsBuilt == 0 && closeCalls == []
    {
      client := None;
      producer := None;
      clientsBuilt := 0;
      closeCalls := [];
    }

    /**
     * `initialize`: `config.properties`, then `producer.properties` (a
     * failed load answers false and changes nothing), the broker URL, the
     * thirteen settings (an exception escapes), and one attempt to build the
     * client and create the producer. A PulsarClientException from the
     * attempt is swallowed: the answer is then still true.
     */
    method Initialize(env: map<string, string>, config: Option<map<string, string>>,
                      producerProps: Option<map<string, string>>, enums: PulsarEnums, creation: Creation)
      returns (r: Result<bool>)
      requires Valid()
      modifies this
      ensures Valid()
      ensures r == InitializeAnswer(env, config, producerProps, enums)
      ensures r != Ok(true) ==> client == old(client) && producer == old(producer) && clientsBuilt == old(clientsBuilt)
      ensures r == Ok(true) && creation != ClientFails ==>
                client == Some(Client(old(clientsBuilt), BrokerUrl(env, config.value)))
                && clientsBuilt == old(clientsBuilt) + 1
      ensures r == Ok(true) && creation == ClientFails ==> client == old(client) && clientsBuilt == old(clientsBuilt)
      ensures r == Ok(true) ==>
                producer == if creation == Created
                            then Some(Producer(client.value, SanitizeProducerPropertiesMap(env, producerProps.value, enums).value))
                            else old(producer)
      ensures closeCalls == old(closeCalls)
    {
      if config.None? || producerProps.None? {
        return Ok(false);
      }
      var host := BrokerUrl(env, config.value);
      var settings := SanitizeProducerPropertiesMap(env, producerProps.value, enums);
      if settings.Throws? {
        return Throws(settings.exception);
      }
      if creation != ClientFails {
        client := Some(Client(clientsBuilt, host));
        clientsBuilt := clientsBuilt + 1;
        if creation == Created {
          producer := Some(Producer(client.value, settings.value));
        }
      }
      return Ok(true);
    }

    /**
     * `onShutdown`: nothing when there is no producer; otherwise closes the
     * producer and then the client, and a producer that fails to close
     * keeps the client from being closed.
     */
    method OnShutdown(producerCloseFails: bool)
      requires Valid()
      modifies this
      ensures Valid()
      ensures client == old(client) && producer == old(producer) && clientsBuilt == old(clientsBuilt)
      ensures old(producer).None? ==> closeCalls == old(closeCalls)
      ensures old(producer).Some? ==>
                closeCalls == old(closeCalls) + [CloseProducer(producer.value)]
                                + (if producerCloseFails then [] else [CloseClient(client.value)])
    {
      if producer.Some? {
        closeCalls := closeCalls + [CloseProducer(producer.value)];
        if !producerCloseFails {
          closeCalls := closeCalls + [CloseClient(client.value)];
        }
      }
    }
  }
}
