/**
 * The handles the producers keep from the Pulsar client library, and what
 * the library does on a connection attempt. The library itself is not
 * part of this model: an attempt's result is an input, and a handle
 * records what it was built from.
 */
module PulsarClient {
  import opened ProducerSettings

  /**
   * A client built by `PulsarClient.builder().serviceUrl(url).build()`;
   * `serial` numbers the clients one producer object has built.
   */
  datatype Client = Client(serial: nat, serviceUrl: string)

  /** A producer created on `client` by `newProducer(...).loadConf(settings).create()`. */
  datatype Producer = Producer(client: Client, settings: map<string, Setting>)

  /**
   * One connection attempt: `build` throws PulsarClientException, `create`
   * throws it after the client was built, or both succeed.
   */
  datatype Creation = ClientFails | ProducerFails | Created

  /** A `close` call on a producer or a client, in call order. */
  datatype Close = CloseProducer(producer: Producer) | CloseClient(client: Client)
}
