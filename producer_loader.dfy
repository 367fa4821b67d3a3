/**
 * `com.autostreams.pulsar.PulsarProducerLoader`: the listen port of the
 * producer application (a static field), and `createProducer`, which
 * retries the batching producer's `initialize` every five seconds until it
 * answers true.
 */
module ProducerLoader {
  import opened Java
  import opened ProducerSettings
  import opened PulsarClient
  import BatchingProducer

  /** The loader's static state. */
  class PulsarProducerLoader {
    var port: int

    constructor ()
      ensures port == 0
    {
      port := 0;
    }

    /**
     * `loadConfigurationVariables`: `listen.port` from the environment if
     * the key is there, else from `config.properties` if the key is there,
     * else 8992. Exactly one tier assigns the port; text that does not
     * parse throws NumberFormatException and leaves the port as it was.
     */
    method LoadConfigurationVariables(env: map<string, string>, config: map<string, string>)
      returns (outcome: Outcome)
      modifies this
      ensures var p := ListenPort(env, config);
              && (p.Ok? ==> outcome == Normal && port == p.value)
              && (p.Throws? ==> outcome == Threw(NumberFormat) && port == old(port))
    {
      var parsed: Result<int>;
      if ListenPortKey in env {
        parsed := ParseInt(Get(env, ListenPortKey));
      } else if ListenPortKey in config {
        parsed := ParseInt(Get(config, ListenPortKey));
      } else {
        parsed := Ok(DefaultListenPort);
      }
      if parsed.Throws? {
        return Threw(parsed.exception);
      }
      port := parsed.value;
      outcome := Normal;
    }

    /**
     * `createProducer`: the port, then a new batching producer whose
     * `initialize` is called until it answers true, one script entry per
     * call. An exception from the port escapes before the producer is made;
     * after that the run is the one `InitializedUntilTrue` describes.
     */
    method CreateProducer(env: map<string, string>, config: map<string, string>, producerProps: map<string, string>,
                          enums: PulsarEnums, attempts: seq<Creation>)
      returns (progress: Progress<BatchingProducer.PulsarProducer>, tries: nat)
      modifies this
      ensures var p := ListenPort(env, config);
              && (p.Throws? ==> progress == Raised(NumberFormat) && tries == 0 && port == old(port))
              && (p.Ok? ==> port == p.value && InitializedUntilTrue(env, config, producerProps, enums, attempts, progress, tries))
      ensures progress.Returned? ==> fresh(progress.value)
    {
      var loaded := LoadConfigurationVariables(env, config);
      if loaded.Threw? {
        return Raised(loaded.exception), 0;
      }
      progress, tries := InitializeUntilTrue(env, config, producerProps, enums, attempts);
    }
  }

  /** The producer object holds a producer created with `settings` on a client for `url`. */
  ghost predicate Connected(producer: BatchingProducer.PulsarProducer, settings: map<string, Setting>, url: string)
    reads producer
  {
    producer.Valid() && producer.producer.Some?
    && producer.producer.value.settings == settings && producer.producer.value.client.serviceUrl == url
  }

  /**
   * How the retrying of `initialize` ends after `tries` calls. When the
   * settings throw, the first call raises their exception (if there is a
   * call at all). Otherwise the producer is returned exactly when some
   * attempt creates it: after the first such attempt, connected to the
   * broker URL with the settings. When the script runs out first, the
   * loader is still retrying.
   */
  ghost predicate InitializedUntilTrue(env: map<string, string>, config: map<string, string>,
                                       producerProps: map<string, string>, enums: PulsarEnums, attempts: seq<Creation>,
                                       progress: Progress<BatchingProducer.PulsarProducer>, tries: nat)
    reads if progress.Returned? then {progress.value} else {}
  {
    var settings := SanitizeProducerPropertiesMap(env, producerProps, enums);
    && tries <= |attempts|
    && (settings.Throws? ==>
          if attempts == [] then progress == Retrying && tries == 0
          else progress == Raised(settings.exception) && tries == 1)
    && (settings.Ok? ==> (progress.Returned? <==> Created in attempts) && !progress.Raised?)
    && (progress.Returned? ==>
          settings.Ok? && 0 < tries && attempts[tries - 1] == Created
          && (forall k :: 0 <= k < tries - 1 ==> attempts[k] != Created)
          && Connected(progress.value, settings.value, BrokerUrl(env, config)))
    && (progress.Retrying? ==> tries == |attempts|)
  }

  /**
   * The part of `createProducer` after the port: a new producer, then its
   * `initialize` until it answers true or throws, one script entry per
   * call.
   */
  method InitializeUntilTrue(env: map<string, string>, config: map<string, string>,
                             producerProps: map<string, string>, enums: PulsarEnums, attempts: seq<Creation>)
    returns (progress: Progress<BatchingProducer.PulsarProducer>, tries: nat)
    ensures InitializedUntilTrue(env, config, producerProps, enums, attempts, progress, tries)
    ensures progress.Returned? ==> fresh(progress.value)
  {
    var producer := new BatchingProducer.PulsarProducer();
    tries := 0;
    var initialized := Ok(false);
    ghost var settings := SanitizeProducerPropertiesMap(env, producerProps, enums);
    while initialized == Ok(false) && tries < |attempts|
      invariant tries <= |attempts| && fresh(producer) && producer.Valid()
      invariant settings.Ok? ==> initialized.Ok?
      invariant settings.Throws? ==>
                  if tries == 0 then initialized == Ok(false) else initialized == Throws(settings.exception) && tries == 1
      invariant initialized == Ok(true) ==>
                  0 < tries && attempts[tries - 1] == Created
                  && Connected(producer, settings.value, BrokerUrl(env, config))
      invariant initialized.Ok? ==>
                  forall k :: 0 <= k < tries - (if initialized.value then 1 else 0) ==> attempts[k] != Created
    {
      initialized := producer.Initialize(env, config, producerProps, enums, attempts[tries]);
      tries := tries + 1;
    }
    assert initialized == Ok(false) ==> forall k :: 0 <= k < |attempts| ==> attempts[k] != Created;
    progress := if initialized == Ok(true) then Returned(producer)
                else if initialized.Throws? then Raised(initialized.exception) else Retrying;
  }
}
