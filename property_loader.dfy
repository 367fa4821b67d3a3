/**
 * The consumer's batch configuration loader (`ConsumerPropertyLoader`).
 *
 * It keeps a list of (property name, environment variable name) pairs and a
 * set of topic names, both mutated in place. A call to
 * `GetConsumerConfiguration` appends the eight standard pairs to the list,
 * then uses the environment only if EVERY environment name in the list is
 * set, and otherwise takes every value from the properties file.
 */
module PropertyLoader {
  import opened Java

  datatype NamePair = NamePair(propertyName: string, environmentName: string)

  const TopicNames := "topicNames"
  const HostPropertyName := "url"
  const HostEnvironmentName := "PULSAR_BROKER_URL"

  /**
   * The pairs `setConfigVariableKeys` registers, in order. The environment
   * name of the acknowledgement group time ends in a space.
   */
  const StandardPairs: seq<NamePair> := [
    NamePair("topicNames", "TOPIC_NAME"),
    NamePair("subscriptionName", "SUBSCRIPTION_NAME"),
    NamePair("consumerName", "CONSUMER_NAME"),
    NamePair("subscriptionType", "SUBSCRIPTION_TYPE"),
    NamePair("receiverQueueSize", "RECEIVER_QUEUE_SIZE"),
    NamePair("acknowledgementsGroupTimeMicros", "ACKNOWLEDGEMENTS_GROUP_TIME_MICROS "),
    NamePair("ackTimeoutMillis", "ACK_TIMEOUT_MILLIS"),
    NamePair("tickDurationMillis", "TICK_DURATION_MILLIS")
  ]

  /** The property names of a list of pairs. */
  function Names(pairs: seq<NamePair>): set<string>
  {
    set p | p in pairs :: p.propertyName
  }

  /** The eight property names, the keys of every configuration map. */
  const PropertyNames: set<string> := Names(StandardPairs)

  /**
   * A value of the result map: the raw (possibly null) string of the chosen
   * source, or, under "topicNames", the loader's topic set.
   */
  datatype ConfigValue = Text(text: JString) | TopicSet(topics: set<string>)

  /** Every environment name in `pairs` is set. */
  predicate AllPresent(pairs: seq<NamePair>, env: map<string, string>)
  {
    forall i :: 0 <= i < |pairs| ==> pairs[i].environmentName in env
  }

  /** The tier `getConsumerConfiguration` picks: the environment, all or nothing. */
  predicate UsesEnvironment(env: map<string, string>)
  {
    AllPresent(StandardPairs, env)
  }

  function SourceName(pair: NamePair, fromEnvironment: bool): string
  {
    if fromEnvironment then pair.environmentName else pair.propertyName
  }

  /** What `putVariableToResult` stores for one pair. */
  function Entry(pair: NamePair, source: map<string, string>, fromEnvironment: bool,
                 topics: set<string>): ConfigValue
  {
    if pair.propertyName == TopicNames then TopicSet(topics)
    else Text(Get(source, SourceName(pair, fromEnvironment)))
  }

  /** The map obtained by putting the entries of `pairs`, in order, into an empty map. */
  function Entries(pairs: seq<NamePair>, source: map<string, string>, fromEnvironment: bool,
                   topics: set<string>): map<string, ConfigValue>
  {
    if pairs == [] then map[]
    else
      var last := pairs[|pairs| - 1];
      Entries(pairs[..|pairs| - 1], source, fromEnvironment, topics)[last.propertyName := Entry(last, source, fromEnvironment, topics)]
  }

  /** The string added to the topic set: `String.valueOf` of the source's topic value. */
  function TopicAdded(source: map<string, string>, fromEnvironment: bool): string
  {
    StringValueOf(Get(source, SourceName(StandardPairs[0], fromEnvironment)))
  }

  /** The map one call of `getConsumerConfiguration` returns, given the topic set before it. */
  function Configuration(env: map<string, string>, props: map<string, string>,
                         topicsBefore: set<string>): (r: map<string, ConfigValue>)
    ensures r.Keys == PropertyNames
  {
    var fromEnvironment := UsesEnvironment(env);
    var source := if fromEnvironment then env else props;
    var topics := topicsBefore + {TopicAdded(source, fromEnvironment)};
    EntriesKeys(StandardPairs, source, fromEnvironment, topics);
    Entries(StandardPairs, source, fromEnvironment, topics)
  }

  /** `getHost`: `PULSAR_BROKER_URL`, else the property `url`; null when neither is set. */
  function GetHost(env: map<string, string>, props: map<string, string>): (host: JString)
    ensures HostEnvironmentName in env ==> host == Some(env[HostEnvironmentName])
    ensures HostEnvironmentName !in env ==> host == Get(props, HostPropertyName)
    ensures host.None? <==> HostEnvironmentName !in env && HostPropertyName !in props
  {
    if HostEnvironmentName in env then Some(env[HostEnvironmentName])
    else Get(props, HostPropertyName)
  }

  // ---------------------------------------------------------------------
  // Properties of the specification

  predicate DistinctNames(pairs: seq<NamePair>)
  {
    forall i, j :: 0 <= i < j < |pairs| ==> pairs[i].propertyName != pairs[j].propertyName
  }

  lemma StandardNamesDistinct()
    ensures DistinctNames(StandardPairs)
  {
  }

  /** The keys of `Entries` are exactly the property names of the pairs. */
  lemma {:induction false} EntriesKeys(pairs: seq<NamePair>, source: map<string, string>,
                                       fromEnvironment: bool, topics: set<string>)
    ensures Entries(pairs, source, fromEnvironment, topics).Keys == Names(pairs)
  {
    if pairs != [] {
      var front := pairs[..|pairs| - 1];
      EntriesKeys(front, source, fromEnvironment, topics);
      assert pairs == front + [pairs[|pairs| - 1]];
      assert Names(pairs) == Names(front) + {pairs[|pairs| - 1].propertyName};
    }
  }

  /** With distinct property names, each pair's entry survives the later puts. */
  lemma {:induction false} EntriesAt(pairs: seq<NamePair>, source: map<string, string>,
                                     fromEnvironment: bool, topics: set<string>, k: nat)
    requires DistinctNames(pairs) && k < |pairs|
    ensures pairs[k].propertyName in Entries(pairs, source, fromEnvironment, topics)
    ensures Entries(pairs, source, fromEnvironment, topics)[pairs[k].propertyName]
         == Entry(pairs[k], source, fromEnvironment, topics)
  {
    if k < |pairs| - 1 {
      EntriesAt(pairs[..|pairs| - 1], source, fromEnvironment, topics, k);
    }
  }

  /**
   * The two tiers are never mixed: every non-topic setting is the raw value
   * of the SAME source, the environment when all names are set and the
   * properties file otherwise; an absent name gives null, not an omission.
   */
  lemma ConfigurationNeverMixes(env: map<string, string>, props: map<string, string>,
                                topicsBefore: set<string>, k: nat)
    requires 0 < k < |StandardPairs|
    ensures var pair := StandardPairs[k];
            var c := Configuration(env, props, topicsBefore);
            pair.propertyName in c &&
            c[pair.propertyName] == Text(if UsesEnvironment(env) then Get(env, pair.environmentName)
                                         else Get(props, pair.propertyName))
  {
    var fromEnvironment := UsesEnvironment(env);
    var source := if fromEnvironment then env else props;
    StandardNamesDistinct();
    EntriesAt(StandardPairs, source, fromEnvironment, topicsBefore + {TopicAdded(source, fromEnvironment)}, k);
  }

  /**
   * "topicNames" maps to the grown topic set, which gains the chosen
   * source's topic value, or the literal "null" when that value is absent.
   */
  lemma ConfigurationTopics(env: map<string, string>, props: map<string, string>, topicsBefore: set<string>)
    ensures var c := Configuration(env, props, topicsBefore);
            var raw := if UsesEnvironment(env) then Get(env, "TOPIC_NAME") else Get(props, TopicNames);
            TopicNames in c &&
            c[TopicNames] == TopicSet(topicsBefore + {if raw.Some? then raw.value else "null"})
  {
    var fromEnvironment := UsesEnvironment(env);
    var source := if fromEnvironment then env else props;
    StandardNamesDistinct();
    EntriesAt(StandardPairs, source, fromEnvironment, topicsBefore + {TopicAdded(source, fromEnvironment)}, 0);
  }

  /**
   * The environment name of the acknowledgement group time carries a
   * trailing space: without a variable of exactly that name the properties
   * file is used, however many of the other variables are set.
   */
  lemma TrailingSpaceSelectsPropertiesFile(env: map<string, string>)
    requires "ACKNOWLEDGEMENTS_GROUP_TIME_MICROS " !in env
    ensures !UsesEnvironment(env)
  {
    assert StandardPairs[5].environmentName !in env;
  }

  /** Setting every variable under its intended name is not enough. */
  lemma IntendedNamesAreNotEnough()
    ensures var env := map["TOPIC_NAME" := "t", "SUBSCRIPTION_NAME" := "s", "CONSUMER_NAME" := "c",
                           "SUBSCRIPTION_TYPE" := "Shared", "RECEIVER_QUEUE_SIZE" := "1",
                           "ACKNOWLEDGEMENTS_GROUP_TIME_MICROS" := "1", "ACK_TIMEOUT_MILLIS" := "1",
                           "TICK_DURATION_MILLIS" := "1"];
            !UsesEnvironment(env)
  {
    TrailingSpaceSelectsPropertiesFile(map["TOPIC_NAME" := "t", "SUBSCRIPTION_NAME" := "s", "CONSUMER_NAME" := "c",
                           "SUBSCRIPTION_TYPE" := "Shared", "RECEIVER_QUEUE_SIZE" := "1",
                           "ACKNOWLEDGEMENTS_GROUP_TIME_MICROS" := "1", "ACK_TIMEOUT_MILLIS" := "1",
                           "TICK_DURATION_MILLIS" := "1"]);
  }

  /** A list made of whole copies of the standard pairs is all present iff the pairs are. */
  lemma RepeatedPairsPresent(keys: seq<NamePair>, env: map<string, string>)
    requires |keys| >= 8
    requires forall i :: 0 <= i < |keys| ==> keys[i] == StandardPairs[i % 8]
    ensures AllPresent(keys, env) <==> UsesEnvironment(env)
  {
    if AllPresent(keys, env) {
      forall k | 0 <= k < 8 ensures StandardPairs[k].environmentName in env {
        assert keys[k] == StandardPairs[k];
      }
    }
  }

  /** `keys` is some number of whole copies of `pairs`. */
  predicate Copies(keys: seq<NamePair>, pairs: seq<NamePair>)
    requires |pairs| == 8
  {
    |keys| % 8 == 0 && forall i :: 0 <= i < |keys| ==> keys[i] == pairs[i % 8]
  }

  lemma AppendCopy(keys: seq<NamePair>, pairs: seq<NamePair>)
    requires |pairs| == 8 && Copies(keys, pairs)
    ensures Copies(keys + pairs, pairs)
  {
    var keys' := keys + pairs;
    forall i | |keys| <= i < |keys'| ensures keys'[i] == pairs[i % 8] {
      var q := |keys| / 8;
      assert i == 8 * q + (i - |keys|);
    }
  }

  // ---------------------------------------------------------------------
  // The loader object

  function Min8(i: nat): nat { if i < 8 then i else 8 }

  /** Putting the next pair extends the map of a prefix. */
  lemma EntriesGrow(pairs: seq<NamePair>, source: map<string, string>, fromEnvironment: bool,
                    topics: set<string>, k: nat)
    requires k < |pairs|
    ensures Entries(pairs[..k + 1], source, fromEnvironment, topics)
         == Entries(pairs[..k], source, fromEnvironment, topics)[pairs[k].propertyName := Entry(pairs[k], source, fromEnvironment, topics)]
  {
    assert pairs[..k + 1][..k] == pairs[..k];
  }

  /** With distinct names, putting any pair again leaves the full map as it is. */
  lemma EntriesSaturated(pairs: seq<NamePair>, source: map<string, string>, fromEnvironment: bool,
                         topics: set<string>, k: nat)
    requires DistinctNames(pairs) && k < |pairs|
    ensures Entries(pairs, source, fromEnvironment, topics)
         == Entries(pairs, source, fromEnvironment, topics)[pairs[k].propertyName := Entry(pairs[k], source, fromEnvironment, topics)]
  {
    EntriesAt(pairs, source, fromEnvironment, topics, k);
  }

  /**
   * One step of the put loop over a key list made of whole copies of
   * `pairs`: putting pair i % |pairs| extends the prefix map, and once every
   * pair has been put, putting one again changes nothing.
   */
  lemma EntriesStep(pairs: seq<NamePair>, source: map<string, string>, fromEnvironment: bool,
                    topics: set<string>, i: nat)
    requires |pairs| == 8 && DistinctNames(pairs)
    ensures var pair := pairs[i % 8];
            Entries(pairs[..Min8(i + 1)], source, fromEnvironment, topics)
              == Entries(pairs[..Min8(i)], source, fromEnvironment, topics)[pair.propertyName := Entry(pair, source, fromEnvironment, topics)]
  {
    if i < 8 {
      assert i % 8 == i && Min8(i + 1) == i + 1 && Min8(i) == i;
      EntriesGrow(pairs, source, fromEnvironment, topics, i);
    } else {
      assert Min8(i + 1) == 8 && Min8(i) == 8 && pairs[..8] == pairs;
      EntriesSaturated(pairs, source, fromEnvironment, topics, i % 8);
    }
  }

  class ConsumerPropertyLoader {
    var configVariableKeys: seq<NamePair>
    var topics: set<string>

    /** The key list is some number of whole copies of the standard pairs. */
    ghost predicate Valid()
      reads this
    {
      Copies(configVariableKeys, StandardPairs)
    }

    constructor ()
      ensures Valid() && configVariableKeys == [] && topics == {}
    {
      configVariableKeys := [];
      topics := {};
    }

    /**
     * `getConsumerConfiguration`: registers the pairs again, then reads every
     * value from the environment or every value from the properties file.
     */
    method GetConsumerConfiguration(env: map<string, string>, props: map<string, string>)
      returns (result: map<string, ConfigValue>)
      requires Valid()
      modifies this
      ensures Valid()
      ensures configVariableKeys == old(configVariableKeys) + StandardPairs
      ensures result == Configuration(env, props, old(topics))
      ensures topics == old(topics) + {TopicAdded(if UsesEnvironment(env) then env else props, UsesEnvironment(env))}
    {
      AppendCopy(configVariableKeys, StandardPairs);
      SetConfigVariableKeys();
      var fromEnvironment, _ := CanSetValuesFromEnvironmentVariables(env);
      RepeatedPairsPresent(configVariableKeys, env);
      if fromEnvironment {
        result := GetConfigurationFromEnvironment(env);
      } else {
        result := GetConfigurationFromPropertiesFile(props);
      }
    }

    /** `setConfigVariableKeys`: appends the eight standard pairs. */
    method SetConfigVariableKeys()
      modifies this`configVariableKeys
      ensures configVariableKeys == old(configVariableKeys) + StandardPairs
    {
      AddPropertyPair("topicNames", "TOPIC_NAME");
      AddPropertyPair("subscriptionName", "SUBSCRIPTION_NAME");
      AddPropertyPair("consumerName", "CONSUMER_NAME");
      AddPropertyPair("subscriptionType", "SUBSCRIPTION_TYPE");
      AddPropertyPair("receiverQueueSize", "RECEIVER_QUEUE_SIZE");
      AddPropertyPair("acknowledgementsGroupTimeMicros", "ACKNOWLEDGEMENTS_GROUP_TIME_MICROS ");
      AddPropertyPair("ackTimeoutMillis", "ACK_TIMEOUT_MILLIS");
      AddPropertyPair("tickDurationMillis", "TICK_DURATION_MILLIS");
    }

    /** `addPropertyPair`: appends one pair to the key list. */
    method AddPropertyPair(propertyName: string, environmentName: string)
      modifies this`configVariableKeys
      ensures configVariableKeys == old(configVariableKeys) + [NamePair(propertyName, environmentName)]
    {
      configVariableKeys := configVariableKeys + [NamePair(propertyName, environmentName)];
    }

    /**
     * `canSetValuesFromEnvironmentVariables`: true iff every environment name
     * in the key list is set. The scan stops right after the first missing
     * name; `examined` is the number of names looked at.
     */
    method CanSetValuesFromEnvironmentVariables(env: map<string, string>)
      returns (valid: bool, ghost examined: nat)
      ensures valid <==> AllPresent(configVariableKeys, env)
      ensures examined <= |configVariableKeys|
      ensures valid ==> examined == |configVariableKeys|
      ensures !valid ==> 0 < examined
                         && configVariableKeys[examined - 1].environmentName !in env
                         && AllPresent(configVariableKeys[..examined - 1], env)
    {
      valid := true;
      var index := 0;
      while valid && index < |configVariableKeys|
        invariant 0 <= index <= |configVariableKeys|
        invariant valid ==> AllPresent(configVariableKeys[..index], env)
        invariant !valid ==> 0 < index
                             && configVariableKeys[index - 1].environmentName !in env
                             && AllPresent(configVariableKeys[..index - 1], env)
      {
        if configVariableKeys[index].environmentName !in env {
          valid := false;
        }
        index := index + 1;
      }
      examined := index;
      if valid {
        assert configVariableKeys[..index] == configVariableKeys;
      }
    }

    /** `getConfigurationFromEnvironment`: one put per pair of the key list. */
    method GetConfigurationFromEnvironment(env: map<string, string>)
      returns (result: map<string, ConfigValue>)
      requires Valid()
      modifies this`topics
      ensures |configVariableKeys| == 0 ==> result == map[] && topics == old(topics)
      ensures |configVariableKeys| > 0 ==>
                topics == old(topics) + {TopicAdded(env, true)}
                && result == Entries(StandardPairs, env, true, topics)
    {
      ghost var grown := topics + {TopicAdded(env, true)};
      StandardNamesDistinct();
      result := map[];
      for i := 0 to |configVariableKeys|
        invariant topics == if i == 0 then old(topics) else grown
        invariant result == Entries(StandardPairs[..Min8(i)], env, true, grown)
      {
        var pair := configVariableKeys[i];
        var value := Get(env, pair.environmentName);
        result := PutVariableToResult(pair.propertyName, value, result);
        EntriesStep(StandardPairs, env, true, grown, i);
      }
      if |configVariableKeys| > 0 {
        assert StandardPairs[..8] == StandardPairs;
      }
    }

    /** `getConfigurationFromPropertiesFile`: one put per pair of the key list. */
    method GetConfigurationFromPropertiesFile(props: map<string, string>)
      returns (result: map<string, ConfigValue>)
      requires Valid()
      modifies this`topics
      ensures |configVariableKeys| == 0 ==> result == map[] && topics == old(topics)
      ensures |configVariableKeys| > 0 ==>
                topics == old(topics) + {TopicAdded(props, false)}
                && result == Entries(StandardPairs, props, false, topics)
    {
      ghost var grown := topics + {TopicAdded(props, false)};
      StandardNamesDistinct();
      result := map[];
      for i := 0 to |configVariableKeys|
        invariant topics == if i == 0 then old(topics) else grown
        invariant result == Entries(StandardPairs[..Min8(i)], props, false, grown)
      {
        var pair := configVariableKeys[i];
        var value := Get(props, pair.propertyName);
        result := PutVariableToResult(pair.propertyName, value, result);
        EntriesStep(StandardPairs, props, false, grown, i);
      }
      if |configVariableKeys| > 0 {
        assert StandardPairs[..8] == StandardPairs;
      }
    }

    /**
     * `putVariableToResult`: "topicNames" adds `String.valueOf(value)` to the
     * shared topic set and stores the set; any other name stores the value.
     */
    method PutVariableToResult(propertyName: string, value: JString, result: map<string, ConfigValue>)
      returns (result': map<string, ConfigValue>)
      modifies this`topics
      ensures propertyName == TopicNames ==>
                topics == old(topics) + {StringValueOf(value)} && result' == result[propertyName := TopicSet(topics)]
      ensures propertyName != TopicNames ==>
                topics == old(topics) && result' == result[propertyName := Text(value)]
    {
      if propertyName == TopicNames {
        topics := topics + {StringValueOf(value)};
        result' := result[propertyName := TopicSet(topics)];
      } else {
        result' := result[propertyName := Text(value)];
      }
    }
  }

  /**
   * Two calls on one new loader: although the key list then holds the eight
   * pairs twice, both results have exactly the eight property names as keys.
   */
  method TwoCalls(env: map<string, string>, props: map<string, string>)
    returns (first: map<string, ConfigValue>, second: map<string, ConfigValue>)
    ensures first.Keys == second.Keys == PropertyNames
  {
    var loader := new ConsumerPropertyLoader();
    first := loader.GetConsumerConfiguration(env, props);
    ghost var topicsAfterFirst := loader.topics;
    second := loader.GetConsumerConfiguration(env, props);
    assert |loader.configVariableKeys| == 16;
    assert topicsAfterFirst <= loader.topics;
  }
}
