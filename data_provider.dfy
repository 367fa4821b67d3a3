/**
 * The example data provider (`com.autostreams.pulsar.dataprovider.DataProvider`):
 * a client that connects to the producer's data receiver and writes lines
 * to it at a fixed rate. Netty is not part of this model: a connection
 * attempt's result is an input, the channel is a handle, and the writes
 * and closes are recorded in call order.
 */
module DataProvider {
  import opened Java
  import opened Endpoint

  /** A channel to the data receiver. */
  datatype Channel = Channel(id: nat)

  /** The event loop group the provider is built with. */
  datatype Group = NioEventLoopGroup

  /** One `bootstrap.connect(host, port).sync()`: it connects, is interrupted, or throws something else. */
  datatype ConnectAttempt = Connects(channel: Channel) | Interrupted | Fails

  /** A release in call order: a channel closed, or the group shut down. */
  datatype Release = CloseChannel(channel: Channel) | ShutdownGroup(group: Group)

  /**
   * The pause after each message, `1000 / messagesPerSecond` milliseconds
   * with integer division: the largest whole number of milliseconds that
   * `rate` pauses fit in a second, so 0 above 1000 messages per second.
   */
  function Interval(rate: int): (ms: int)
    requires rate > 0
    ensures 0 <= ms && ms * rate <= 1000 < (ms + 1) * rate
    ensures rate > 1000 ==> ms == 0
  {
    1000 / rate
  }

  /** Each message as written to the channel, with the line terminator. */
  function Lines(messages: seq<string>): (lines: seq<string>)
    ensures |lines| == |messages|
    ensures forall i :: 0 <= i < |messages| ==> lines[i] == messages[i] + "\r\n"
  {
    if messages == [] then [] else Lines(messages[..|messages| - 1]) + [messages[|messages| - 1] + "\r\n"]
  }

  class DataProvider {
    var host: string
    var port: int
    var running: bool
    /** The channel of `channelFuture`, or `None` for null. */
    var channelFuture: Option<Channel>
    var group: Option<Group>
    var messagesPerSecond: int
    /** What was written to the channel, in order. */
    var written: seq<string>
    var released: seq<Release>

    /** The rate is only ever set to a positive value. */
    ghost predicate Valid()
      reads this
    {
      messagesPerSecond > 0
    }

    /** The field initializers. */
    constructor ()
      ensures Valid()
      ensures host == DefaultHost && port == DefaultPort && running && channelFuture == None
      ensures group == Some(NioEventLoopGroup) && messagesPerSecond == 1 && written == [] && released == []
    {
      host := DefaultHost;
      port := DefaultPort;
      running := true;
      channelFuture := None;
      group := Some(NioEventLoopGroup);
      messagesPerSecond := 1;
      written := [];
      released := [];
    }

    /**
     * `setValues`, run by the public constructor: the environment tier when
     * it names both, else the properties tier when it names both; with
     * neither, the initial host and port stay. The host is assigned before
     * the port text is parsed.
     */
    method SetValues(env: map<string, string>, props: map<string, string>) returns (outcome: Outcome)
      modifies this
      ensures running == old(running) && channelFuture == old(channelFuture) && group == old(group)
      ensures messagesPerSecond == old(messagesPerSecond) && written == old(written) && released == old(released)
      ensures var a := AddressOf(env, props);
              && (TierOf(env, props) == Defaults ==> outcome == Normal && host == old(host) && port == old(port))
              && (TierOf(env, props) != Defaults && a.Ok? ==>
                    outcome == Normal && host == a.value.host && port == a.value.port)
              && (a.Throws? ==>
                    outcome == Threw(NumberFormat) && host == HostIn(TierOf(env, props), env, props) && port == old(port))
    {
      if HostEnv in env && PortEnv in env {
        host := env[HostEnv];
        var parsed := ParseInt(Some(env[PortEnv]));
        if parsed.Throws? {
          return Threw(parsed.exception);
        }
        port := parsed.value;
      } else if HostProperty in props && PortProperty in props {
        host := props[HostProperty];
        var parsed := ParseInt(Some(props[PortProperty]));
        if parsed.Throws? {
          return Threw(parsed.exception);
        }
        port := parsed.value;
      }
      outcome := Normal;
    }

    /**
     * `tryToConnect`: connect until an attempt succeeds, then answer true.
     * An interrupted attempt answers false at once; any other failure is
     * followed by a five-second sleep and another attempt. When the script
     * runs out first, the provider is still retrying.
     */
    method TryToConnect(attempts: seq<ConnectAttempt>) returns (progress: Progress<bool>, tries: nat)
      modifies this
      ensures host == old(host) && port == old(port) && running == old(running) && group == old(group)
      ensures messagesPerSecond == old(messagesPerSecond) && written == old(written) && released == old(released)
      ensures tries <= |attempts| && !progress.Raised?
      ensures progress.Retrying? <==> forall k :: 0 <= k < |attempts| ==> attempts[k].Fails?
      ensures progress.Retrying? ==> tries == |attempts|
      ensures progress.Returned? ==>
                0 < tries && !attempts[tries - 1].Fails? && forall k :: 0 <= k < tries - 1 ==> attempts[k].Fails?
      ensures progress == Returned(true) <==> progress.Returned? && attempts[tries - 1].Connects?
      ensures progress == Returned(true) ==> channelFuture == Some(attempts[tries - 1].channel)
      ensures progress != Returned(true) ==> channelFuture == old(channelFuture)
    {
      var connected := false;
      tries := 0;
      while !connected && tries < |attempts|
        invariant tries <= |attempts|
        invariant host == old(host) && port == old(port) && running == old(running) && group == old(group)
        invariant messagesPerSecond == old(messagesPerSecond) && written == old(written) && released == old(released)
        invariant forall k :: 0 <= k < tries - (if connected then 1 else 0) ==> attempts[k].Fails?
        invariant connected ==> 0 < tries && attempts[tries - 1].Connects?
                                && channelFuture == Some(attempts[tries - 1].channel)
        invariant !connected ==> channelFuture == old(channelFuture)
      {
        var attempt := attempts[tries];
        tries := tries + 1;
        match attempt
        case Connects(channel) =>
          channelFuture := Some(channel);
          connected := true;
        case Interrupted =>
          return Returned(false), tries;
        case Fails =>
      }
      progress := if connected then Returned(true) else Retrying;
    }

    /**
     * `sendMessageToReceiver`: the message and a line terminator are
     * written to the channel; without a channel nothing happens.
     */
    method SendMessageToReceiver(message: string)
      modifies this
      ensures host == old(host) && port == old(port) && running == old(running) && group == old(group)
      ensures messagesPerSecond == old(messagesPerSecond) && released == old(released)
      ensures channelFuture == old(channelFuture)
      ensures written == old(written) + if channelFuture.Some? then [message + "\r\n"] else []
    {
      if channelFuture.Some? {
        written := written + [message + "\r\n"];
      }
    }

    /**
     * The first `|messages|` passes of `run`: while `running`, each pass
     * sends one message and then pauses for `Interval(messagesPerSecond)`
     * milliseconds. Nothing in the loop clears `running`, so a running
     * provider makes every pass, and a stopped one none.
     */
    method Run(messages: seq<string>) returns (pauses: seq<int>)
      requires Valid()
      modifies this
      ensures Valid()
      ensures host == old(host) && port == old(port) && running == old(running) && group == old(group)
      ensures messagesPerSecond == old(messagesPerSecond) && released == old(released)
      ensures channelFuture == old(channelFuture)
      ensures !running ==> written == old(written) && pauses == []
      ensures running ==>
                written == old(written) + (if channelFuture.Some? then Lines(messages) else [])
                && |pauses| == |messages|
                && forall i :: 0 <= i < |pauses| ==> pauses[i] == Interval(messagesPerSecond)
    {
      pauses := [];
      var i := 0;
      while running && i < |messages|
        invariant 0 <= i <= |messages| && Valid()
        invariant host == old(host) && port == old(port) && running == old(running) && group == old(group)
        invariant messagesPerSecond == old(messagesPerSecond) && released == old(released)
        invariant channelFuture == old(channelFuture)
        invariant !running ==> written == old(written) && pauses == []
        invariant running ==>
                    written == old(written) + (if channelFuture.Some? then Lines(messages[..i]) else [])
                    && |pauses| == i
                    && forall k :: 0 <= k < i ==> pauses[k] == Interval(messagesPerSecond)
      {
        SendMessageToReceiver(messages[i]);
        assert messages[..i + 1][..i] == messages[..i];
        pauses := pauses + [Interval(messagesPerSecond)];
        i := i + 1;
      }
      assert messages[..|messages|] == messages;
    }

    /**
     * `setMessagesPerSecond`: a rate of zero or less throws
     * IllegalArgumentException and leaves the rate as it was.
     */
    method SetMessagesPerSecond(rate: int) returns (outcome: Outcome)
      requires Valid()
      modifies this
      ensures Valid()
      ensures host == old(host) && port == old(port) && running == old(running) && group == old(group)
      ensures channelFuture == old(channelFuture) && written == old(written) && released == old(released)
      ensures rate <= 0 ==> outcome == Threw(IllegalArgument) && messagesPerSecond == old(messagesPerSecond)
      ensures rate > 0 ==> outcome == Normal && messagesPerSecond == rate
    {
      if rate <= 0 {
        return Threw(IllegalArgument);
      }
      messagesPerSecond := rate;
      outcome := Normal;
    }

    /**
     * `shutdown`: clears `running`, then closes the channel and shuts the
     * group down, each only if present, and sets both to null. So a second
     * call releases nothing.
     */
    method Shutdown()
      modifies this
      ensures host == old(host) && port == old(port) && messagesPerSecond == old(messagesPerSecond)
      ensures written == old(written)
      ensures !running && channelFuture == None && group == None
      ensures released == old(released)
                          + (if old(channelFuture).Some? then [CloseChannel(old(channelFuture).value)] else [])
                          + (if old(group).Some? then [ShutdownGroup(old(group).value)] else [])
    {
      running := false;
      if channelFuture.Some? {
        released := released + [CloseChannel(channelFuture.value)];
        channelFuture := None;
      }
      if group.Some? {
        released := released + [ShutdownGroup(group.value)];
        group := None;
      }
    }
  }
}
