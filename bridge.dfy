/**
 * The `AvrMqtt` bridge object: its topics, its state cache, whether it has a
 * bus client, and the logs of what it has subscribed to, published and sent
 * to the receiver. Each method changes these the way the corresponding
 * handler does, as given by the `Protocol` functions.
 */
module Bridge {
  import opened Wrappers
  import opened TopicRegistry
  import opened Router
  import opened StateCache
  import opened Protocol

  class AvrMqtt {
    const topics: Topics
    var state: State
    /** Stands for `mqttClient != null`. */
    var connected: bool
    var subscriptions: seq<string>
    var published: seq<Publish>
    var commands: seq<Command>

    ghost predicate Valid()
      reads this
    {
      WellFormed(state)
    }

    /** Topics from the options (or the built-in ones), every snapshot `{}`, no client. */
    constructor (options: Option<Options>)
      ensures Valid()
      ensures topics == Derive(if options.Some? then options.value else DefaultOptions)
      ensures state == Initial && !connected
      ensures subscriptions == [] && published == [] && commands == []
    {
      var opts := if options.Some? then options.value else DefaultOptions;
      topics := Derive(opts);
      state := Initial;
      connected := false;
      subscriptions := [];
      published := [];
      commands := [];
    }

    /** The receiver connected: the bus client is created. */
    method AttachClient()
      modifies this`connected
      ensures connected
    {
      connected := true;
    }

    /** With a client, subscribe to the four control topics and the five query topics. */
    method Subscribe()
      modifies this`subscriptions
      ensures subscriptions == old(subscriptions) + (if connected then SubscriptionTopics(topics) else [])
    {
      if connected {
        subscriptions := subscriptions + [topics.powerIn];
        subscriptions := subscriptions + [topics.volumeIn];
        subscriptions := subscriptions + [topics.muteIn];
        subscriptions := subscriptions + [topics.sourceIn];
        subscriptions := subscriptions + [QueryTopic(topics.powerOut)];
        subscriptions := subscriptions + [QueryTopic(topics.volumeOut)];
        subscriptions := subscriptions + [QueryTopic(topics.muteOut)];
        subscriptions := subscriptions + [QueryTopic(topics.sourceOut)];
        subscriptions := subscriptions + [QueryTopic(topics.sourcesOut)];
      }
    }

    method OnPower(value: Value)
      requires Valid() && connected
      modifies this`state, this`published
      ensures Valid()
      ensures state == OnEvent(topics, old(state), PowerEvent(value)).state
      ensures published == old(published) + OnEvent(topics, old(state), PowerEvent(value)).out
    {
      state := state.(power := PowerState(value));
      published := published + [Publish(topics.powerOut, state.power)];
    }

    method OnVolume(db: Value)
      requires Valid() && connected
      modifies this`state, this`published
      ensures Valid()
      ensures state == OnEvent(topics, old(state), VolumeEvent(db)).state
      ensures published == old(published) + OnEvent(topics, old(state), VolumeEvent(db)).out
    {
      state := state.(volume := VolumeState(db, "dB"));
      published := published + [Publish(topics.volumeOut, state.volume)];
    }

    method OnMute(value: Value)
      requires Valid() && connected
      modifies this`state, this`published
      ensures Valid()
      ensures state == OnEvent(topics, old(state), MuteEvent(value)).state
      ensures published == old(published) + OnEvent(topics, old(state), MuteEvent(value)).out
    {
      state := state.(mute := MuteState(value));
      published := published + [Publish(topics.muteOut, state.mute)];
    }

    method OnInput(id: Value, name: Value)
      requires Valid() && connected
      modifies this`state, this`published
      ensures Valid()
      ensures state == OnEvent(topics, old(state), InputEvent(id, name)).state
      ensures published == old(published) + OnEvent(topics, old(state), InputEvent(id, name)).out
    {
      state := state.(source := SourceState(id, name));
      published := published + [Publish(topics.sourceOut, state.source)];
    }

    /** Learn a source name; re-announce the selected source when it is this id. */
    method OnInputName(id: Value, name: Value)
      requires Valid() && connected
      modifies this`state, this`published
      ensures Valid()
      ensures state == OnEvent(topics, old(state), InputNameEvent(id, name)).state
      ensures published == old(published) + OnEvent(topics, old(state), InputNameEvent(id, name)).out
      ensures old(state.sources).Keys <= state.sources.Keys
    {
      state := state.(sources := state.sources[id := name]);
      published := published + [Publish(topics.sourcesOut, SourceNames(state.sources))];
      if state.source.SourceState? && state.source.value == id {
        state := state.(source := SourceState(id, name));
        published := published + [Publish(topics.sourceOut, state.source)];
      }
    }

    /**
     * Answer a request: publish the named channel's snapshot on the reply
     * topic, if any. The reply has the shape of the channel asked for (a
     * volume reply is `{}` or carries the unit "dB").
     */
    method HandleContentRequest(topic: string, payload: string)
      requires Valid() && connected && IndexOf(topic, QueryMark) > 0
      modifies this`published
      ensures published == old(published) + Answer(topics, state, topic[..IndexOf(topic, QueryMark)], payload)
      ensures forall ch, p | p in published[|old(published)|..] &&
                            LookupOut(topics, topic[..IndexOf(topic, QueryMark)]) == Some(ch) ::
        Fits(ch, p.payload)
    {
      var i := IndexOf(topic, QueryMark);
      var requestTopic := topic[..i];
      var responseTopic := payload;
      if requestTopic == topics.powerOut {
        published := published + [Publish(responseTopic, state.power)];
      } else if requestTopic == topics.volumeOut {
        published := published + [Publish(responseTopic, state.volume)];
      } else if requestTopic == topics.muteOut {
        published := published + [Publish(responseTopic, state.mute)];
      } else if requestTopic == topics.sourceOut {
        published := published + [Publish(responseTopic, state.source)];
      } else if requestTopic == topics.sourcesOut {
        published := published + [Publish(responseTopic, SourceNames(state.sources))];
      }
      AnswerFitsChannel(topics, state, requestTopic, responseTopic);
      assert published[|old(published)|..] == Answer(topics, state, requestTopic, responseTopic);
    }

    /** Forward a control input to the receiver; `threw` when its payload does not parse. */
    method HandleInput(topic: string, payload: Decoded) returns (threw: bool)
      modifies this`commands
      ensures commands == old(commands) + ControlEffect(topics, topic, payload).commands
      ensures threw == ControlEffect(topics, topic, payload).threw
    {
      threw := false;
      if topic == topics.powerIn {
        if payload.Unparsable? { threw := true; } else { commands := commands + [PowerCommand(payload.value)]; }
      } else if topic == topics.volumeIn {
        if payload.Unparsable? { threw := true; } else { commands := commands + [VolumeCommand(payload.value)]; }
      } else if topic == topics.muteIn {
        if payload.Unparsable? { threw := true; } else { commands := commands + [MuteCommand(payload.value)]; }
      } else if topic == topics.sourceIn {
        if payload.Unparsable? { threw := true; } else { commands := commands + [SelectInput(payload.value)]; }
      }
    }

    /** The bus message listener: route to the request or the control handler. */
    method OnMessage(topic: string, payload: Payload) returns (threw: bool)
      requires Valid() && connected
      modifies this`published, this`commands
      ensures published == old(published) + Dispatch(topics, state, topic, payload).out
      ensures commands == old(commands) + Dispatch(topics, state, topic, payload).commands
      ensures threw == Dispatch(topics, state, topic, payload).threw
    {
      var i := IndexOf(topic, QueryMark);
      if i > 0 {
        HandleContentRequest(topic, payload.text);
        threw := false;
      } else {
        threw := HandleInput(topic, payload.decoded);
      }
    }
  }

  /**
   * A client of the bridge: once connected and subscribed, a query on the
   * volume state topic after a volume event is answered with that event's
   * snapshot, and a power control input reaches the receiver.
   */
  method VolumeQueryAfterEvent(uuid: Option<string>, db: Value, reply: string, on: Value)
    returns (replies: seq<Publish>, sent: seq<Command>)
    requires Truthy(uuid) ==> '?' !in uuid.value
    ensures replies == [Publish(reply, VolumeState(db, "dB"))]
    ensures sent == [PowerCommand(on)]
  {
    var bridge := new AvrMqtt(Some(Options(uuid, None)));
    DefaultTopicsSane(uuid);
    var t := bridge.topics;
    assert Sane(t);
    bridge.AttachClient();
    bridge.Subscribe();
    bridge.OnVolume(db);
    assert bridge.state.volume == VolumeState(db, "dB") && bridge.commands == [];
    var query := Payload(reply, Unparsable);
    QueryRoundTrip(t, bridge.state, Volume, query);
    var before := bridge.published;
    var threw := bridge.OnMessage(QueryTopic(t.volumeOut), query);
    replies := bridge.published[|before|..];
    var control := Payload("", Parsed(on));
    ControlRoundTrip(t, bridge.state, Power, control);
    threw := bridge.OnMessage(t.powerIn, control);
    sent := bridge.commands;
  }
}
