/**
 * What the bridge does in response to receiver events and bus messages, as
 * functions of the topics and the cache: the snapshot each event stores and
 * publishes, the reply to a state request, and the command a control input
 * issues. The `Bridge.AvrMqtt` methods are proved against these.
 */
module Protocol {
  import opened Wrappers
  import opened TopicRegistry
  import opened Router
  import opened StateCache

  /** Events emitted by the receiver driver. */
  datatype Event =
    | PowerEvent(value: Value)
    | VolumeEvent(db: Value)
    | MuteEvent(value: Value)
    | InputEvent(id: Value, name: Value)
    | InputNameEvent(id: Value, name: Value)

  /** One message the bridge publishes. */
  datatype Publish = Publish(topic: string, payload: Snapshot)

  /** Commands sent to the receiver driver. */
  datatype Command =
    | PowerCommand(value: Value)
    | VolumeCommand(value: Value)
    | MuteCommand(value: Value)
    | SelectInput(value: Value)

  /**
   * The `value` field of a control payload once parsed as JSON, or
   * `Unparsable` when parsing (or reading the field) throws.
   */
  datatype Decoded = Unparsable | Parsed(value: Value)

  /** An inbound payload: its text (a reply topic for requests) and its JSON reading. */
  datatype Payload = Payload(text: string, decoded: Decoded)

  /** The new cache and the messages published by one event. */
  datatype Step = Step(state: State, out: seq<Publish>)

  /** What one inbound message causes; it never changes the cache. */
  datatype Effect = Effect(out: seq<Publish>, commands: seq<Command>, threw: bool)

  /** The channel an event reports on. */
  function ChannelOf(ev: Event): Channel {
    match ev
    case PowerEvent(_) => Power
    case VolumeEvent(_) => Volume
    case MuteEvent(_) => Mute
    case InputEvent(_, _) => Source
    case InputNameEvent(_, _) => Sources
  }

  /** The snapshot a power, volume, mute or input event carries. */
  function EventSnapshot(ev: Event): Snapshot
    requires !ev.InputNameEvent?
  {
    match ev
    case PowerEvent(v) => PowerState(v)
    case VolumeEvent(db) => VolumeState(db, "dB")
    case MuteEvent(v) => MuteState(v)
    case InputEvent(id, name) => SourceState(id, name)
  }

  /**
   * The receiver event handlers. Each event publishes once on its own
   * channel's state topic; only `inputName` may publish a second time, on the
   * source topic. No known source name is ever forgotten.
   */
  function OnEvent(t: Topics, s: State, ev: Event): (r: Step)
    ensures 1 <= |r.out| <= 2
    ensures r.out[0].topic == OutTopic(t, ChannelOf(ev))
    ensures |r.out| == 2 ==> ev.InputNameEvent? && r.out[1].topic == t.sourceOut
    ensures s.sources.Keys <= r.state.sources.Keys
  {
    match ev
    case PowerEvent(v) =>
      var s' := s.(power := PowerState(v));
      Step(s', [Publish(t.powerOut, s'.power)])
    case VolumeEvent(db) =>
      var s' := s.(volume := VolumeState(db, "dB"));
      Step(s', [Publish(t.volumeOut, s'.volume)])
    case MuteEvent(v) =>
      var s' := s.(mute := MuteState(v));
      Step(s', [Publish(t.muteOut, s'.mute)])
    case InputEvent(id, name) =>
      var s' := s.(source := SourceState(id, name));
      Step(s', [Publish(t.sourceOut, s'.source)])
    case InputNameEvent(id, name) =>
      var s1 := s.(sources := s.sources[id := name]);
      var out1 := [Publish(t.sourcesOut, SourceNames(s1.sources))];
      if s1.source.SourceState? && s1.source.value == id then
        var s2 := s1.(source := SourceState(id, name));
        Step(s2, out1 + [Publish(t.sourceOut, s2.source)])
      else
        Step(s1, out1)
  }

  /** A run of receiver events, handled in order. */
  function RunEvents(t: Topics, s: State, evs: seq<Event>): Step
    decreases |evs|
  {
    if evs == [] then Step(s, [])
    else
      var first := OnEvent(t, s, evs[0]);
      var rest := RunEvents(t, first.state, evs[1..]);
      Step(rest.state, first.out + rest.out)
  }

  /**
   * The reply to a request for `requested`: one publish on `reply` carrying
   * the snapshot of a channel whose state topic was requested, or nothing
   * when no state topic matches.
   */
  function Answer(t: Topics, s: State, requested: string, reply: string): (r: seq<Publish>)
    ensures |r| <= 1
    ensures r == [] <==> forall ch :: OutTopic(t, ch) != requested
    ensures r != [] ==> r[0].topic == reply
    ensures r != [] ==> exists ch :: OutTopic(t, ch) == requested && r[0].payload == Read(s, ch)
  {
    match LookupOut(t, requested)
    case Some(ch) => [Publish(reply, Read(s, ch))]
    case None => []
  }

  /** The receiver command a control channel maps to. */
  function CommandFor(ch: Channel, v: Value): Command
    requires ch != Sources
  {
    match ch
    case Power => PowerCommand(v)
    case Volume => VolumeCommand(v)
    case Mute => MuteCommand(v)
    case Source => SelectInput(v)
  }

  /**
   * A control input: on a control topic, one command or (payload not
   * parsable) a throw; elsewhere nothing. It never publishes.
   */
  function ControlEffect(t: Topics, topic: string, d: Decoded): (e: Effect)
    ensures e.out == [] && |e.commands| <= 1
    ensures !(e.threw && e.commands != [])
    ensures (e.threw || e.commands != []) <==> exists ch | ch != Sources :: InTopic(t, ch) == topic
    ensures e.threw ==> d.Unparsable?
  {
    match LookupIn(t, topic)
    case None => Effect([], [], false)
    case Some(ch) =>
      if d.Unparsable? then Effect([], [], true)
      else Effect([], [CommandFor(ch, d.value)], false)
  }

  /**
   * The bus message listener. A message has at most one outcome: a reply on
   * the payload's topic, a command, or a throw; replies only answer topics
   * containing the query mark.
   */
  function Dispatch(t: Topics, s: State, topic: string, p: Payload): (e: Effect)
    ensures |e.out| + |e.commands| + (if e.threw then 1 else 0) <= 1
    ensures e.out != [] ==> QueryMark in topic && e.out[0].topic == p.text
  {
    match Classify(topic)
    case ContentRequest(requested) => Effect(Answer(t, s, requested, p.text), [], false)
    case ControlInput => ControlEffect(t, topic, p.decoded)
  }

  /** The subscriptions made once the bus connects, in the order they are made. */
  function SubscriptionTopics(t: Topics): (r: seq<string>)
    ensures |r| == 9
    ensures forall ch | ch != Sources :: r[Rank(ch)] == InTopic(t, ch)
    ensures forall ch :: r[4 + Rank(ch)] == QueryTopic(OutTopic(t, ch))
  {
    [t.powerIn, t.volumeIn, t.muteIn, t.sourceIn,
     QueryTopic(t.powerOut), QueryTopic(t.volumeOut), QueryTopic(t.muteOut),
     QueryTopic(t.sourceOut), QueryTopic(t.sourcesOut)]
  }

  /**
   * A power, volume, mute or input event stores its snapshot in its own
   * channel only and publishes it once on that channel's state topic.
   */
  lemma EventReplacesOwnChannel(t: Topics, s: State, ev: Event)
    requires !ev.InputNameEvent?
    ensures var r := OnEvent(t, s, ev);
      && Read(r.state, ChannelOf(ev)) == EventSnapshot(ev)
      && (forall ch | ch != ChannelOf(ev) :: Read(r.state, ch) == Read(s, ch))
      && r.out == [Publish(OutTopic(t, ChannelOf(ev)), EventSnapshot(ev))]
  {
  }

  /**
   * `inputName` adds one entry to the source names and publishes the map; it
   * re-publishes the source snapshot, with the new name, exactly when that id
   * is the selected source.
   */
  lemma InputNameEffect(t: Topics, s: State, id: Value, name: Value)
    ensures var r := OnEvent(t, s, InputNameEvent(id, name));
      && r.state.sources == s.sources[id := name]
      && s.sources.Keys <= r.state.sources.Keys
      && r.state.power == s.power && r.state.volume == s.volume && r.state.mute == s.mute
      && 1 <= |r.out| <= 2
      && r.out[0] == Publish(t.sourcesOut, SourceNames(r.state.sources))
      && (|r.out| == 2 <==> SelectedSource(s) == Some(id))
      && (SelectedSource(s) == Some(id) ==>
            r.state.source == SourceState(id, name) &&
            r.out[1] == Publish(t.sourceOut, SourceState(id, name)))
      && (SelectedSource(s) != Some(id) ==> r.state.source == s.source)
  {
  }

  /** Every event keeps each channel in its own shape. */
  lemma EventKeepsWellFormed(t: Topics, s: State, ev: Event)
    requires WellFormed(s)
    ensures WellFormed(OnEvent(t, s, ev).state)
  {
  }

  /**
   * Over any run of events the source names only grow, and every id that an
   * `inputName` event reported stays known.
   */
  lemma {:induction false} SourcesNeverShrink(t: Topics, s: State, evs: seq<Event>)
    ensures s.sources.Keys <= RunEvents(t, s, evs).state.sources.Keys
    ensures forall i | 0 <= i < |evs| && evs[i].InputNameEvent? ::
      evs[i].id in RunEvents(t, s, evs).state.sources
    decreases |evs|
  {
    if evs != [] {
      var first := OnEvent(t, s, evs[0]);
      SourcesNeverShrink(t, first.state, evs[1..]);
      assert s.sources.Keys <= first.state.sources.Keys;
      forall i | 0 <= i < |evs| && evs[i].InputNameEvent?
        ensures evs[i].id in RunEvents(t, s, evs).state.sources
      {
        if i > 0 {
          assert evs[i] == evs[1..][i - 1];
        }
      }
    }
  }

  /**
   * The correlation rule: a source selected before its name is known is
   * re-published with the name once `inputName` for that id arrives.
   */
  lemma CorrelationScenario(t: Topics, s: State, id: Value, early: Value, name: Value)
    ensures var names := s.sources[id := name];
      RunEvents(t, s, [InputEvent(id, early), InputNameEvent(id, name)]) ==
      Step(s.(source := SourceState(id, name), sources := names),
           [Publish(t.sourceOut, SourceState(id, early)),
            Publish(t.sourcesOut, SourceNames(names)),
            Publish(t.sourceOut, SourceState(id, name))])
  {
    var evs := [InputEvent(id, early), InputNameEvent(id, name)];
    var first := OnEvent(t, s, evs[0]);
    assert first.state == s.(source := SourceState(id, early));
    assert evs[1..] == [InputNameEvent(id, name)];
    var second := OnEvent(t, first.state, evs[1]);
    assert RunEvents(t, second.state, evs[1..][1..]) == Step(second.state, []);
    assert RunEvents(t, first.state, evs[1..]) == Step(second.state, second.out);
  }

  /**
   * A request publishes at most once, on the reply topic, the snapshot of the
   * channel whose state topic was named; it issues no command.
   */
  lemma ContentRequestEffect(t: Topics, s: State, topic: string, p: Payload)
    requires Classify(topic).ContentRequest?
    ensures var e := Dispatch(t, s, topic, p);
      var requested := Classify(topic).requested;
      && e.commands == [] && !e.threw
      && (e.out == [] <==> forall ch :: OutTopic(t, ch) != requested)
      && forall ch | OutTopic(t, ch) == requested && (forall c | Rank(c) < Rank(ch) :: OutTopic(t, c) != requested) ::
           e.out == [Publish(p.text, Read(s, ch))]
  {
  }

  /**
   * A control input never publishes; it issues one command exactly when its
   * topic is a control topic with a parsable payload, and throws when the
   * payload on a control topic cannot be parsed.
   */
  lemma ControlInputEffect(t: Topics, s: State, topic: string, p: Payload)
    requires Classify(topic).ControlInput?
    ensures var e := Dispatch(t, s, topic, p);
      && e.out == []
      && |e.commands| <= 1
      && (|e.commands| == 1 <==> LookupIn(t, topic).Some? && p.decoded.Parsed?)
      && (e.threw <==> LookupIn(t, topic).Some? && p.decoded.Unparsable?)
      && (|e.commands| == 1 ==> e.commands[0] == CommandFor(LookupIn(t, topic).value, p.decoded.value))
  {
  }

  /** A message on a topic the bridge does not know does nothing. */
  lemma UnknownTopicIgnored(t: Topics, s: State, topic: string, p: Payload)
    requires QueryMark !in topic
    requires forall ch | ch != Sources :: InTopic(t, ch) != topic
    ensures Dispatch(t, s, topic, p) == Effect([], [], false)
  {
  }

  /** A query on a channel's state topic is answered with that channel's snapshot. */
  lemma QueryRoundTrip(t: Topics, s: State, ch: Channel, p: Payload)
    requires Sane(t)
    ensures Dispatch(t, s, QueryTopic(OutTopic(t, ch)), p) == Effect([Publish(p.text, Read(s, ch))], [], false)
  {
  }

  /** A message on a channel's control topic becomes that channel's command. */
  lemma ControlRoundTrip(t: Topics, s: State, ch: Channel, p: Payload)
    requires Sane(t) && ch != Sources
    ensures Dispatch(t, s, InTopic(t, ch), p) ==
      if p.decoded.Parsed? then Effect([], [CommandFor(ch, p.decoded.value)], false)
      else Effect([], [], true)
  {
  }

  /**
   * Every topic the bridge subscribes to is understood: each control
   * subscription yields a command (or a throw), each query subscription
   * exactly one reply on the payload's topic.
   */
  lemma SubscriptionsUnderstood(t: Topics, s: State, k: nat, p: Payload)
    requires Sane(t) && k < 9
    ensures var e := Dispatch(t, s, SubscriptionTopics(t)[k], p);
      && (k < 4 ==> e.out == [] && (|e.commands| == 1 || e.threw))
      && (4 <= k ==> e.commands == [] && |e.out| == 1 && e.out[0].topic == p.text)
  {
    var chs := [Power, Volume, Mute, Source, Sources];
    var ch := if k < 4 then chs[k] else chs[k - 4];
    if k < 4 {
      assert SubscriptionTopics(t)[k] == InTopic(t, ch);
      ControlRoundTrip(t, s, ch, p);
    } else {
      assert SubscriptionTopics(t)[k] == QueryTopic(OutTopic(t, ch));
      QueryRoundTrip(t, s, ch, p);
    }
  }

  /** A snapshot is `{}` or has the shape of the given channel. */
  predicate Fits(ch: Channel, snap: Snapshot) {
    match ch
    case Power => snap.Empty? || snap.PowerState?
    case Volume => snap.Empty? || (snap.VolumeState? && snap.unit == "dB")
    case Mute => snap.Empty? || snap.MuteState?
    case Source => snap.Empty? || snap.SourceState?
    case Sources => snap.SourceNames?
  }

  /** A reply from a well-formed cache has the shape of the channel that was asked for. */
  lemma AnswerFitsChannel(t: Topics, s: State, requested: string, reply: string)
    requires WellFormed(s)
    ensures forall ch, p | p in Answer(t, s, requested, reply) && LookupOut(t, requested) == Some(ch) ::
      Fits(ch, p.payload)
  {
  }

  /**
   * Query topics are never published to by the receiver handlers: with sane
   * topics no event publish carries the query mark, so none is a query topic.
   */
  lemma EventsNeverPublishOnQueryTopic(t: Topics, s: State, ev: Event)
    requires Sane(t)
    ensures forall p | p in OnEvent(t, s, ev).out :: QueryMark !in p.topic
    ensures forall p, x | p in OnEvent(t, s, ev).out :: p.topic != QueryTopic(x)
  {
    var r := OnEvent(t, s, ev);
    assert TopicOk(OutTopic(t, ChannelOf(ev))) && TopicOk(OutTopic(t, Source));
    forall p, x | p in r.out ensures p.topic != QueryTopic(x) {
      assert QueryTopic(x)[|x|] == QueryMark;
    }
  }
}
