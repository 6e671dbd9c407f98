# AvrMqtt bridge model

A Dafny model of `AvrMqtt`, the bridge between a Pioneer A/V receiver and an
MQTT bus (`examples/avr-mqtt.js`). The bridge:

- derives nine topics from an optional receiver uuid and optional per-topic overrides;
- keeps a cache of the last snapshot of each channel (power, volume, mute,
  source) and a growing map from source id to source name;
- subscribes to four control topics and five query topics (a state topic
  followed by `?`) once the bus connects;
- answers a query by publishing the cached snapshot on the topic named in the
  payload, and turns a control message into one receiver command;
- stores and publishes each receiver event, and re-announces the selected
  source once its name becomes known.

Modules:

- `TopicRegistry` (`topics.dfy`) holds the root and topic derivation. Its pure functions
  have lemmas on layout, fallback and the distinctness of the default topics.
- `Router` (`router.dfy`) holds `indexOf`, the request/control classification and the
  exact-match lookups of state and control topics.
- `StateCache` (`cache.dfy`) holds snapshot values, the cache record and its well-formedness.
- `Protocol` (`protocol.dfy`) holds functions that give each handler's effect on the
  cache and on the publish and command logs, plus lemmas about them.
- `Bridge` (`bridge.dfy`) holds the `AvrMqtt` class. Its fields are the topics, the
  cache, `connected` (a bus client exists) and append-only logs of
  subscriptions, publishes and receiver commands. Each handler is a method
  proved against the `Protocol` function for it.

Payloads are abstract values, not JSON text. A snapshot is `Empty` (the `{}`
each channel starts with) or a record of the channel's shape. A control
payload carries its decoded `value`, or `Unparsable`.

Behaviour a reader might not expect, which the model follows:

- A query for an unknown topic publishes nothing. No `else` branch exists at lines 183-212.
- A malformed control payload makes `JSON.parse` throw; it is not dropped quietly. The
  model reports `threw` and issues no command.
- A topic whose first `?` is at index 0 takes the control path, as does one without `?`.
- When overrides are supplied but lack a field, that topic falls back to
  `/house/av/avr/...`. This happens whatever the uuid is, and the root differs from the
  `/house/lounge/avr/` default (`EmptyPathsFallBack`).
- A reply is published on whatever topic the request's payload names. That
  topic may itself be a query topic. Only the receiver event handlers are kept off
  query topics (`EventsNeverPublishOnQueryTopic`).

## Model

| member | source | states |
|---|---|---|
| TopicRegistry.Root | examples/avr-mqtt.js:25 | the root starts and ends with `/`; with a non-empty uuid it is `/meem/` then the uuid then `/`, otherwise exactly `/house/lounge/avr/`, and only then |
| TopicRegistry.Layout | examples/avr-mqtt.js:27-37 | each default topic is the root followed by the channel name and `/in` or `/out`; `sources` has an out topic only |
| TopicRegistry.Derive | examples/avr-mqtt.js:25-47 | with no overrides, all nine topics are the layout under the uuid-chosen root (no fallback is ever taken); with overrides, a present non-empty field is used verbatim and a missing or empty one becomes `/house/av/avr/<channel>/<in or out>` |
| TopicRegistry.EmptyPathsFallBack | examples/avr-mqtt.js:39-47 | an empty overrides object gives the `/house/av/avr/` layout, independent of the uuid |
| TopicRegistry.LayoutSane | examples/avr-mqtt.js:27-37 | under a root without `?`, all layout topics are non-empty and `?`-free; no two state topics, no two control topics, and no control and state topic coincide |
| TopicRegistry.DefaultTopicsSane | examples/avr-mqtt.js:25-47 | without overrides and with a uuid free of `?`, the derived topics are sane in that sense, so no channel's control topic collides with any state topic |
| Router.IndexOf | examples/avr-mqtt.js:114 | the result is -1 exactly when the character is absent, else the position of its first occurrence |
| Router.Classify | examples/avr-mqtt.js:114-120 | a topic is a request exactly when it contains `?` and does not start with it; the request names the prefix before the first `?` |
| Router.ClassifyQueryTopic | examples/avr-mqtt.js:114-116 | a usable state topic followed by `?` is classified as a request for exactly that state topic |
| Router.ClassifyPlainTopic | examples/avr-mqtt.js:118-120 | a topic without `?` takes the control path |
| Router.LookupOut | examples/avr-mqtt.js:183-212 | the found channel's state topic equals the requested topic and no earlier-tested channel's does; none found exactly when no state topic equals it |
| Router.LookupIn | examples/avr-mqtt.js:223-238 | the found channel is a control channel whose control topic equals the topic and no earlier-tested one's does; none found exactly when no control topic equals it |
| Router.LookupOutOwn | examples/avr-mqtt.js:183-212 | with sane topics, a channel's state topic finds that channel |
| Router.LookupInOwn | examples/avr-mqtt.js:223-238 | with sane topics, a channel's control topic finds that channel |
| Protocol.OnEvent | examples/avr-mqtt.js:124-171 | each event publishes first on its own channel's state topic; only `inputName` publishes a second time, on the source topic; no known source id is dropped |
| Protocol.Answer | examples/avr-mqtt.js:183-212 | at most one publish, on the reply topic, carrying the snapshot of a channel whose state topic was requested; nothing exactly when no state topic matches |
| Protocol.ControlEffect | examples/avr-mqtt.js:223-238 | never publishes; at most one command; a command or a throw exactly when the topic is a control topic, a throw only for an unparsable payload, never both |
| Protocol.Dispatch | examples/avr-mqtt.js:114-120 | each message has at most one outcome (a reply, a command or a throw), and a reply goes to the payload's topic and only for a topic containing `?` |
| Protocol.SubscriptionTopics | examples/avr-mqtt.js:62-72 | nine subscriptions: the four control topics in order, then the five state topics each followed by `?` |
| Protocol.EventReplacesOwnChannel | examples/avr-mqtt.js:124-151 | a power, volume, mute or input event sets its own channel to `{value}`, `{value: db, unit: "dB"}`, `{value}` or `{value: id, name}`, leaves every other channel unchanged, and publishes that snapshot once on the channel's state topic |
| Protocol.InputNameEffect | examples/avr-mqtt.js:152-171 | `inputName` sets `sources[id]` and keeps all other entries; it first publishes the whole map on the sources topic; it publishes a second time, `{value: id, name}` on the source topic, exactly when `id` is the selected source, and only then does the source snapshot change |
| Protocol.EventKeepsWellFormed | examples/avr-mqtt.js:124-171 | every event keeps each channel either `{}` or a snapshot of its own shape |
| Protocol.SourcesNeverShrink | examples/avr-mqtt.js:157 | over any run of events the set of known source ids only grows, and every id reported by `inputName` stays known |
| Protocol.CorrelationScenario | examples/avr-mqtt.js:145-171 | `input(id, n0)` then `inputName(id, name)` ends with source `{value: id, name}` and publishes source, sources, then source again with the learned name |
| Protocol.ContentRequestEffect | examples/avr-mqtt.js:175-213 | a request issues no command and publishes nothing when no state topic matches; otherwise it publishes once, on the payload topic, the snapshot of the first matching channel |
| Protocol.ControlInputEffect | examples/avr-mqtt.js:220-240 | a control message never publishes; it issues at most one command, exactly when its topic is a control topic and the payload parses, and it throws exactly when the payload on a control topic does not parse |
| Protocol.UnknownTopicIgnored | examples/avr-mqtt.js:239 | a `?`-free message on no control topic has no effect |
| Protocol.AnswerFitsChannel | examples/avr-mqtt.js:183-212 | from a well-formed cache, a reply is `{}` or has the shape of the channel asked for (a volume reply carries unit `dB`) |
| Protocol.EventsNeverPublishOnQueryTopic | examples/avr-mqtt.js:124-171 | with sane topics, no event publish carries `?`, so none lands on a query topic |
| Protocol.QueryRoundTrip | examples/avr-mqtt.js:175-212 | with sane topics, a message on a channel's query topic publishes exactly that channel's cached snapshot, once, on the payload's topic |
| Protocol.ControlRoundTrip | examples/avr-mqtt.js:223-238 | with sane topics, a message on a channel's control topic issues exactly that channel's command with the payload's value, or throws if it does not parse |
| Protocol.SubscriptionsUnderstood | examples/avr-mqtt.js:59-74 | with sane topics, each subscribed control topic yields a command or a throw, and each subscribed query topic yields exactly one reply on the payload topic |
| Bridge.AvrMqtt.constructor | examples/avr-mqtt.js:20-57 | topics derived from the options or the built-in defaults, every snapshot `{}`, no sources, no bus client, empty logs |
| Bridge.AvrMqtt.AttachClient | examples/avr-mqtt.js:85-88 | after the receiver connects, a bus client exists |
| Bridge.AvrMqtt.Subscribe | examples/avr-mqtt.js:59-74 | with a client, the nine subscriptions of `SubscriptionTopics` are appended; without one, nothing |
| Bridge.AvrMqtt.OnPower | examples/avr-mqtt.js:124-130 | new cache and appended publish as `OnEvent` gives for a power event; cache stays well formed |
| Bridge.AvrMqtt.OnVolume | examples/avr-mqtt.js:131-137 | the same for a volume event |
| Bridge.AvrMqtt.OnMute | examples/avr-mqtt.js:138-144 | the same for a mute event |
| Bridge.AvrMqtt.OnInput | examples/avr-mqtt.js:145-151 | the same for an input event |
| Bridge.AvrMqtt.OnInputName | examples/avr-mqtt.js:152-171 | the same for an `inputName` event; the known source ids only grow |
| Bridge.AvrMqtt.HandleContentRequest | examples/avr-mqtt.js:175-213 | appends the reply `Answer` gives for the prefix before the first `?`, and nothing else; the reply fits the channel asked for; the cache is unchanged |
| Bridge.AvrMqtt.HandleInput | examples/avr-mqtt.js:220-240 | appends the command `ControlEffect` gives and reports whether parsing threw; nothing is published, the cache is unchanged |
| Bridge.AvrMqtt.OnMessage | examples/avr-mqtt.js:107-121 | appends exactly the publishes and commands `Dispatch` gives for the message; the cache is unchanged |
| Bridge.VolumeQueryAfterEvent | examples/avr-mqtt.js:107-137 | with default topics, after a volume event a query on the volume query topic replies `{value: db, unit: "dB"}` once, and a power control message sends one power command |

## Left out

- MQTT client creation, its keepalive option and the random client id (lines 83-88) are I/O and randomness. Only `connected` is modelled.
- The receiver driver `pioneer-avr` (lines 1, 51-54) is not part of this model. Its events are direct method calls on a connected bridge, and its commands are entries in the command log.
- Handlers are registered asynchronously and again on every receiver connect (lines 52-54, 124-171). A reconnect would therefore make each event publish more than once; the model handles each event exactly once.
- The `close` and `error` handlers and all `TRACE` console output (lines 78-80, 97-106, 109-111, 154-156, 180-211) only log.
- JSON text is not modelled. Published payloads are `Snapshot` values. A control payload is its decoded `value` field or `Unparsable`, and `Unparsable` also stands for a document such as `null` whose `.value` read throws.
- After a throw, the exception leaves the message listener; what the bus library then does is not modelled.
- JavaScript loose equality at line 164 is not modelled (`7 == "7"`, `null == undefined`). Ids compare by plain equality, and a source never set matches no id.
- The string coercion of object keys at line 157 is not modelled. `sources` is a map keyed by `Value`, so `7` and `"7"` are different keys.
- Construction writes the default overrides back into the caller's options object (line 27). That mutation is not modelled. Options without a `vsx` field, or a non-string uuid, are not modelled either.
- The re-export of the driver's `Inputs` table (line 243) is not modelled.
