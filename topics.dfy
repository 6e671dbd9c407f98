/**
 * Topic derivation of the bridge: the root prefix chosen from the optional
 * receiver uuid, and the nine in/out topics, each taken from the configured
 * overrides or falling back to a fixed default.
 */
module TopicRegistry {
  import opened Wrappers

  /** The five channels; `Sources` has an out topic only. */
  datatype Channel = Power | Volume | Mute | Source | Sources

  /** Per-topic overrides (`options.mqttPaths`); a field may be missing. */
  datatype Paths = Paths(
    powerIn: Option<string>, powerOut: Option<string>,
    volumeIn: Option<string>, volumeOut: Option<string>,
    muteIn: Option<string>, muteOut: Option<string>,
    sourceIn: Option<string>, sourceOut: Option<string>,
    sourcesOut: Option<string>)

  /** The part of the bridge options that decides the topics. */
  datatype Options = Options(uuid: Option<string>, mqttPaths: Option<Paths>)

  /** The built-in options have neither a uuid nor path overrides. */
  const DefaultOptions: Options := Options(None, None)

  /** The nine topics the bridge subscribes and publishes on. */
  datatype Topics = Topics(
    powerIn: string, powerOut: string,
    volumeIn: string, volumeOut: string,
    muteIn: string, muteOut: string,
    sourceIn: string, sourceOut: string,
    sourcesOut: string)

  const MeemPrefix: string := "/meem/"
  const LoungeRoot: string := "/house/lounge/avr/"
  const FallbackRoot: string := "/house/av/avr/"

  /** A JavaScript string option is truthy when it is present and not empty. */
  predicate Truthy(o: Option<string>) {
    o.Some? && o.value != ""
  }

  /** `o || fallback` on an optional string. */
  function OrElse(o: Option<string>, fallback: string): string {
    if Truthy(o) then o.value else fallback
  }

  /** The root prefix: under /meem/ when a uuid is configured, else the lounge default. */
  function Root(uuid: Option<string>): (r: string)
    ensures |r| > 0 && r[0] == '/' && r[|r| - 1] == '/'
    ensures Truthy(uuid) ==>
      |r| == |MeemPrefix| + |uuid.value| + 1 &&
      r[..|MeemPrefix|] == MeemPrefix && r[|MeemPrefix|..|r| - 1] == uuid.value
    ensures !Truthy(uuid) ==> r == LoungeRoot
    ensures r == LoungeRoot ==> !Truthy(uuid)
  {
    if Truthy(uuid) then
      var r := MeemPrefix + uuid.value + "/";
      assert r[..|MeemPrefix|] == MeemPrefix;
      assert r[|MeemPrefix|..|r| - 1] == uuid.value;
      assert r[1] == 'm';
      r
    else LoungeRoot
  }

  /** The standard topic layout under a root: root + channel + "/in" or "/out". */
  function Layout(root: string): (t: Topics)
    ensures forall ch :: OutTopic(t, ch) == root + (ChannelName(ch) + "/out")
    ensures forall ch | ch != Sources :: InTopic(t, ch) == root + (ChannelName(ch) + "/in")
  {
    Topics(
      root + "power/in", root + "power/out",
      root + "volume/in", root + "volume/out",
      root + "mute/in", root + "mute/out",
      root + "source/in", root + "source/out",
      root + "sources/out")
  }

  /** The overrides object built when none is supplied: every field set from the layout. */
  function DefaultPaths(root: string): Paths {
    var l := Layout(root);
    Paths(
      Some(l.powerIn), Some(l.powerOut),
      Some(l.volumeIn), Some(l.volumeOut),
      Some(l.muteIn), Some(l.muteOut),
      Some(l.sourceIn), Some(l.sourceOut),
      Some(l.sourcesOut))
  }

  /** The overrides object with no field set. */
  const NoPaths: Paths := Paths(None, None, None, None, None, None, None, None, None)

  /**
   * The topics of a bridge constructed with `options`. Without overrides
   * every topic sits under the root chosen from the uuid. With overrides, a
   * present field is used verbatim and a missing one falls back to the fixed
   * /house/av/avr/ layout, whatever the uuid.
   */
  function Derive(options: Options): (t: Topics)
    ensures options.mqttPaths.None? ==> t == Layout(Root(options.uuid))
    ensures options.mqttPaths.Some? ==> forall ch :: Truthy(OutOverride(options.mqttPaths.value, ch)) ==>
      OutTopic(t, ch) == OutOverride(options.mqttPaths.value, ch).value
    ensures options.mqttPaths.Some? ==> forall ch :: !Truthy(OutOverride(options.mqttPaths.value, ch)) ==>
      OutTopic(t, ch) == FallbackRoot + (ChannelName(ch) + "/out")
    ensures options.mqttPaths.Some? ==> forall ch | ch != Sources && Truthy(InOverride(options.mqttPaths.value, ch)) ::
      InTopic(t, ch) == InOverride(options.mqttPaths.value, ch).value
    ensures options.mqttPaths.Some? ==> forall ch | ch != Sources && !Truthy(InOverride(options.mqttPaths.value, ch)) ::
      InTopic(t, ch) == FallbackRoot + (ChannelName(ch) + "/in")
  {
    var p := if options.mqttPaths.Some? then options.mqttPaths.value
             else DefaultPaths(Root(options.uuid));
    var fb := Layout(FallbackRoot);
    Topics(
      OrElse(p.powerIn, fb.powerIn), OrElse(p.powerOut, fb.powerOut),
      OrElse(p.volumeIn, fb.volumeIn), OrElse(p.volumeOut, fb.volumeOut),
      OrElse(p.muteIn, fb.muteIn), OrElse(p.muteOut, fb.muteOut),
      OrElse(p.sourceIn, fb.sourceIn), OrElse(p.sourceOut, fb.sourceOut),
      OrElse(p.sourcesOut, fb.sourcesOut))
  }

  /** A channel's name as it appears in the default topics. */
  function ChannelName(ch: Channel): string {
    match ch
    case Power => "power"
    case Volume => "volume"
    case Mute => "mute"
    case Source => "source"
    case Sources => "sources"
  }

  /** The state topic of a channel. */
  function OutTopic(t: Topics, ch: Channel): string {
    match ch
    case Power => t.powerOut
    case Volume => t.volumeOut
    case Mute => t.muteOut
    case Source => t.sourceOut
    case Sources => t.sourcesOut
  }

  /** The control topic of a channel; `Sources` has none. */
  function InTopic(t: Topics, ch: Channel): string
    requires ch != Sources
  {
    match ch
    case Power => t.powerIn
    case Volume => t.volumeIn
    case Mute => t.muteIn
    case Source => t.sourceIn
  }

  /** The override field for a channel's state topic. */
  function OutOverride(p: Paths, ch: Channel): Option<string> {
    match ch
    case Power => p.powerOut
    case Volume => p.volumeOut
    case Mute => p.muteOut
    case Source => p.sourceOut
    case Sources => p.sourcesOut
  }

  /** The override field for a channel's control topic. */
  function InOverride(p: Paths, ch: Channel): Option<string>
    requires ch != Sources
  {
    match ch
    case Power => p.powerIn
    case Volume => p.volumeIn
    case Mute => p.muteIn
    case Source => p.sourceIn
  }

  /** A topic the router can tell apart: non-empty and free of the query mark. */
  ghost predicate TopicOk(s: string) {
    s != [] && '?' !in s
  }

  /**
   * Topics the bridge can serve unambiguously: every topic is usable, no two
   * state topics and no two control topics coincide, and no control topic is
   * also a state topic.
   */
  ghost predicate Sane(t: Topics) {
    && (forall ch :: TopicOk(OutTopic(t, ch)))
    && (forall ch | ch != Sources :: TopicOk(InTopic(t, ch)))
    && (forall a, b :: OutTopic(t, a) == OutTopic(t, b) ==> a == b)
    && (forall a, b | a != Sources && b != Sources :: InTopic(t, a) == InTopic(t, b) ==> a == b)
    && (forall a, b | a != Sources :: InTopic(t, a) != OutTopic(t, b))
  }

  lemma PrefixCancel(p: string, x: string, y: string)
    requires p + x == p + y
    ensures x == y
  {
    assert x == (p + x)[|p|..];
    assert y == (p + y)[|p|..];
  }

  /** Distinct channels have distinct names, whatever follows them. */
  lemma ChannelNameSuffixInjective(a: Channel, b: Channel, suffix: string)
    requires ChannelName(a) + suffix == ChannelName(b) + suffix
    ensures a == b
  {
    var x, y := ChannelName(a) + suffix, ChannelName(b) + suffix;
    assert |ChannelName(a)| == |ChannelName(b)|;
    assert x[0] == ChannelName(a)[0] && y[0] == ChannelName(b)[0];
  }

  /** A control suffix never equals a state suffix: they end in different letters. */
  lemma InSuffixNotOutSuffix(a: Channel, b: Channel)
    ensures ChannelName(a) + "/in" != ChannelName(b) + "/out"
  {
    var x, y := ChannelName(a) + "/in", ChannelName(b) + "/out";
    assert x[|x| - 1] == 'n' && y[|y| - 1] == 't';
  }

  /** An empty overrides object yields the fallback layout, ignoring the uuid. */
  lemma EmptyPathsFallBack(uuid: Option<string>)
    ensures Derive(Options(uuid, Some(NoPaths))) == Layout(FallbackRoot)
  {
  }

  /** A layout under a root without the query mark is sane. */
  lemma LayoutSane(root: string)
    requires '?' !in root
    ensures Sane(Layout(root))
  {
    var t := Layout(root);
    forall ch ensures TopicOk(OutTopic(t, ch)) {
      assert '?' !in ChannelName(ch) + "/out";
    }
    forall ch | ch != Sources ensures TopicOk(InTopic(t, ch)) {
      assert '?' !in ChannelName(ch) + "/in";
    }
    forall a, b | OutTopic(t, a) == OutTopic(t, b) ensures a == b {
      PrefixCancel(root, ChannelName(a) + "/out", ChannelName(b) + "/out");
      ChannelNameSuffixInjective(a, b, "/out");
    }
    forall a, b | a != Sources && b != Sources && InTopic(t, a) == InTopic(t, b) ensures a == b {
      PrefixCancel(root, ChannelName(a) + "/in", ChannelName(b) + "/in");
      ChannelNameSuffixInjective(a, b, "/in");
    }
    forall a, b | a != Sources ensures InTopic(t, a) != OutTopic(t, b) {
      InSuffixNotOutSuffix(a, b);
      if InTopic(t, a) == OutTopic(t, b) {
        PrefixCancel(root, ChannelName(a) + "/in", ChannelName(b) + "/out");
      }
    }
  }

  /** Without overrides, and with a uuid free of the query mark, the topics are sane. */
  lemma DefaultTopicsSane(uuid: Option<string>)
    requires Truthy(uuid) ==> '?' !in uuid.value
    ensures Sane(Derive(Options(uuid, None)))
  {
    var root := Root(uuid);
    if Truthy(uuid) {
      assert root == MeemPrefix + uuid.value + "/";
    }
    assert '?' !in root;
    LayoutSane(root);
  }
}
