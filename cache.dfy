/**
 * The bridge's cache of last-known receiver state (`this.state`): one
 * snapshot per channel and the accumulating map of source names.
 */
module StateCache {
  import opened Wrappers
  import opened TopicRegistry

  /** A JSON-like scalar as the receiver driver and the bus hand it over. */
  datatype Value = Undefined | Null | Bool(b: bool) | Num(n: real) | Str(s: string)

  /**
   * A channel snapshot as published. `Empty` is the `{}` every channel starts
   * with; `SourceNames` is the whole id-to-name map of the sources channel.
   */
  datatype Snapshot =
    | Empty
    | PowerState(value: Value)
    | VolumeState(value: Value, unit: string)
    | MuteState(value: Value)
    | SourceState(value: Value, name: Value)
    | SourceNames(names: map<Value, Value>)

  datatype State = State(
    power: Snapshot, volume: Snapshot, mute: Snapshot, source: Snapshot,
    sources: map<Value, Value>)

  /** Every snapshot `{}` and no source names known. */
  const Initial: State := State(Empty, Empty, Empty, Empty, map[])

  /** The snapshot the bridge reports for a channel. */
  function Read(s: State, ch: Channel): Snapshot {
    match ch
    case Power => s.power
    case Volume => s.volume
    case Mute => s.mute
    case Source => s.source
    case Sources => SourceNames(s.sources)
  }

  /** Each channel holds `{}` or a snapshot of its own shape. */
  ghost predicate WellFormed(s: State) {
    && (s.power.Empty? || s.power.PowerState?)
    && (s.volume.Empty? || (s.volume.VolumeState? && s.volume.unit == "dB"))
    && (s.mute.Empty? || s.mute.MuteState?)
    && (s.source.Empty? || s.source.SourceState?)
  }

  /** The id of the currently selected source, if one was ever reported. */
  function SelectedSource(s: State): Option<Value> {
    if s.source.SourceState? then Some(s.source.value) else None
  }
}
