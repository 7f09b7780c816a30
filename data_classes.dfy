/** The configuration records of the bridge and the one operation on them that
    changes state: filling a module's logging settings from the device-wide
    ones. Python's truthiness decides what counts as "unset". */
module DataClasses {

  import opened Wrappers

  // ---------------------------------------------------------------------------
  // Logging records

  datatype LoggingFormatConfig = LoggingFormatConfig(date: string, output: string)

  datatype LoggingRotationConfig = LoggingRotationConfig(size: int, backup: int)

  /** The device-wide (root) logging settings; every field may be missing. */
  datatype LoggingConfig = LoggingConfig(
    path: Option<string>,
    level: Option<string>,
    format: Option<LoggingFormatConfig>,
    rotation: Option<LoggingRotationConfig>)

  /** A `LoggingConfig` built with no arguments: every field `None`. */
  function DefaultLoggingConfig(): (c: LoggingConfig)
    ensures !TextIsSet(c.path) && !TextIsSet(c.level) && !IsSet(c.format) && !IsSet(c.rotation)
  {
    LoggingConfig(None, None, None, None)
  }

  /** Truthiness of an `Optional[str]`: `None` and `""` are both falsy. */
  predicate TextIsSet(o: Option<string>)
  {
    o.Some? && o.value != ""
  }

  /** Truthiness of an optional record: a dataclass instance is always truthy,
      so only `None` is falsy. */
  predicate IsSet<T>(o: Option<T>)
  {
    o.Some?
  }

  /** The value of a `ModuleLoggingConfig` object at one moment. */
  datatype ModuleLogging = ModuleLogging(
    path: Option<string>,
    level: Option<string>,
    format: Option<LoggingFormatConfig>,
    rotation: Option<LoggingRotationConfig>,
    file: Option<string>)

  /** Keep `current` when it is truthy, otherwise take `fallback`. */
  function FillText(current: Option<string>, fallback: Option<string>): Option<string>
  {
    if TextIsSet(current) then current else fallback
  }

  function Fill<T>(current: Option<T>, fallback: Option<T>): Option<T>
  {
    if IsSet(current) then current else fallback
  }

  /** What `merge` leaves in a module's logging settings `m` given the root
      settings: each of path, level, format and rotation that was unset is
      taken from the root, each that was set is kept, and `file` is untouched. */
  function Merged(m: ModuleLogging, root: LoggingConfig): (r: ModuleLogging)
    ensures r.file == m.file
    ensures TextIsSet(m.path) ==> r.path == m.path
    ensures !TextIsSet(m.path) ==> r.path == root.path
    ensures TextIsSet(m.level) ==> r.level == m.level
    ensures !TextIsSet(m.level) ==> r.level == root.level
    ensures IsSet(m.format) ==> r.format == m.format
    ensures !IsSet(m.format) ==> r.format == root.format
    ensures IsSet(m.rotation) ==> r.rotation == m.rotation
    ensures !IsSet(m.rotation) ==> r.rotation == root.rotation
  {
    ModuleLogging(
      FillText(m.path, root.path),
      FillText(m.level, root.level),
      Fill(m.format, root.format),
      Fill(m.rotation, root.rotation),
      m.file)
  }

  /** Merging twice with the same root changes nothing further. */
  lemma MergedIdempotent(m: ModuleLogging, root: LoggingConfig)
    ensures Merged(Merged(m, root), root) == Merged(m, root)
  {
  }

  /** After a merge a field is set exactly when the module or the root had it
      set: a merge never loses a setting and never invents one. */
  lemma MergedSetIff(m: ModuleLogging, root: LoggingConfig)
    ensures var r := Merged(m, root);
            (TextIsSet(r.path) <==> TextIsSet(m.path) || TextIsSet(root.path)) &&
            (TextIsSet(r.level) <==> TextIsSet(m.level) || TextIsSet(root.level)) &&
            (IsSet(r.format) <==> IsSet(m.format) || IsSet(root.format)) &&
            (IsSet(r.rotation) <==> IsSet(m.rotation) || IsSet(root.rotation))
  {
  }

  /** A module's logging settings; `merge` fills them in place. */
  class ModuleLoggingConfig {
    var path: Option<string>
    var level: Option<string>
    var format: Option<LoggingFormatConfig>
    var rotation: Option<LoggingRotationConfig>
    var file: Option<string>

    constructor (path: Option<string>, level: Option<string>, format: Option<LoggingFormatConfig>,
                 rotation: Option<LoggingRotationConfig>, file: Option<string>)
      ensures Value() == ModuleLogging(path, level, format, rotation, file)
    {
      this.path := path;
      this.level := level;
      this.format := format;
      this.rotation := rotation;
      this.file := file;
    }

    function Value(): ModuleLogging
      reads this
    {
      ModuleLogging(path, level, format, rotation, file)
    }

    /** Fill every falsy field among path, level, format and rotation from
        `loggingConfig`, which is a value and so cannot be changed. */
    method Merge(loggingConfig: LoggingConfig)
      modifies this
      ensures Value() == Merged(old(Value()), loggingConfig)
    {
      if !TextIsSet(path) {
        path := loggingConfig.path;
      }
      if !TextIsSet(level) {
        level := loggingConfig.level;
      }
      if !IsSet(format) {
        format := loggingConfig.format;
      }
      if !IsSet(rotation) {
        rotation := loggingConfig.rotation;
      }
    }
  }

  // ---------------------------------------------------------------------------
  // Notification records

  datatype NtfyOptions = NtfyOptions(title: Option<string>, priority: Option<int>, tags: seq<string>)

  /** `NtfyOptions(title=...)` with the other fields left at their defaults. */
  function NewNtfyOptions(title: Option<string>): (o: NtfyOptions)
    ensures o.title == title && o.priority == Some(3) && o.tags == []
  {
    NtfyOptions(title, Some(3), [])
  }

  /** The ntfy side of one mapping: the ntfy topic to post to and its options. */
  datatype Ntfy = Ntfy(topic: string, options: Option<NtfyOptions>)

  /** `Ntfy(topic=...)`: no options. */
  function NewNtfy(topic: string): (n: Ntfy)
    ensures n.topic == topic && n.options == None
  {
    Ntfy(topic, None)
  }

  /** One mapping from an MQTT topic to an ntfy topic. */
  datatype TopicConfig = TopicConfig(mqttTopic: string, ntfy: Ntfy)

  /** The module configuration: its logging settings and the ordered mappings. */
  datatype NtfyModuleConfig = NtfyModuleConfig(logging: ModuleLoggingConfig, configurations: seq<TopicConfig>)

  /** `NtfyModuleConfig(logging=...)`: no mappings. */
  function NewNtfyModuleConfig(logging: ModuleLoggingConfig): (c: NtfyModuleConfig)
    ensures c.logging == logging && c.configurations == []
  {
    NtfyModuleConfig(logging, [])
  }

  datatype MQTTConfig = MQTTConfig(enabled: Option<bool>, host: Option<string>)

  /** `MQTTConfig()`: disabled, pointing at the local broker. */
  function DefaultMQTTConfig(): (c: MQTTConfig)
    ensures c.enabled == Some(false) && c.host == Some("mqtt://localhost")
    ensures !MqttEnabled(c)
  {
    MQTTConfig(Some(false), Some("mqtt://localhost"))
  }

  /** Truthiness of `Optional[bool]`: only `True` enables MQTT. */
  predicate MqttEnabled(c: MQTTConfig)
  {
    c.enabled == Some(true)
  }

  datatype DeviceConfig = DeviceConfig(name: string, mqtt: MQTTConfig)
}
