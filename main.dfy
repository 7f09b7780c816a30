/** The bridge itself: look up the mapping for an incoming MQTT topic, turn the
    message into one ntfy request, and at start-up subscribe to every mapped
    topic. What the Python code does to the outside world (logging, the HTTP
    post, the MQTT client) is returned as a trace of actions, in order. */
module NtfyApp {

  import opened Wrappers
  import opened Text
  import opened DataClasses
  import opened StdLogging

  datatype LogLevel = Debug | Info | Warning | Error

  /** The request handed to `requests.post`: URL, body and the three headers. */
  datatype Request = Request(url: string, data: string, title: string, priority: string, tags: string)

  /** One observable effect. */
  datatype Action =
    | Log(level: LogLevel, text: string)
    | Post(request: Request)
    | CreateClient
    | Connect(host: Option<string>)
    | Subscribe(topic: string)
    | LoopForever

  /** An exception that ends a call. `MissingNotification`: the payload has no
      `notification` field (or is not JSON at all). The others end `run` while
      it sets up logging, before any client exists: the merged log path is
      falsy, or no rotation, or no format is configured, or `logging` rejects
      the format string or the level name. */
  datatype Failure =
    | MissingNotification
    | LogPathUnset
    | LogRotationUnset
    | LogFormatUnset
    | LogFormatInvalid
    | LogLevelUnknown

  /** The effects of one call, and the exception it raised, if any. */
  datatype Outcome = Outcome(trace: seq<Action>, raised: Option<Failure>)

  /** An MQTT message as the handler sees it: its topic and the `notification`
      field of its JSON payload, already decoded (`None` when absent). */
  datatype MqttMessage = MqttMessage(topic: string, notification: Option<string>)

  const NtfyBaseUrl := "https://ntfy.sh/"
  const TagJoiner := ','

  // ---------------------------------------------------------------------------
  // Registry lookup

  /** The first mapping whose MQTT topic is exactly `topic`, if there is one. */
  function Lookup(configurations: seq<TopicConfig>, topic: string): (r: Option<TopicConfig>)
    ensures r.Some? ==> exists i :: 0 <= i < |configurations| && configurations[i] == r.value &&
                                    r.value.mqttTopic == topic &&
                                    forall j :: 0 <= j < i ==> configurations[j].mqttTopic != topic
    ensures r.None? <==> forall i :: 0 <= i < |configurations| ==> configurations[i].mqttTopic != topic
  {
    if |configurations| == 0 then None
    else if configurations[0].mqttTopic == topic then Some(configurations[0])
    else
      var r := Lookup(configurations[1..], topic);
      assert r.Some? ==> exists i :: 1 <= i < |configurations| && configurations[i] == r.value &&
                                     forall j :: 0 <= j < i ==> configurations[j].mqttTopic != topic by {
        if r.Some? {
          var k :| 0 <= k < |configurations| - 1 && configurations[1..][k] == r.value &&
                   forall j :: 0 <= j < k ==> configurations[1..][j].mqttTopic != topic;
          assert configurations[k + 1] == r.value;
          assert forall j :: 1 <= j < k + 1 ==> configurations[j] == configurations[1..][j - 1];
        }
      }
      assert r.None? <==> forall i :: 1 <= i < |configurations| ==> configurations[i].mqttTopic != topic by {
        assert forall i :: 1 <= i < |configurations| ==> configurations[i] == configurations[1..][i - 1];
      }
      r
  }

  /** `get_configuration`: scan the mappings in order and return at the first
      whose MQTT topic equals `topic`. */
  method GetConfiguration(configurations: seq<TopicConfig>, topic: string) returns (r: Option<TopicConfig>)
    ensures r == Lookup(configurations, topic)
  {
    for i := 0 to |configurations|
      invariant Lookup(configurations, topic) == Lookup(configurations[i..], topic)
    {
      assert configurations[i..][1..] == configurations[i + 1..];
      if configurations[i].mqttTopic == topic {
        return Some(configurations[i]);
      }
    }
    assert configurations[|configurations|..] == [];
    return None;
  }

  /** When several mappings share an MQTT topic, the first in list order is
      the one found, whatever follows it. */
  lemma {:induction false} LookupFirstWins(front: seq<TopicConfig>, c: TopicConfig, back: seq<TopicConfig>)
    requires forall i :: 0 <= i < |front| ==> front[i].mqttTopic != c.mqttTopic
    ensures Lookup(front + [c] + back, c.mqttTopic) == Some(c)
    decreases |front|
  {
    if |front| > 0 {
      assert (front + [c] + back)[1..] == front[1..] + [c] + back;
      LookupFirstWins(front[1..], c, back);
    }
  }

  // ---------------------------------------------------------------------------
  // Building and sending the notification

  /** Python's f-string of an `Optional[str]`: the text, or `"None"`. */
  function FormatText(o: Option<string>): string
  {
    match o
    case Some(s) => s
    case None => "None"
  }

  /** Python's f-string of an `Optional[int]`: its decimal text, or `"None"`. */
  function FormatInt(o: Option<int>): string
  {
    match o
    case Some(n) => IntToText(n)
    case None => "None"
  }

  /** The Priority header reads back as the configured priority, and a missing
      priority is the one header that reads as no number at all. */
  lemma PriorityHeaderRoundTrip(o: Option<int>)
    ensures ParseInt(FormatInt(o)) == o
  {
    if o.Some? {
      IntTextRoundTrip(o.value);
    } else {
      assert FormatInt(o)[0] == 'N';
    }
  }

  /** The request `send_notification` posts for the text `notification`. */
  function BuildRequest(notification: string, config: TopicConfig): (r: Request)
    requires config.ntfy.options.Some?
    ensures |r.url| == |NtfyBaseUrl| + |config.ntfy.topic|
    ensures r.url[..|NtfyBaseUrl|] == NtfyBaseUrl && r.url[|NtfyBaseUrl|..] == config.ntfy.topic
    ensures r.data == notification
    ensures config.ntfy.options.value.title.Some? ==> r.title == config.ntfy.options.value.title.value
    ensures config.ntfy.options.value.title.None? ==> r.title == "None"
    ensures r.priority == FormatInt(config.ntfy.options.value.priority)
    ensures ParseInt(r.priority) == config.ntfy.options.value.priority
    ensures r.tags == Join(config.ntfy.options.value.tags, TagJoiner)
    ensures config.ntfy.options.value.tags == [] ==> r.tags == ""
    ensures var tags := config.ntfy.options.value.tags;
            tags != [] && (forall i :: 0 <= i < |tags| ==> TagJoiner !in tags[i]) ==>
              Split(r.tags, TagJoiner) == tags
  {
    var options := config.ntfy.options.value;
    PriorityHeaderRoundTrip(options.priority);
    var r := Request(
      NtfyBaseUrl + config.ntfy.topic,
      notification,
      FormatText(options.title),
      FormatInt(options.priority),
      Join(options.tags, TagJoiner));
    if options.tags != [] && forall i :: 0 <= i < |options.tags| ==> TagJoiner !in options.tags[i] then
      SplitJoin(options.tags, TagJoiner); r
    else r
  }

  /** The requests posted in `trace`, in order. */
  function Posts(trace: seq<Action>): seq<Request>
  {
    if |trace| == 0 then []
    else if trace[0].Post? then [trace[0].request] + Posts(trace[1..])
    else Posts(trace[1..])
  }

  lemma {:induction false} PostsConcat(a: seq<Action>, b: seq<Action>)
    ensures Posts(a + b) == Posts(a) + Posts(b)
    decreases |a|
  {
    if |a| == 0 {
      assert a + b == b;
    } else {
      assert (a + b)[1..] == a[1..] + b;
      PostsConcat(a[1..], b);
    }
  }

  /** `send_notification`: read the notification from the payload, log it,
      post one request and log that it was sent. A payload without the field
      raises before anything is logged or posted. */
  function SendNotification(msg: MqttMessage, config: TopicConfig): (o: Outcome)
    requires config.ntfy.options.Some?
    ensures msg.notification.None? ==> o.trace == [] && o.raised == Some(MissingNotification)
    ensures msg.notification.Some? ==>
              o.raised == None &&
              Posts(o.trace) == [BuildRequest(msg.notification.value, config)] &&
              o.trace == [Log(Debug, "sending notification to ntfy " + msg.notification.value),
                          Post(BuildRequest(msg.notification.value, config)),
                          Log(Info, "notification sent to ntfy")]
  {
    match msg.notification
    case None => Outcome([], Some(MissingNotification))
    case Some(text) =>
      var request := BuildRequest(text, config);
      var trace := [Log(Debug, "sending notification to ntfy " + text),
                    Post(request),
                    Log(Info, "notification sent to ntfy")];
      assert trace[2..][1..] == [] && Posts(trace[2..]) == [];
      assert trace[1..][1..] == trace[2..] && Posts(trace[1..]) == [request];
      Outcome(trace, None)
  }

  /** The request of the bridge's own unit test for `send_notification`. That
      test sets the priority to the text `"high"`, which an `Optional[int]`
      cannot hold, so priority 3 stands in for it here. */
  lemma BuildRequestExample()
    ensures BuildRequest("test message", TopicConfig("test/topic", Ntfy("test_topic", Some(NtfyOptions(Some("Test Title"), Some(3), ["tag1", "tag2"]))))) ==
              Request("https://ntfy.sh/test_topic", "test message", "Test Title", "3", "tag1,tag2")
  {
    var r := BuildRequest("test message", TopicConfig("test/topic", Ntfy("test_topic", Some(NtfyOptions(Some("Test Title"), Some(3), ["tag1", "tag2"])))));
    assert DigitChar(3) == '3';
    assert r.priority == IntToText(3) == NatToDecimal(3) == "3";
    assert ["tag1", "tag2"][1..] == ["tag2"];
    assert r.tags == "tag1" + [TagJoiner] + "tag2" == "tag1,tag2";
    assert r.url == "https://ntfy.sh/" + "test_topic" == "https://ntfy.sh/test_topic";
  }

  /** The whole outcome the same test checks: the debug entry
      `sending notification to ntfy test message` (written here as the
      f-string's two parts), the one post, and the info entry. */
  lemma SendNotificationExample()
    ensures var config := TopicConfig("test/topic", Ntfy("test_topic", Some(NtfyOptions(Some("Test Title"), Some(3), ["tag1", "tag2"]))));
            SendNotification(MqttMessage("test/topic", Some("test message")), config) ==
              Outcome([Log(Debug, "sending notification to ntfy " + "test message"),
                       Post(Request("https://ntfy.sh/test_topic", "test message", "Test Title", "3", "tag1,tag2")),
                       Log(Info, "notification sent to ntfy")], None)
  {
    BuildRequestExample();
  }

  // ---------------------------------------------------------------------------
  // MQTT callbacks

  /** `on_connect`: one info entry and nothing else. */
  function OnConnect(): (trace: seq<Action>)
    ensures |trace| == 1 && trace[0].Log? && trace[0].level == Info && Posts(trace) == []
  {
    [Log(Info, "connected to MQTT broker")]
  }

  /** `on_message`: on a hit, one debug entry and then exactly what
      `send_notification` does with the found mapping; on a miss, one warning
      and no request. */
  method OnMessage(configurations: seq<TopicConfig>, msg: MqttMessage) returns (o: Outcome)
    requires Lookup(configurations, msg.topic).Some? ==> Lookup(configurations, msg.topic).value.ntfy.options.Some?
    ensures Lookup(configurations, msg.topic).None? ==>
              o == Outcome([Log(Warning, "no configuration found for topic " + msg.topic)], None) &&
              Posts(o.trace) == []
    ensures Lookup(configurations, msg.topic).Some? ==>
              var sent := SendNotification(msg, Lookup(configurations, msg.topic).value);
              o == Outcome([Log(Debug, "found configuration for " + msg.topic)] + sent.trace, sent.raised) &&
              Posts(o.trace) == Posts(sent.trace)
    ensures |Posts(o.trace)| == (if Lookup(configurations, msg.topic).Some? && msg.notification.Some? then 1 else 0)
  {
    var topicConfig := GetConfiguration(configurations, msg.topic);
    if topicConfig.Some? {
      var found := [Log(Debug, "found configuration for " + msg.topic)];
      var sent := SendNotification(msg, topicConfig.value);
      PostsConcat(found, sent.trace);
      o := Outcome(found + sent.trace, sent.raised);
    } else {
      o := Outcome([Log(Warning, "no configuration found for topic " + msg.topic)], None);
    }
  }

  // ---------------------------------------------------------------------------
  // Start-up

  const MqttDisabledMessage := "MQTT on NSP not enabled in configuration, exiting NSP-NTFY."

  /** One subscription per mapping, in the mappings' order. */
  function Subscriptions(configurations: seq<TopicConfig>): (actions: seq<Action>)
    ensures |actions| == |configurations|
    ensures forall i :: 0 <= i < |configurations| ==> actions[i] == Subscribe(configurations[i].mqttTopic)
  {
    if |configurations| == 0 then []
    else [Subscribe(configurations[0].mqttTopic)] + Subscriptions(configurations[1..])
  }

  /** What `run` does with the MQTT client: with MQTT enabled, create a client,
      connect to the configured host, subscribe to every mapped topic in order
      and loop; otherwise log one error and create no client. */
  function ClientActions(configurations: seq<TopicConfig>, mqtt: MQTTConfig): (trace: seq<Action>)
    ensures MqttEnabled(mqtt) ==>
              |trace| == |configurations| + 3 && trace[0] == CreateClient && trace[1] == Connect(mqtt.host) &&
              (forall i :: 0 <= i < |configurations| ==> trace[i + 2] == Subscribe(configurations[i].mqttTopic)) &&
              trace[|trace| - 1] == LoopForever
    ensures !MqttEnabled(mqtt) ==> trace == [Log(Error, MqttDisabledMessage)]
    ensures forall a :: a in trace ==> !a.Post?
  {
    if MqttEnabled(mqtt) then
      [CreateClient, Connect(mqtt.host)] + Subscriptions(configurations) + [LoopForever]
    else
      [Log(Error, MqttDisabledMessage)]
  }

  /** The client part of `run`, with its subscription loop. */
  method StartClient(configurations: seq<TopicConfig>, mqtt: MQTTConfig) returns (trace: seq<Action>)
    ensures trace == ClientActions(configurations, mqtt)
  {
    if MqttEnabled(mqtt) {
      trace := [CreateClient, Connect(mqtt.host)];
      for i := 0 to |configurations|
        invariant trace == [CreateClient, Connect(mqtt.host)] + Subscriptions(configurations[..i])
      {
        assert configurations[..i + 1] == configurations[..i] + [configurations[i]];
        SubscriptionsSnoc(configurations[..i], configurations[i]);
        trace := trace + [Subscribe(configurations[i].mqttTopic)];
      }
      assert configurations[..|configurations|] == configurations;
      trace := trace + [LoopForever];
    } else {
      trace := [Log(Error, MqttDisabledMessage)];
    }
  }

  lemma SubscriptionsSnoc(configurations: seq<TopicConfig>, c: TopicConfig)
    ensures Subscriptions(configurations + [c]) == Subscriptions(configurations) + [Subscribe(c.mqttTopic)]
  {
  }

  /** `__configure_logging` after its call to `merge`, given the merged
      settings. It needs a truthy log path (`None` fails the existence check and
      `""` cannot be created as a directory), then a rotation for the file
      handler, then a format. `basicConfig` then builds its formatter, which
      rejects a format string without a field, and sets the level, which must
      be a known name. Last it logs one info entry. */
  function ConfigureLogging(merged: ModuleLogging): (o: Outcome)
    ensures o.raised.None? <==>
              TextIsSet(merged.path) && IsSet(merged.rotation) && IsSet(merged.format) &&
              FormatAccepted(merged.format.value.output) && LevelAccepted(merged.level)
    ensures o.raised.None? ==> o.trace == [Log(Info, "configuration created")]
    ensures o.raised.Some? ==> o.trace == []
    ensures !TextIsSet(merged.path) ==> o.raised == Some(LogPathUnset)
    ensures TextIsSet(merged.path) && !IsSet(merged.rotation) ==> o.raised == Some(LogRotationUnset)
    ensures TextIsSet(merged.path) && IsSet(merged.rotation) && !IsSet(merged.format) ==> o.raised == Some(LogFormatUnset)
    ensures (TextIsSet(merged.path) && IsSet(merged.rotation) && IsSet(merged.format) &&
             !FormatAccepted(merged.format.value.output)) ==> o.raised == Some(LogFormatInvalid)
    ensures (TextIsSet(merged.path) && IsSet(merged.rotation) && IsSet(merged.format) &&
             FormatAccepted(merged.format.value.output) && !LevelAccepted(merged.level)) ==> o.raised == Some(LogLevelUnknown)
  {
    if !TextIsSet(merged.path) then Outcome([], Some(LogPathUnset))
    else if !IsSet(merged.rotation) then Outcome([], Some(LogRotationUnset))
    else if !IsSet(merged.format) then Outcome([], Some(LogFormatUnset))
    else if !FormatAccepted(merged.format.value.output) then Outcome([], Some(LogFormatInvalid))
    else if !LevelAccepted(merged.level) then Outcome([], Some(LogLevelUnknown))
    else Outcome([Log(Info, "configuration created")], None)
  }

  /** Logging setup cannot fail once the root settings hold a path, a rotation
      and a format that `logging` accepts, and a level it knows (or none),
      provided the module's own format and level, where set, are accepted too. */
  lemma CompleteRootConfiguresLogging(m: ModuleLogging, root: LoggingConfig)
    requires TextIsSet(root.path) && IsSet(root.rotation) && IsSet(root.format)
    requires FormatAccepted(root.format.value.output) && LevelAccepted(root.level)
    requires IsSet(m.format) ==> FormatAccepted(m.format.value.output)
    requires TextIsSet(m.level) ==> LevelAccepted(m.level)
    ensures ConfigureLogging(Merged(m, root)) == Outcome([Log(Info, "configuration created")], None)
  {
    MergedSetIff(m, root);
  }

  /** A format string without a field, such as `plain`, stops `run` before
      any client exists, however complete the other settings are. */
  lemma PlainFormatStopsSetup(path: string, level: Option<string>, date: string,
                              rotation: LoggingRotationConfig, file: Option<string>)
    requires path != ""
    ensures ConfigureLogging(ModuleLogging(Some(path), level, Some(LoggingFormatConfig(date, "plain")), Some(rotation), file))
              == Outcome([], Some(LogFormatInvalid))
  {
    PlainFormatRejected();
  }

  /** `run` once the configuration files are loaded: merge the module's logging
      settings with the device's and set up logging; if that raised, stop there
      with no client, otherwise start (or refuse to start) the client. */
  method Run(moduleConfiguration: NtfyModuleConfig, rootLogging: LoggingConfig, device: DeviceConfig)
    returns (o: Outcome)
    modifies moduleConfiguration.logging
    ensures moduleConfiguration.logging.Value() == Merged(old(moduleConfiguration.logging.Value()), rootLogging)
    ensures var setup := ConfigureLogging(moduleConfiguration.logging.Value());
            o == if setup.raised.Some? then setup
                 else Outcome(setup.trace + ClientActions(moduleConfiguration.configurations, device.mqtt), None)
  {
    moduleConfiguration.logging.Merge(rootLogging);
    var setup := ConfigureLogging(moduleConfiguration.logging.Value());
    if setup.raised.Some? {
      return setup;
    }
    var client := StartClient(moduleConfiguration.configurations, device.mqtt);
    o := Outcome(setup.trace + client, None);
  }
}
