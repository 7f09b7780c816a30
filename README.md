# nsp-ntfy bridge: a verified model

nsp-ntfy listens to topics on an MQTT broker and forwards each message it has a
mapping for to ntfy as a push notification. The configuration holds an
ordered list of mappings. Each maps an MQTT topic to an ntfy topic, plus a
title, a priority and tags. This project models, in Dafny:

- the registry lookup `get_configuration`: first exact match in list order;
- the message handler `on_message` and `send_notification`: which request
  is posted (URL, body, `Title`, `Priority` and `Tags` headers) and which log
  entries are written;
- `run` once its configuration is loaded: the logging merge, the ways
  logging setup fails on unset settings or on a format string or level that
  Python's `logging` rejects, then one subscription per mapping
  when MQTT is enabled, or one error entry and no client when it is not;
- the configuration records with their defaults, and
  `ModuleLoggingConfig.merge`, which fills a module's unset logging settings
  from the device-wide ones in place.

Files:

- `wrappers.dfy` (module `Wrappers`): `Option`, standing for Python's `Optional`.
- `text.dfy` (module `Text`): the Python builtins the headers use.
  `",".join` is `Join`, with `str.split` (`Split`) as its inverse.
  `str(int)` is `IntToText`, with `int()` (`ParseInt`) as its inverse.
- `data_classes.dfy` (module `DataClasses`): the records of
  `src/app/data/data_classes.py`. `ModuleLoggingConfig` is a class whose
  `Merge` method updates its fields. The other records are datatypes, since
  the code never changes them after loading.
- `std_logging.dfy` (module `StdLogging`): the two checks Python's
  `logging.basicConfig` makes on what the bridge passes it. `FormatAccepted`
  is the `%`-style formatter's validation pattern, searched anywhere in the
  format string. `LevelAccepted` is the table of standard level names.
- `main.dfy` (module `NtfyApp`): the functions of `src/app/main.py`. It also
  holds `ConfigureLogging`, the failure behaviour of `__configure_logging` from
  `src/app/data/data_classes.py`, because its result is an `Outcome` of
  `Action`s, which are defined here.

Effects are returned, not performed. Every handler returns a trace of
`Action`s in the order the Python code performs them: log entries with their
level and text, posts, client creation, connect, subscribe and the client loop.
An exception that escapes the handler is returned as `raised`.

The Python code keeps the loaded configuration in module globals
(`module_configuration`, `nsp_configuration`). In the model these are
parameters. The mapping list is a `seq`, so `get_configuration` visibly cannot
change it.

Behaviour of the code that the model keeps as it is:

- The code writes no log entry for a payload without a `notification` field
  (or one that is not JSON): `send_notification` raises, nothing is posted,
  and the exception escapes `on_message`.
- A missing title is sent as the header text `"None"`, and so is a missing
  priority. Neither header is omitted.
- `merge` treats every falsy value as unset, not only a missing one: `None`
  and `""` for text fields, `None` for the format and rotation records.
- `run` raises while setting up logging, before any MQTT client exists, when
  the merged log path is falsy, or no rotation or format is configured, or
  `logging` rejects the format string (one with no `%(name)s`-style field, such
  as `plain`) or the level (any text that is not a standard level name, `""`
  included).

## Model

| member | source | states |
|---|---|---|
| `NtfyApp.Lookup` | src/app/main.py:47-52 | The result is a mapping whose MQTT topic equals the queried topic exactly, and no earlier mapping has that topic. The result is `None` exactly when no mapping has that topic, so an empty list always gives `None`. |
| `NtfyApp.GetConfiguration` | src/app/main.py:47-52 | The loop with its early return computes exactly `Lookup`. The mapping list is a value parameter, so it is left unchanged. |
| `NtfyApp.LookupFirstWins` | src/app/main.py:49-51 | If mapping `c` comes before every other mapping with its topic, looking up that topic gives `c`, whatever follows. |
| `NtfyApp.PriorityHeaderRoundTrip` | src/app/main.py:40 | Reading the `Priority` header as an integer gives back the configured `Optional[int]`. A missing priority gives `"None"`, which reads as no number. |
| `NtfyApp.BuildRequest` | src/app/main.py:35-43 | The URL is `https://ntfy.sh/` followed by the ntfy topic. The body is the notification text. `Title` is the title, or `"None"` when there is none. `Priority` is `str` of the priority (`IntToText`), or `"None"` when there is none, and parses back to the priority. `Tags` is the tags joined with `","`: `""` for no tags, and, when no tag contains a comma, text that splits back into the tags. |
| `NtfyApp.SendNotification` | src/app/main.py:31-44 | A payload without `notification` raises and leaves an empty trace. Otherwise there is exactly one debug entry with the text, exactly one post of `BuildRequest`, then one info entry, and nothing is raised. |
| `NtfyApp.BuildRequestExample` | tests/test_main.py:164-192 | The request of the bridge's own test is a post to `https://ntfy.sh/test_topic` with body `test message` and headers `Title` `Test Title`, `Priority` `3` and `Tags` `tag1,tag2`. Priority 3 stands in for the test's `"high"`, which an `Optional[int]` cannot hold. |
| `NtfyApp.SendNotificationExample` | tests/test_main.py:164-192 | For the bridge's own test, the whole outcome is the debug entry `sending notification to ntfy test message`, one post to `https://ntfy.sh/test_topic` with body `test message`, `Title` `Test Title` and `Tags` `tag1,tag2`, then the info entry `notification sent to ntfy`, with nothing raised. Priority 3 stands in for the test's `"high"`. |
| `NtfyApp.OnConnect` | src/app/main.py:18-19 | One info entry and no request. |
| `NtfyApp.OnMessage` | src/app/main.py:22-28 | On a miss: exactly one warning `no configuration found for topic <topic>`, no post, nothing raised. On a hit: one debug entry `found configuration for <topic>`, then exactly the trace and exception of `SendNotification` with the found mapping. The number of posts is 1 on a hit with a notification field and 0 otherwise. |
| `NtfyApp.Subscriptions` | src/app/main.py:90-91 | One subscription per mapping, to that mapping's MQTT topic, in list order. |
| `NtfyApp.ClientActions` | src/app/main.py:84-95 | With MQTT enabled: create a client, connect to the configured host, subscribe once per mapping in order, then loop. With MQTT disabled: exactly one error entry and no client. In neither case is anything posted. |
| `NtfyApp.StartClient` | src/app/main.py:84-95 | The subscription loop produces exactly `ClientActions`. |
| `NtfyApp.ConfigureLogging` | src/app/data/data_classes.py:87-102 | Logging setup succeeds exactly when the merged path is truthy, a rotation and a format are set, `logging` accepts the format string, and the level is `None` or a standard level name; it then logs one info entry. The checks fail in source order, each with its own exception: falsy path, missing rotation, missing format, rejected format string, unknown level. A failed setup logs nothing. |
| `NtfyApp.CompleteRootConfiguresLogging` | src/app/data/data_classes.py:84-102 | When the device-wide settings hold a path, a rotation, an accepted format and a known level (or none), logging setup after the merge cannot fail, provided the module's own format and level, where set, are accepted as well. |
| `NtfyApp.PlainFormatStopsSetup` | src/app/data/data_classes.py:95-100 | With a truthy path and a rotation, the format string `plain` makes setup raise the format error, with nothing logged, whatever the level, date format and file are. |
| `StdLogging.FieldAtStart` | src/app/data/data_classes.py:97 | A field `%(name)` followed by flags, width and precision that fit and a conversion character matches the validation pattern where it starts, whatever text surrounds it. |
| `StdLogging.FieldFormatAccepted` | src/app/data/data_classes.py:97 | Any format string containing a field `%(name)c`, with a non-empty name of word characters and a conversion character, is accepted. |
| `StdLogging.EmptyFormatAccepted` | src/app/data/data_classes.py:97 | An empty format string is accepted, because the formatter replaces it with `%(message)s`. |
| `StdLogging.NoPercentRejected` | src/app/data/data_classes.py:97 | A non-empty format string without any `%` is rejected. |
| `StdLogging.PlainFormatRejected` | src/app/data/data_classes.py:97 | The format string `plain` is rejected. |
| `StdLogging.PaddedSpecFits` | src/app/data/data_classes.py:97 | `-8` (a flag and a width) fits between a field's name and its conversion character, as in `%(levelname)-8s`. |
| `StdLogging.PrecisionSpecFits` | src/app/data/data_classes.py:97 | `#05.3` (flags, a width and a precision) fits between a field's name and its conversion character. |
| `StdLogging.BarePrecisionMisfits` | src/app/data/data_classes.py:97 | `5.` does not fit: a precision needs digits or `*` after its `.`. |
| `NtfyApp.Run` | src/app/main.py:76-95 | The module's logging settings become `Merged` of their old value and the device's settings. If logging setup raises, `run` raises the same and creates no client. Otherwise the trace is the setup's info entry followed by `ClientActions` for the mappings and the MQTT settings. |
| `Text.SplitJoin` | src/app/main.py:41 | `",".join` is undone by `str.split(",")` for a non-empty list of tags that contain no comma: the join keeps every tag, in order. |
| `Text.JoinLength` | src/app/main.py:41 | The joined text is as long as the tags together plus one separator between each neighbouring pair. |
| `Text.JoinEndsWithLast` | src/app/main.py:41 | The joined text ends with the last tag, so there is no trailing separator. |
| `Text.NatToDecimal` | src/app/main.py:40 | `str` of a non-negative integer is a non-empty run of digits with no leading zero. |
| `Text.DecimalRoundTrip` | src/app/main.py:40 | Reading the digits of `str(n)` gives back `n`. |
| `Text.IntTextRoundTrip` | src/app/main.py:40 | `int(str(n)) == n` for every integer `n`, negative ones included. |
| `DataClasses.DefaultLoggingConfig` | src/app/data/data_classes.py:21-26 | A `LoggingConfig` built with no arguments has all four settings unset. |
| `DataClasses.Merged` | src/app/data/data_classes.py:33-41 | Each of path, level, format and rotation that was falsy on the module takes the root's value. Each that was truthy is kept. `file` never changes. |
| `DataClasses.MergedIdempotent` | src/app/data/data_classes.py:33-41 | Merging a second time with the same root changes nothing. |
| `DataClasses.MergedSetIff` | src/app/data/data_classes.py:34-41 | After a merge, a setting is set exactly when the module or the root had it set. |
| `DataClasses.ModuleLoggingConfig.Merge` | src/app/data/data_classes.py:33-41 | The object's new value is `Merged` of its old value and the root settings. The root is a value and cannot change. |
| `DataClasses.ModuleLoggingConfig.constructor` | src/app/data/data_classes.py:29-31 | The new object holds exactly the given path, level, format, rotation and file. |
| `DataClasses.NewNtfyOptions` | src/app/data/data_classes.py:44-48 | Priority defaults to 3 and tags to empty. |
| `DataClasses.NewNtfy` | src/app/data/data_classes.py:51-54 | Options default to `None`. |
| `DataClasses.NewNtfyModuleConfig` | src/app/data/data_classes.py:63-66 | The mapping list defaults to empty. |
| `DataClasses.DefaultMQTTConfig` | src/app/data/data_classes.py:69-72 | MQTT defaults to disabled, with host `mqtt://localhost`, so the client is not started. |

## Left out

- JSON decoding and the lossy UTF-8 decode of the payload are library calls. The handler is given the already-extracted `notification` field as an `Option<string>`. `None` stands for a missing field and for a payload that is not JSON; both raise the same way. A `notification` value that is not a JSON string is not modelled.
- The HTTP post (`requests.post`) is not performed. The model returns the request handed to it. Its response and any transport error are not modelled.
- The paho MQTT client is external transport. Client creation, connect, subscribe and `loop_forever` are trace entries. Registering the `on_connect` and `on_message` callbacks is not modelled.
- Loading the two configuration files (`__get_module_configuration`, `__get_nsp_configuration`) is file I/O. JSON deserialisation into the records (`JSONWizard.from_dict`) is a foreign library. `Run` starts from already-loaded records.
- `__configure_logging` sets up directories, a rotating file handler and Python's logging. The model keeps its call to `merge`, the three failures caused by unset settings, and its info entry (`ConfigureLogging`). It does not model the directory, the file handler or the logger they create.
- `Run`: assumes that the OS lets the log directory be created and the log file be opened. When either fails the source raises before creating a client, and the model does not show that.
- `ConfigureLogging`: makes the same OS assumption, and assumes that the root logger has no handler yet when `basicConfig` runs, as in a fresh process; with a handler in place `basicConfig` does nothing, so neither the format nor the level would be checked.
- `FormatAccepted`: treats only ASCII letters, digits and `_` as word characters and only ASCII digits as digits, and folds case only for ASCII letters. Python's pattern also accepts non-ASCII letters and digits in a field, and a few non-ASCII characters that fold to a conversion letter; such format strings are rejected by the model.
- `LevelAccepted`: knows only the standard level names; names registered with `logging.addLevelName` are not modelled (the bridge registers none).
- `NtfyOptions.tags` is modelled as a list of strings. Its declared default factory is `str`, an empty string, which joins to `""` just like the empty list. A non-empty string given as tags would be joined character by character; this is not modelled.
- `SendNotification` requires the mapping to have options. With `options` set to `None`, the code fails when it builds the `Title` header.
- Python's logger itself is not modelled. Log entries are trace items with a level and a text.
