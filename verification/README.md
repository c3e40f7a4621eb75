# Elasticsearch chat-store plugin — a Dafny model

This project models the `astrbot_plugin_es_chat_store` plugin (`EsChatStorePlugin` in
`main.py`). The plugin stores every gewechat message in an Elasticsearch index and has
administrator commands that switch storage on and off and edit its configuration file.

The model has two parts.

* **Record normalisation** (`Records`). This is the document `on_message` builds. The sender
  name falls back to the sender id. The platform tag is always `"gewechat"`. A raw
  timestamp strictly above 10^12 is read as milliseconds; anything else, 10^12 included, is
  read as seconds. Seconds are an exact `real`. A time outside the range of Python's
  `datetime` makes the handler's conversion raise, and that message is not stored.
* **The plugin state machine** (`Plugin`). The state is `enabled`, `es_host`, `es_index` and
  the client. The configuration file is `Option<map<string, Value>>`, where `None` means the
  file does not exist. Each of `initialize`, `eschat_enable`, `eschat_disable` and
  `eschat_config` is a pure function. It takes the state, the file, an is-administrator
  flag, the command text and the backend outcome (`Probe`). It returns the new state, the
  new file and the replies, in order. The replies are the plugin's own Chinese strings.

Supporting modules:

* `Tokens` models Python's argument-less `str.split()`, which `eschat_config` uses on the
  command text. It uses Python's whitespace set.
* `JsonValue` models the JSON scalars a configuration file can hold, plus Python truthiness,
  `dict.get` and `str()`.
* `PluginProperties` holds lemmas that relate several commands.

Two behaviours of the code are worth stating on their own.

* `eschat_enable` leaves the plugin switched on after a failed ping. `initialize` turns it
  off in the same situation. `eschat_enable` writes `enabled: true` and sets
  `self.enabled = True` before it pings, and it never undoes either (main.py:177-192).
  Only its reply reports the failure. `initialize` falls back to disabled on a failed ping
  or an error (main.py:77-82). See `PluginProperties.EnableAndInitializeDisagreeOnFailure`.
* `eschat_config` replies that a reload is needed, yet it changes the in-memory host and
  index at once (main.py:249, 252). The next stored message goes to the new index, and the
  next `enable` connects to the new host. See `PluginProperties.ConfigTakesEffectWithoutReload`.

## Model

| member | source | states |
|---|---|---|
| Records.NormalizeTimestamp | main.py:124 | A raw value strictly above 10^12 becomes a seconds value that is exactly one thousandth of it. Any other value, 10^12 included, is kept as seconds. |
| Records.UnitsAgree | main.py:124 | For a positive seconds value up to 10^12, the seconds form and the milliseconds form normalise to the same time if and only if the value is above 10^9. |
| Records.SenderName | main.py:122 | The sender name is the nickname when it is present and non-empty. Otherwise it is the sender id. |
| Records.BuildRecord | main.py:119-127 | The document always has platform `gewechat`. Group id, sender id, text and message id are copied verbatim. The name is the nickname when it is present and non-empty, and the sender id otherwise. The timestamp obeys the millisecond rule. |
| Records.Normalize | main.py:119-133 | A document is produced if and only if the normalised time lies in `datetime`'s range, years 1 to 9999, taken in UTC. When produced, it is the built record. Otherwise the error is caught and nothing is stored. |
| Records.ThresholdValueIsDropped | main.py:124 | The raw value 10^12 itself is read as seconds, which is year 33658, so the message is not stored. |
| Records.MisreadMilliseconds | main.py:124 | A time up to 10^9 seconds that is sent in milliseconds is read as seconds. It is stored, with a timestamp a thousand times too large, if and only if it is at most 253402300 seconds (January 1978). |
| Plugin.OnMessage | main.py:108-133 | A document is emitted if and only if three things hold: the plugin is enabled, it has a client, and the normalised time lies in `datetime`'s range. The document is the normalised record, sent to the client's host and the current index. |
| Plugin.Fresh | main.py:37-43 | The constructor state is disabled and has no client, so it stores no message. |
| Plugin.Load | main.py:50-55 | A present file is read field by field. A missing host or index falls back to the default. A missing `enabled` falls back to false, not to the in-memory value. Reading leaves no client. |
| Plugin.DefaultFile | main.py:56-64 | The default document `initialize` writes reads back, field by field, as the constructor state. |
| Plugin.Initialize | main.py:45-82 | A missing file is replaced by the default document and the constructor state. A present file is never rewritten. The plugin ends enabled if and only if the file exists, its `enabled` is truthy and the backend is reachable. A client for the host exists exactly when `enabled` was truthy and building the client did not raise. After a failed ping or check, the plugin is disabled but keeps that client. |
| Plugin.EnableCmd | main.py:163-196 | A non-administrator gets one refusal and nothing changes. A missing file gets one reply and nothing changes. Otherwise the file's and the state's `enabled` become true whatever the ping says, and host and index are kept. A client is built unless building it raises. There is exactly one reply, and it is the success reply if and only if the backend is reachable. On failure the reply names the host if the ping returned false, and carries the error text if a call raised. |
| Plugin.DisableCmd | main.py:198-223 | A non-administrator gets one refusal and nothing changes. A missing file gets one reply and nothing changes. Otherwise the file's and the state's `enabled` become false and the client is dropped. Host and index are kept. |
| Plugin.ConfigureCmd | main.py:225-265 | Order of checks: administrator, then fewer than three tokens (usage reply, nothing changes, even without a file), then missing file. Then `es_host` or `es_index` sets that one key in both the file and the state. Any other parameter gets one reply naming it, and the file and state stay as they were. |
| Plugin.Handle | main.py:163-265 | A non-administrator changes nothing. No command creates or deletes the file. Without a file the state is unchanged. Only `config` moves host or index. `config` never switches the plugin or its client. Every command replies. |
| Tokens.Split | main.py:233 | Every token is non-empty and whitespace-free. Concatenated, the tokens are exactly the non-whitespace characters of the text, in order. The text is the tokens with whitespace-only gaps around them and a non-empty gap between any two, so each token is a maximal whitespace-free run. |
| Tokens.SplitJoin | main.py:233-239 | Splitting whitespace-free words joined by single spaces gives the words back. |
| Tokens.SplitUnique | main.py:233 | Any reading of the text as whitespace-free words with whitespace gaps, where each gap between two words is non-empty, is exactly the split. |
| PluginProperties.ConfigSetsOneKey | main.py:238-261 | `config <es_host or es_index> v` writes exactly that key as `v` and keeps every other key of the file. It keeps the switch, the client and the other setting, gives both replies, and a reload reads `v` back. |
| PluginProperties.EnableAndInitializeDisagreeOnFailure | main.py:77-82 | If the backend is not reachable, `enable` still leaves the plugin on and does not give the success reply. A reload with the same outcome then turns it off. |
| PluginProperties.EnableSurvivesReload | main.py:177-182 | After `enable`, a reload that reaches the backend comes up enabled, with a client for its host. |
| PluginProperties.DisableSurvivesReload | main.py:212-218 | After `disable`, no message is stored, either before or after a reload. |
| PluginProperties.DefaultFileRoundTrip | main.py:56-64 | The default file written by `initialize` reads back as the constructor state and is not written again. |
| PluginProperties.SwitchesIdempotent | main.py:177-218 | Repeating `disable` changes nothing. Repeating `enable`, after any first outcome, keeps the plugin on and leaves the file as it was. |
| PluginProperties.ConfigTakesEffectWithoutReload | main.py:247-252 | A new index applies to the next stored message. A new host applies to the next `enable`. Neither needs a reload. |
| PluginProperties.EnableClientFaultKeepsOldClient | main.py:182-196 | If building the client raises, `enable` replies with the failure but leaves the plugin on with the client it had before. With no client, messages are silently dropped. With an old client, they keep going to that client's host. |
| PluginProperties.ClientFaultCasesReachable | main.py:68-79 | A reload whose ping fails or raises leaves the plugin off but still holding a client for its host. If a later `enable` then fails to build a client, messages still reach that old client. |

## Left out

- Records.Normalize: the range of `datetime` is taken in UTC. On a host with a UTC offset, `fromtimestamp` shifts both bounds by that offset. CPython's local-time fold check looks one day earlier, so during the first day of year 1 it also raises, which moves the real lower bound a day later than `MinDatetimeSeconds`. Microsecond rounding at the very edge is not modelled either.
- Elasticsearch calls (`ping`, `indices.exists`, `indices.create`, `index`, `count`, `close`). These are network I/O. Their outcome is the `Probe` input, and a stored message is an emitted `Write`. A failing `index` call is only logged, so it changes nothing that the model tracks.
- `create_index` and its mapping (main.py:84-103). This is a fixed literal passed to the library, and its failures are only logged.
- Reading and writing the JSON file, and building its path. The file is an `Option` of a map. A file that is not valid JSON, or whose top level is not an object, is not modelled. Neither are read or write errors in `enable`, `disable` and `config` (main.py:195-196, 222-223, 264-265). In `enable` and `disable`, the file is written before the state changes, so an error there only produces a failure reply.
- Plugin.ConfigureCmd: assumes rewriting the file succeeds. If that write raises (main.py:257-258), the reply is `配置失败: …`. The in-memory host or index has already changed (main.py:249, 252), but the file keeps the old value.
- JSON floats, arrays and objects as configuration values. Only strings, booleans, integers and null are modelled.
- Plugin.Initialize: keeps only the truth value of a non-boolean `enabled` read from the file. The source keeps the original value, but every later use of it is a truth test.
- Plugin.Initialize: starts from the constructor state, because the framework calls it once per plugin instance.
- The `eschat_status` command (main.py:135-161). It only assembles text from backend replies.
- The `helloworld` plugin and `terminate` (main.py:13-32, 267-274). These are framework boilerplate and closing the client.
- Platform filtering by decorators, and async reply mechanics (main.py:105-107). Replies are a returned sequence.
- The local-time value `datetime.fromtimestamp` builds, and floating-point division. Normalised time is an exact count of seconds. Only the function's range error is modelled.
- Logging.
