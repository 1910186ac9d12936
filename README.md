# alive-boi liveness protocol, modelled in Dafny

alive-boi is an MQTT agent that announces that a device is present. At startup
it registers a last will with the broker. The last will is a retained `Dead`
report, which the broker publishes if the connection dies. After the session
opens, the agent publishes a retained `Alive` report. From then on it answers
connection notifications: each `Reconnection` publishes a retained
`Reconnected` report. `Disconnection` and every other notification publish
nothing. All reports carry the device name and the one start time read when
the process started. So a subscriber can tell a restart (new start time) from
a reconnection (same start time).

The model follows `main` in `src/main.rs`:

- `Report`: `Status`, `AliveReport` and the serialisation oracle `Serializer`.
  The oracle says whether JSON serialisation of a report succeeds.
- `Session`: the values given to the MQTT client. These are `LastWill`,
  `MqttOptions`, the publish request `Message`, `ClientId`, `LastWillFor` and
  `SessionOptions`. `DefaultMqttPort` is the constant 1883.
- `Client`: class `MqttClient`, the session handle. It keeps what the agent's
  own publish calls leave behind: the log of accepted publications
  (`published`) and the retained report per topic that they set
  (`retained`). Its invariant `Valid()` ties `retained` to
  `RetainedView(published)`, the latest retained report per topic.
- `Policy`: the per-notification decision `Reaction` and one loop iteration
  `Step`. `Steps` is the state after a sequence of notifications: still
  running with a log, or halted with an exit.
- `Agent`: `Lifetime` is the whole run as a function of the profile, the
  serializer, the transport and the notification stream. `Run` is the
  imperative `main`, looping over the notifications with an `MqttClient`. It
  is proved to produce exactly what `Lifetime` describes.

The environment is made of parameters:

- The clock read becomes `Profile.startTime`.
- `Transport.connects` says whether `MqttClient::start` succeeds.
- `Transport.accepts(n)` says whether the n-th publish call (from 0) is accepted.
- The notification stream is a finite sequence. When it ends, `main` returns `Ok(())` (`Completed`).

Error exits are modelled as in the source:

- A serialisation failure is `Failed(context)`, from the `?` operator.
- A failed connect or publish is `Panicked(message)`, from `expect`.

The source attaches the context "Failed to serialize last will message" to all
three serialisations, including the `Alive` and `Reconnected` reports. The
model keeps that text at every site.

## Model

| member | source | states |
|---|---|---|
| Session.ClientId | src/main.rs:64 | the client id is the prefix `alive_boi_` followed by exactly the device name |
| Session.ClientIdInjective | src/main.rs:64 | two devices get the same client id exactly when their names are equal, so the id is stable across restarts |
| Session.LastWillFor | src/main.rs:50-62 | the last will exists exactly when the `Dead` report serialises; it is that report (device name, start time) on the topic, at least once, retained; otherwise the error carries the serialisation context |
| Session.SessionOptions | src/main.rs:64-68 | options carry the derived client id, the host, port 1883, the last will, keep-alive 5 and reconnect policy `Always(5)` |
| Client.MqttClient.Start | src/main.rs:69-70 | an opened session holds the given options, has published nothing and retains nothing |
| Client.MqttClient.Publish | src/main.rs:78-86 | a publish call is accepted per the transport; an accepted one is appended to the log of accepted publications and, when retained, replaces the topic's retained report; the invariant retained = latest retained report per topic is kept |
| Client.RetainedIsLast | src/main.rs:100-104 | when every publication is retained on one topic, exactly the latest report is retained |
| Policy.Reaction | src/main.rs:89-113 | a notification calls for a publication exactly when it is a `Reconnection`, and then of status `Reconnected` |
| Policy.StepsAppend | src/main.rs:88 | notifications are handled strictly in order: handling a stream in two parts equals handling the parts one after the other |
| Policy.HaltedStays | src/main.rs:100-108 | after an error or panic no further notification is handled and nothing more is published |
| Policy.ReconnectionPublishesOnce | src/main.rs:93-108 | a `Reconnection` while running publishes exactly one `Reconnected` report on the topic, at least once and retained, before the next notification; or halts with the serialisation error or the send panic, publishing nothing |
| Policy.SilentNotificationIgnored | src/main.rs:90-112 | a `Disconnection` or any other notification publishes nothing and does not end the loop |
| Policy.OnlyReconnectionsMatter | src/main.rs:88-114 | the run over a stream is the run over its `Reconnection` notifications alone |
| Policy.StepsTrace | src/main.rs:88-114 | the loop only appends `Reconnected` reports to the log; while it runs there is one per `Reconnection`; it can stop only with the serialisation error or the send panic |
| Agent.Run | src/main.rs:41-116 | the imperative run ends with the exit of `Lifetime`, opens a session exactly when `Lifetime` does, with its options, and leaves the client with its accepted publications and the matching retained reports |
| Agent.SessionCarriesLastWill | src/main.rs:56-70 | a session is opened exactly when the last will serialises and the connect succeeds, and it carries that last will; a last-will serialisation failure ends the run with its error before any session; without a session nothing is published |
| Agent.AliveFirst | src/main.rs:69-88 | the first publication is the `Alive` report, made only after the session opened; all later ones are `Reconnected` reports; the `Alive` report is published exactly when the session opened, it serialises and the first publish call is accepted, however the run ends |
| Agent.StartTimeStable | src/main.rs:48-108 | every published report, and the last will's `Dead` report, carries the device name and the one start time; every publication is on the topic, at least once and retained |
| Agent.PublishCount | src/main.rs:88-114 | a completed run publishes 1 + (number of `Reconnection` notifications) reports |
| Agent.RetainedAfterRun | src/main.rs:78-108 | the retained report the agent's publications leave on the topic is the latest one published; after a completed run it is `Reconnected` if any reconnection occurred and `Alive` otherwise |
| Agent.AbortIsFinal | src/main.rs:69-108 | a run that failed or panicked is unchanged by any further notifications: no later publish happens |

## Left out

- JSON encoding (serde_json and chrono): the payload text and the timestamp format are not modelled. A publication records the report whose serialisation was sent. Serialisation success is a parameter, so no decode round trip is claimed.
- The clock (`Local::now`): the start time is a parameter, read once by construction.
- The rumqtt transport: the network, keep-alive timing and reconnect back-off are not modelled. Only the option values passed in, the connect and publish outcomes, and the notification stream are.
- Client.MqttClient: `retained` is the latest retained report among the agent's own accepted publish calls. It is not the broker's state. It leaves out the broker delivering the `Dead` last will after an unclean disconnect. It leaves out whatever the broker already retained on the topic before the session opened. It leaves out the gap between an accepted `publish` call and the broker storing the message.
- Agent.RetainedAfterRun: its `Reconnected`/`Alive` conclusion is about that register of the agent's own publications. A broker-delivered `Dead` last will is not part of it, for the reason above.
- Broker retained-message rules beyond overwrite: an empty retained payload clears the topic in MQTT. The model does not say so, because the agent's payloads are never empty.
- Command-line parsing with clap and `get_configuration` (file and environment loading): these are I/O. The loaded configuration is discarded by `main`. Its error, returned before the start time is read, is not modelled.
- `setup_tracing` and the `warn!` log lines: these are logging only.
- The tokio runtime: nothing in the logic is concurrent.
- The notification stream is finite in the model. An unbounded stream is covered by `Policy.StepsAppend` and `Agent.AbortIsFinal`, which speak about every finite prefix.
