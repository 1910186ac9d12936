/**
 * The values handed to the MQTT client: the last-will registration, the
 * session options and the publish requests.
 */
module Session {
  import opened Wrappers
  import opened Report

  newtype u16 = x: int | 0 <= x < 0x1_0000

  /** `DEFAULT_MQTT_PORT`; `main` passes the same number as a literal. */
  const DefaultMqttPort: u16 := 1883

  const ClientIdPrefix := "alive_boi_"

  datatype QoS = AtMostOnce | AtLeastOnce | ExactlyOnce

  datatype ReconnectOptions = Never | AfterFirstSuccess(delaySecs: nat) | Always(delaySecs: nat)

  /** A message the broker publishes on the client's behalf if the session dies uncleanly. */
  datatype LastWill = LastWill(topic: string, message: AliveReport, qos: QoS, retain: bool)

  datatype MqttOptions = MqttOptions(
    clientId: string,
    brokerHost: string,
    port: u16,
    lastWill: Option<LastWill>,
    keepAliveSecs: u16,
    reconnect: ReconnectOptions)

  /** One `publish` call: topic, quality of service, retain flag and the report serialised as payload. */
  datatype Message = Message(topic: string, qos: QoS, retain: bool, report: AliveReport)

  /** The parsed command line. */
  datatype Cli = Cli(mqttHost: string, deviceName: string, topic: string)

  /** The process's fixed identity: its arguments and the start time read once at startup. */
  datatype Profile = Profile(args: Cli, startTime: Timestamp)

  /** The client identifier: the fixed prefix followed by the device name. */
  function ClientId(deviceName: string): (id: string)
    ensures |id| == |ClientIdPrefix| + |deviceName|
    ensures id[..|ClientIdPrefix|] == ClientIdPrefix
    ensures id[|ClientIdPrefix|..] == deviceName
  {
    ClientIdPrefix + deviceName
  }

  /** The broker sees the same identity across restarts of one device, and distinct devices apart. */
  lemma ClientIdInjective(a: string, b: string)
    ensures ClientId(a) == ClientId(b) <==> a == b
  {
  }

  /**
   * The last will: a `Dead` report for the device carrying the process start
   * time, on the configured topic, at least once and retained. Serialisation
   * failure is an error, raised before any session exists.
   */
  function LastWillFor(args: Cli, startTime: Timestamp, serializes: Serializer): (r: Result<LastWill>)
    ensures r.Ok? <==> serializes(AliveReport(args.deviceName, Dead, startTime))
    ensures r.Ok? ==> r.value.topic == args.topic && r.value.qos == AtLeastOnce && r.value.retain
    ensures r.Ok? ==> r.value.message.status == Dead
    ensures r.Ok? ==> r.value.message.unitName == args.deviceName && r.value.message.startTime == startTime
    ensures r.Err? ==> r.context == SerializeContext
  {
    var deadReport := AliveReport(args.deviceName, Dead, startTime);
    if serializes(deadReport) then
      Ok(LastWill(args.topic, deadReport, AtLeastOnce, true))
    else
      Err(SerializeContext)
  }

  /**
   * The session options: derived client id, the broker host on the default
   * port, the last will, a 5 second keep-alive and reconnection always after 5 seconds.
   */
  function SessionOptions(args: Cli, will: LastWill): (o: MqttOptions)
    ensures o.clientId == ClientId(args.deviceName) && o.brokerHost == args.mqttHost
    ensures o.port == DefaultMqttPort
    ensures o.lastWill == Some(will)
    ensures o.keepAliveSecs == 5 && o.reconnect == Always(5)
  {
    MqttOptions(ClientId(args.deviceName), args.mqttHost, 1883, Some(will), 5, Always(5))
  }

  /** The publication of a status report for this process: on its topic, at least once, retained. */
  function Announce(p: Profile, status: Status): Message
  {
    Message(p.args.topic, AtLeastOnce, true, AliveReport(p.args.deviceName, status, p.startTime))
  }
}
