/** What the monitor exchanges with the Homey platform and the network:
    the first event a probe socket reports, the probe's result, the calls the
    monitor makes into the capability store, the driver's trigger cards, the
    app's diagnostic log and the network, and the settings object handed to
    `onSettings`. */
module Platform {
  import opened Js

  /** The first of the socket's `connect`, `timeout` and `error` events. An
      error carries its `code` property (Undefined when absent, also when the
      error itself is null) and the text the utility `varToString` renders it as. */
  datatype Outcome =
    | Connected
    | TimedOut
    | SocketError(code: JsValue, rendered: string)

  /** What `tcpPing` resolves with (its elapsed-time field is not modelled). */
  datatype PingResult = PingResult(online: bool, reason: string)

  /** How a monitor names its device in log lines: the device name, the host,
      and the port when the monitor considers one configured. */
  datatype DeviceLabel = DeviceLabel(name: string, host: JsValue, shownPort: Option<JsValue>)

  /** `deviceName()`: name + " - " + host, then ": " + port when a port is shown. */
  function LabelText(l: DeviceLabel): string {
    l.name + " - " + ToJsString(l.host) + (if l.shownPort.Some? then ": " + ToJsString(l.shownPort.value) else "")
  }

  /** The log lines the monitors write, one case per template literal. */
  datatype Message =
    | InvalidHost(deviceName: string)
    | InvalidPort(deviceName: string)
    | DeviceTimeout(device: DeviceLabel)
    | UnusualResponse(reason: string, device: DeviceLabel)
    | SkippingCheck(deviceName: string)
    | Checking(prefix: string, device: DeviceLabel)
    | Postponed(device: DeviceLabel, left: JsValue)
    | NowState(online: bool, device: DeviceLabel)
    | StillState(online: bool, device: DeviceLabel)
    | SlowedDown(interval: JsValue)

  function StateWord(online: bool): string {
    if online then "Online" else "Offline"
  }

  /** The text of a log line, as its template literal renders it. */
  function Text(m: Message): string {
    match m
    case InvalidHost(n) => "Invalid host setting for device " + n
    case InvalidPort(n) => "Invalid port setting for device " + n
    case DeviceTimeout(d) => "Device Timeout " + LabelText(d)
    case UnusualResponse(reason, d) => "Response with " + reason + " (device " + LabelText(d) + " )"
    case SkippingCheck(n) => "Skipping check for device " + n + ": invalid host"
    case Checking(prefix, d) => "Checking " + prefix + " device " + LabelText(d)
    case Postponed(d, left) => LabelText(d) + " offline postponed for " + ToJsString(left) + " more checks"
    case NowState(online, d) => "**** Device is now " + StateWord(online) + " " + LabelText(d)
    case StillState(online, d) => "Device still " + StateWord(online) + " " + LabelText(d)
    case SlowedDown(interval) => "Device slow down " + ToJsString(interval)
  }

  /** One call the monitor makes into its surroundings. */
  datatype Effect =
    | Log(message: Message, level: int)                    // app.updateLog(Text(message), level)
    | SetAlarm(offline: bool)                              // setCapabilityValue('alarm_connectivity', ...)
    | SetOnOff(on: bool)                                   // setCapabilityValue('onoff', ...)
    | CameOnline                                           // driver.device_came_online(this)
    | WentOffline                                          // driver.device_went_offline(this)
    | Probe(host: JsValue, port: JsValue, timeoutSec: JsValue) // tcpPing(host, port, timeout)
    | ClearTimeout                                         // homey.clearTimeout(this.timer)

  /** The level `updateLog` uses when the caller passes none. */
  const DefaultLevel: int := 1

  /** The availability effects: a capability write or a trigger. */
  predicate IsPublication(e: Effect) {
    e.SetAlarm? || e.SetOnOff? || e.CameOnline? || e.WentOffline?
  }

  predicate Quiet(effects: seq<Effect>) {
    forall i :: 0 <= i < |effects| ==> !IsPublication(effects[i])
  }

  predicate IsTrigger(e: Effect) {
    e.CameOnline? || e.WentOffline?
  }

  /** The trigger calls among a run of effects, in order. */
  function Triggers(effects: seq<Effect>): (t: seq<Effect>)
    ensures |t| <= |effects|
    ensures forall i :: 0 <= i < |t| ==> IsTrigger(t[i])
  {
    if effects == [] then []
    else (if IsTrigger(effects[0]) then [effects[0]] else []) + Triggers(effects[1..])
  }

  lemma {:induction false} TriggersAppend(a: seq<Effect>, b: seq<Effect>)
    ensures Triggers(a + b) == Triggers(a) + Triggers(b)
  {
    if a != [] {
      assert (a + b)[1..] == a[1..] + b;
      TriggersAppend(a[1..], b);
    } else {
      assert a + b == b;
    }
  }

  lemma {:induction false} QuietAppend(a: seq<Effect>, b: seq<Effect>)
    ensures Quiet(a + b) <==> Quiet(a) && Quiet(b)
  {
    if Quiet(a) && Quiet(b) {
      forall i | 0 <= i < |a + b| ensures !IsPublication((a + b)[i]) {
        if i >= |a| {
          assert (a + b)[i] == b[i - |a|];
        }
      }
    }
    if Quiet(a + b) {
      forall i | 0 <= i < |a| ensures !IsPublication(a[i]) {
        assert (a + b)[i] == a[i];
      }
      forall i | 0 <= i < |b| ensures !IsPublication(b[i]) {
        assert (a + b)[|a| + i] == b[i];
      }
    }
  }

  lemma {:induction false} QuietHasNoTriggers(effects: seq<Effect>)
    requires Quiet(effects)
    ensures Triggers(effects) == []
  {
    if effects != [] {
      QuietHasNoTriggers(effects[1..]);
    }
  }

  /** The settings object `onSettings` receives. The numeric settings are
      number fields of the settings form and always arrive as numbers. */
  datatype NewSettings = NewSettings(
    host: JsValue,
    tcpPort: JsValue,
    hostCheckInterval: int,
    hostTimeout: int,
    hostUnreachableChecks: int)

  /** The device settings (`host`, `tcp_port`, `host_check_interval`,
      `host_timeout`, `host_unreachable_checks`), by their ids. */
  datatype SettingKey = HostKey | PortKey | IntervalKey | TimeoutKey | UnreachableChecksKey

  function KeyName(k: SettingKey): string {
    match k
    case HostKey => "host"
    case PortKey => "tcp_port"
    case IntervalKey => "host_check_interval"
    case TimeoutKey => "host_timeout"
    case UnreachableChecksKey => "host_unreachable_checks"
  }

  /** The settings as the platform stores them; a missing key reads as undefined. */
  type Settings = map<SettingKey, JsValue>

  function GetSetting(settings: Settings, key: SettingKey): JsValue {
    if key in settings then settings[key] else Undefined
  }

  predicate StoredSettings(settings: Settings) {
    forall k :: k in settings ==> Storable(settings[k])
  }
}
