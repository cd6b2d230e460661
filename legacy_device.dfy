/** The older copy of the monitor in drivers/tcp_ip_device.js. It keeps the
    settings as the platform hands them over (no guards), decides whether a
    port is configured from the stored `tcp_port` setting rather than from
    its own field, spells its unusual reasons "uknown", re-parses the old
    interval and timeout in `onSettings`, and always re-arms its timer.

    As in module Device, a step function describes each method and the class
    LegacyMonitor is proved to perform it. `storedPort` is the value
    `getSetting('tcp_port')` returns at the time of the call. */
module LegacyDevice {
  import opened Js
  import opened Platform
  import Device

  /** The fields. The configuration keeps raw setting values; `timer` holds
      the delay its timer was armed with, NaN included. */
  datatype State = State(
    host: JsValue,
    port: JsValue,
    actionInterval: JsValue,
    hostTimeout: JsValue,
    maxUnreachableAttempts: JsValue,
    unreachableCount: int,
    wasOnline: Option<bool>,
    timer: Option<JsValue>)

  datatype Step = Step(state: State, effects: seq<Effect>)

  /** `initVariables()`: every setting copied as it is stored. */
  function Initial(settings: Settings, alarm: JsValue): State {
    State(
      host := GetSetting(settings, HostKey),
      port := GetSetting(settings, PortKey),
      actionInterval := GetSetting(settings, IntervalKey),
      hostTimeout := GetSetting(settings, TimeoutKey),
      maxUnreachableAttempts := GetSetting(settings, UnreachableChecksKey),
      unreachableCount := 0,
      wasOnline := Some(!Truthy(alarm)),
      timer := None)
  }

  /** `hasPortDefined()`. */
  predicate HasPortDefined(storedPort: JsValue) {
    storedPort != Null
  }

  /** `devicceName()`: the port field is shown when the stored setting is non-null. */
  function Label(name: string, s: State, storedPort: JsValue): (l: DeviceLabel)
    ensures l.name == name && l.host == s.host
    ensures l.shownPort.Some? <==> HasPortDefined(storedPort)
    ensures l.shownPort.Some? ==> l.shownPort.value == s.port
  {
    DeviceLabel(name, s.host, if HasPortDefined(storedPort) then Some(s.port) else None)
  }

  /** `allAttemptsExhuusted()`: `unreachableCount > maxUnreachableAttempts`
      with JavaScript's conversion of the right-hand side. */
  predicate AllAttemptsExhausted(s: State) {
    LooseGreater(s.unreachableCount, s.maxUnreachableAttempts)
  }

  /** `maxUnreachableAttempts - unreachableCount + 1`. */
  function LeftCounter(s: State): JsValue {
    match ToNumber(s.maxUnreachableAttempts)
    case Some(m) => Num(m - s.unreachableCount + 1)
    case None => NotANumber
  }

  /** `withJitter(actionInterval * 1000)`, NaN when the interval is not a number. */
  function JitteredDelay(interval: JsValue, u: real): JsValue
    requires 0.0 <= u < 1.0
  {
    match ToNumber(interval)
    case Some(n) => Num(Device.WithJitter(n * 1000, u))
    case None => NotANumber
  }

  const UnknownCodePrefix: string := "uknown code: "
  const UnknownErrorPrefix: string := "uknown error: "

  /** The `if`-chain of `tcpPing`'s error handler. */
  function Classify(o: Outcome): (r: PingResult)
    ensures r.online <==> o.Connected? || (o.SocketError? && o.code == Str("EALREADY"))
  {
    match o
    case Connected => PingResult(true, "connected")
    case TimedOut => PingResult(false, "timeout")
    case SocketError(code, rendered) =>
      if Truthy(code) then
        if code == Str("ECONNREFUSED") then PingResult(false, "refused")
        else if code == Str("EHOSTUNREACH") then PingResult(false, "unreach")
        else if code == Str("ENOTFOUND") then PingResult(false, "notfound")
        else if code == Str("EALREADY") then PingResult(true, "ready")
        else PingResult(false, UnknownCodePrefix + ToJsString(code))
      else PingResult(false, UnknownErrorPrefix + rendered)
  }

  /** The log lines `processPingResult` writes before acting on the verdict. */
  function ProbeLogs(name: string, s: State, res: PingResult, storedPort: JsValue): seq<Effect> {
    (if res.reason == "timeout" then [Log(DeviceTimeout(Label(name, s, storedPort)), DefaultLevel)] else [])
    + (if StartsWith(res.reason, "uknown code") || StartsWith(res.reason, "uknown error")
       then [Log(UnusualResponse(res.reason, Label(name, s, storedPort)), DefaultLevel)]
       else [])
  }

  function AfterAvailabilityChange(name: string, s: State, isOnline: bool, storedPort: JsValue): Step {
    if s.wasOnline.None? || s.wasOnline.value != isOnline then
      Step(s.(wasOnline := Some(isOnline)),
           [ Log(NowState(isOnline, Label(name, s, storedPort)), DefaultLevel),
             SetAlarm(!isOnline),
             SetOnOff(isOnline),
             if isOnline then CameOnline else WentOffline ])
    else
      Step(s, [Log(StillState(isOnline, Label(name, s, storedPort)), DefaultLevel)])
  }

  function AfterAttempt(name: string, s: State, storedPort: JsValue): Step {
    if AllAttemptsExhausted(s) then AfterAvailabilityChange(name, s, false, storedPort)
    else
      Step(s.(unreachableCount := s.unreachableCount + 1),
           [Log(Postponed(Label(name, s, storedPort), LeftCounter(s)), DefaultLevel)])
  }

  function AfterVerdict(name: string, s: State, isOnline: bool, storedPort: JsValue): Step {
    if isOnline then AfterAvailabilityChange(name, s.(unreachableCount := 0), true, storedPort)
    else AfterAttempt(name, s, storedPort)
  }

  function AfterPingResult(name: string, s: State, res: PingResult, storedPort: JsValue): Step {
    var r := AfterVerdict(name, s, Device.Verdict(res, HasPortDefined(storedPort)), storedPort);
    Step(r.state, ProbeLogs(name, s, res, storedPort) + r.effects)
  }

  /** One run of `periodicAction`: there is no host guard, and the timer is
      always re-armed. */
  function AfterCycle(name: string, s: State, o: Outcome, u: real, storedPort: JsValue): Step
    requires 0.0 <= u < 1.0
  {
    var prefix := if HasPortDefined(storedPort) then "IP" else "TCP";
    var start := [ Log(Checking(prefix, Label(name, s, storedPort)), DefaultLevel),
                   Probe(s.host, Device.ProbePort(s.port), s.hostTimeout) ];
    var r := AfterPingResult(name, s, Classify(o), storedPort);
    Step(r.state.(timer := Some(JitteredDelay(r.state.actionInterval, u))), start + r.effects)
  }

  function AfterCleanTimer(s: State): Step {
    if s.timer.Some? then Step(s.(timer := None), [ClearTimeout]) else Step(s, [])
  }

  function AfterDelete(s: State): Step {
    AfterCleanTimer(s.(host := Null))
  }

  /** The field updates at the start of `onSettings`: host and port take the
      new values, interval and timeout are re-parsed from their old values,
      and the unreachable-check count is parsed from the new value. */
  function ApplyChangedKeys(s: State, ns: NewSettings, changedKeys: seq<SettingKey>): State {
    s.(host := if HostKey in changedKeys then ns.host else s.host,
       port := if PortKey in changedKeys then ns.tcpPort else s.port,
       actionInterval := if IntervalKey in changedKeys then OfParsed(ParseInt(s.actionInterval)) else s.actionInterval,
       hostTimeout := if TimeoutKey in changedKeys then OfParsed(ParseInt(s.hostTimeout)) else s.hostTimeout,
       maxUnreachableAttempts :=
         if UnreachableChecksKey in changedKeys then OfParsed(ParseInt(Num(ns.hostUnreachableChecks)))
         else s.maxUnreachableAttempts)
  }

  function AfterSettings(name: string, s: State, ns: NewSettings, changedKeys: seq<SettingKey>,
                         o: Outcome, u: real, storedPort: JsValue): Step
    requires 0.0 <= u < 1.0
  {
    var copied := ApplyChangedKeys(s, ns, changedKeys);
    if copied.timer.Some? then
      var cleaned := AfterCleanTimer(copied);
      var cycle := AfterCycle(name, cleaned.state, o, u, storedPort);
      Step(cycle.state, cleaned.effects + cycle.effects)
    else
      Step(copied, [])
  }

  /** `slowDown()`: `actionInterval *= 2`, NaN when the interval is not a number. */
  function AfterSlowDown(s: State): Step {
    var doubled := match ToNumber(s.actionInterval)
      case Some(n) => Num(n * 2)
      case None => NotANumber;
    Step(s.(actionInterval := doubled), [Log(SlowedDown(doubled), DefaultLevel)])
  }

  // ------------------------------------------------------------------
  // The device object

  class LegacyMonitor {
    const name: string
    var host: JsValue
    var port: JsValue
    var actionInterval: JsValue
    var hostTimeout: JsValue
    var maxUnreachableAttempts: JsValue
    var unreachableCount: int
    var wasOnline: Option<bool>
    var timer: Option<JsValue>
    ghost var trace: seq<Effect>

    function Snapshot(): State
      reads this
    {
      State(host, port, actionInterval, hostTimeout, maxUnreachableAttempts, unreachableCount, wasOnline, timer)
    }

    /** `onInit()`: copy the settings, then arm the first check after a
        jittered two seconds. */
    constructor (name: string, settings: Settings, alarm: JsValue, u: real)
      requires 0.0 <= u < 1.0
      ensures this.name == name
      ensures Snapshot() == Initial(settings, alarm).(timer := Some(Num(Device.WithJitter(Device.StartupDelayMs, u))))
      ensures trace == []
    {
      this.name := name;
      trace := [];
      new;
      InitVariables(settings, alarm);
      timer := Some(Num(Device.WithJitter(Device.StartupDelayMs, u)));
    }

    method InitVariables(settings: Settings, alarm: JsValue)
      modifies this
      ensures Snapshot() == Initial(settings, alarm)
      ensures trace == old(trace)
    {
      unreachableCount := 0;
      timer := None;
      wasOnline := Some(!Truthy(alarm));
      host := GetSetting(settings, HostKey);
      port := GetSetting(settings, PortKey);
      actionInterval := GetSetting(settings, IntervalKey);
      hostTimeout := GetSetting(settings, TimeoutKey);
      maxUnreachableAttempts := GetSetting(settings, UnreachableChecksKey);
    }

    method CleanTimer()
      modifies this
      ensures Snapshot() == AfterCleanTimer(old(Snapshot())).state
      ensures trace == old(trace) + AfterCleanTimer(old(Snapshot())).effects
    {
      if timer.Some? {
        trace := trace + [ClearTimeout];
        timer := None;
      }
    }

    method TcpPing(host: JsValue, port: JsValue, timeoutSec: JsValue, o: Outcome) returns (res: PingResult)
      modifies this`trace
      ensures res == Classify(o)
      ensures trace == old(trace) + [Probe(host, port, timeoutSec)]
    {
      trace := trace + [Probe(host, port, timeoutSec)];
      res := Classify(o);
    }

    method ProcessPingResult(res: PingResult, storedPort: JsValue)
      modifies this
      ensures Snapshot() == AfterPingResult(name, old(Snapshot()), res, storedPort).state
      ensures trace == old(trace) + AfterPingResult(name, old(Snapshot()), res, storedPort).effects
    {
      ghost var s0, t0 := Snapshot(), trace;
      var isOnline := res.online;
      if res.reason == "refused" && !HasPortDefined(storedPort) {
        isOnline := true;
      }
      if res.reason == "timeout" {
        trace := trace + [Log(DeviceTimeout(Label(name, Snapshot(), storedPort)), DefaultLevel)];
      }
      if StartsWith(res.reason, "uknown code") || StartsWith(res.reason, "uknown error") {
        trace := trace + [Log(UnusualResponse(res.reason, Label(name, Snapshot(), storedPort)), DefaultLevel)];
      }
      assert trace == t0 + ProbeLogs(name, s0, res, storedPort);
      if isOnline {
        HandleOnline(storedPort);
      } else {
        CompleteAnotherAttempt(storedPort);
      }
      AppendAssoc(t0, ProbeLogs(name, s0, res, storedPort), AfterVerdict(name, s0, isOnline, storedPort).effects);
    }

    method PeriodicAction(o: Outcome, u: real, storedPort: JsValue)
      requires 0.0 <= u < 1.0
      modifies this
      ensures Snapshot() == AfterCycle(name, old(Snapshot()), o, u, storedPort).state
      ensures trace == old(trace) + AfterCycle(name, old(Snapshot()), o, u, storedPort).effects
    {
      ghost var s0, t0 := Snapshot(), trace;
      var prefix := if HasPortDefined(storedPort) then "IP" else "TCP";
      trace := trace + [Log(Checking(prefix, Label(name, Snapshot(), storedPort)), DefaultLevel)];

      var res := TcpPing(host, if Truthy(port) then port else Num(Device.DefaultProbePort), hostTimeout, o);
      ghost var start := [ Log(Checking(prefix, Label(name, s0, storedPort)), DefaultLevel),
                           Probe(s0.host, Device.ProbePort(s0.port), s0.hostTimeout) ];
      assert trace == t0 + start;
      ProcessPingResult(res, storedPort);
      AppendAssoc(t0, start, AfterPingResult(name, s0, res, storedPort).effects);

      var delay := JitteredDelay(actionInterval, u);
      timer := Some(delay);
    }

    method CompleteAnotherAttempt(storedPort: JsValue)
      modifies this
      ensures Snapshot() == AfterAttempt(name, old(Snapshot()), storedPort).state
      ensures trace == old(trace) + AfterAttempt(name, old(Snapshot()), storedPort).effects
    {
      if LooseGreater(unreachableCount, maxUnreachableAttempts) {
        HandleOffline(storedPort);
      } else {
        var leftCounter := match ToNumber(maxUnreachableAttempts)
          case Some(m) => Num(m - unreachableCount + 1)
          case None => NotANumber;
        trace := trace + [Log(Postponed(Label(name, Snapshot(), storedPort), leftCounter), DefaultLevel)];
        unreachableCount := unreachableCount + 1;
      }
    }

    method HandleAvailabilityChange(isOnline: bool, storedPort: JsValue)
      modifies this
      ensures Snapshot() == AfterAvailabilityChange(name, old(Snapshot()), isOnline, storedPort).state
      ensures trace == old(trace) + AfterAvailabilityChange(name, old(Snapshot()), isOnline, storedPort).effects
    {
      if wasOnline.None? || wasOnline.value != isOnline {
        trace := trace + [Log(NowState(isOnline, Label(name, Snapshot(), storedPort)), DefaultLevel)];
        trace := trace + [SetAlarm(!isOnline)];
        trace := trace + [SetOnOff(isOnline)];
        wasOnline := Some(isOnline);
        if isOnline {
          trace := trace + [CameOnline];
        } else {
          trace := trace + [WentOffline];
        }
      } else {
        trace := trace + [Log(StillState(isOnline, Label(name, Snapshot(), storedPort)), DefaultLevel)];
      }
    }

    method HandleOnline(storedPort: JsValue)
      modifies this
      ensures Snapshot() == AfterVerdict(name, old(Snapshot()), true, storedPort).state
      ensures trace == old(trace) + AfterVerdict(name, old(Snapshot()), true, storedPort).effects
    {
      unreachableCount := 0;
      HandleAvailabilityChange(true, storedPort);
    }

    method HandleOffline(storedPort: JsValue)
      modifies this
      ensures Snapshot() == AfterAvailabilityChange(name, old(Snapshot()), false, storedPort).state
      ensures trace == old(trace) + AfterAvailabilityChange(name, old(Snapshot()), false, storedPort).effects
    {
      HandleAvailabilityChange(false, storedPort);
    }

    method OnDeleted()
      modifies this
      ensures Snapshot() == AfterDelete(old(Snapshot())).state
      ensures trace == old(trace) + AfterDelete(old(Snapshot())).effects
    {
      host := Null;
      CleanTimer();
    }

    method OnSettings(newSettings: NewSettings, changedKeys: seq<SettingKey>, o: Outcome, u: real, storedPort: JsValue)
      requires 0.0 <= u < 1.0
      modifies this
      ensures Snapshot() == AfterSettings(name, old(Snapshot()), newSettings, changedKeys, o, u, storedPort).state
      ensures trace == old(trace) + AfterSettings(name, old(Snapshot()), newSettings, changedKeys, o, u, storedPort).effects
    {
      CopyChangedKeys(newSettings, changedKeys);
      if timer.Some? {
        ghost var t0 := trace;
        CleanTimer();
        ghost var cleaned := AfterCleanTimer(ApplyChangedKeys(old(Snapshot()), newSettings, changedKeys));
        PeriodicAction(o, u, storedPort);
        AppendAssoc(t0, cleaned.effects, AfterCycle(name, cleaned.state, o, u, storedPort).effects);
      }
    }

    method CopyChangedKeys(newSettings: NewSettings, changedKeys: seq<SettingKey>)
      modifies this`host, this`port, this`actionInterval, this`hostTimeout, this`maxUnreachableAttempts
      ensures Snapshot() == ApplyChangedKeys(old(Snapshot()), newSettings, changedKeys)
    {
      if HostKey in changedKeys {
        host := newSettings.host;
      }
      if PortKey in changedKeys {
        port := newSettings.tcpPort;
      }
      ReparseNumbers(newSettings, changedKeys);
    }

    method SlowDown()
      modifies this
      ensures Snapshot() == AfterSlowDown(old(Snapshot())).state
      ensures trace == old(trace) + AfterSlowDown(old(Snapshot())).effects
    {
      actionInterval := match ToNumber(actionInterval)
        case Some(n) => Num(n * 2)
        case None => NotANumber;
      trace := trace + [Log(SlowedDown(actionInterval), DefaultLevel)];
    }

    /** The numeric part of the field updates of `onSettings`. */
    method ReparseNumbers(newSettings: NewSettings, changedKeys: seq<SettingKey>)
      modifies this`actionInterval, this`hostTimeout, this`maxUnreachableAttempts
      ensures actionInterval == if IntervalKey in changedKeys then OfParsed(ParseInt(old(actionInterval))) else old(actionInterval)
      ensures hostTimeout == if TimeoutKey in changedKeys then OfParsed(ParseInt(old(hostTimeout))) else old(hostTimeout)
      ensures maxUnreachableAttempts ==
        if UnreachableChecksKey in changedKeys then OfParsed(ParseInt(Num(newSettings.hostUnreachableChecks)))
        else old(maxUnreachableAttempts)
    {
      ReparseInterval(IntervalKey in changedKeys);
      ReparseTimeout(TimeoutKey in changedKeys);
      ParseChecks(UnreachableChecksKey in changedKeys, newSettings.hostUnreachableChecks);
    }

    /** `this.actionInterval = parseInt(this.actionInterval)` when the key changed. */
    method ReparseInterval(changed: bool)
      modifies this`actionInterval
      ensures actionInterval == if changed then OfParsed(ParseInt(old(actionInterval))) else old(actionInterval)
    {
      if changed {
        actionInterval := OfParsed(ParseInt(actionInterval));
      }
    }

    /** `this.hostTimeout = parseInt(this.hostTimeout)` when the key changed. */
    method ReparseTimeout(changed: bool)
      modifies this`hostTimeout
      ensures hostTimeout == if changed then OfParsed(ParseInt(old(hostTimeout))) else old(hostTimeout)
    {
      if changed {
        hostTimeout := OfParsed(ParseInt(hostTimeout));
      }
    }

    /** `this.maxUnreachableAttempts = parseInt(newSettings.host_unreachable_checks)` when the key changed. */
    method ParseChecks(changed: bool, checks: int)
      modifies this`maxUnreachableAttempts
      ensures maxUnreachableAttempts ==
        if changed then OfParsed(ParseInt(Num(checks))) else old(maxUnreachableAttempts)
    {
      if changed {
        maxUnreachableAttempts := OfParsed(ParseInt(Num(checks)));
      }
    }
  }

  // ------------------------------------------------------------------
  // Properties

  /** The legacy classification agrees with the current one on liveness and
      on every reason except the spelling of the unusual ones, and it flags
      as unusual exactly the outcomes the current one flags. */
  lemma ClassifyAgreesWithCurrent(o: Outcome)
    ensures Classify(o).online == Device.Classify(o).online
    ensures !Device.UnknownResponse(o) ==> Classify(o) == Device.Classify(o)
    ensures var reason := Classify(o).reason;
      StartsWith(reason, "uknown code") || StartsWith(reason, "uknown error") <==> Device.UnknownResponse(o)
  {
    if o.SocketError? && Truthy(o.code) {
      var code := o.code;
      Device.StringFormNamesCode(code, "ECONNREFUSED");
      Device.StringFormNamesCode(code, "EHOSTUNREACH");
      Device.StringFormNamesCode(code, "ENOTFOUND");
      Device.StringFormNamesCode(code, "EALREADY");
      if Device.UnknownResponse(o) {
        PrefixOfAppend(UnknownCodePrefix, ToJsString(code), "uknown code");
      }
    } else if o.SocketError? {
      PrefixOfAppend(UnknownErrorPrefix, o.rendered, "uknown error");
    }
  }

  /** Whether a refused probe counts as online depends on the stored port
      setting only, never on the port field. */
  lemma VerdictIgnoresPortField(name: string, s: State, p: JsValue, res: PingResult, storedPort: JsValue)
    ensures var a := AfterPingResult(name, s, res, storedPort).state;
      var b := AfterPingResult(name, s.(port := p), res, storedPort).state;
      a.unreachableCount == b.unreachableCount && a.wasOnline == b.wasOnline
    ensures Device.Verdict(res, HasPortDefined(storedPort)) <==>
      res.online || (res.reason == "refused" && storedPort == Null)
  {
  }

  /** Hysteresis with a numeric threshold m: a failure within the allowance
      counts up and publishes nothing; beyond it the device reports Offline. */
  lemma FailureHysteresis(name: string, s: State, m: int, storedPort: JsValue)
    requires ToNumber(s.maxUnreachableAttempts) == Some(m)
    ensures s.unreachableCount <= m ==>
      AfterVerdict(name, s, false, storedPort).state == s.(unreachableCount := s.unreachableCount + 1)
      && Quiet(AfterVerdict(name, s, false, storedPort).effects)
    ensures s.unreachableCount > m ==>
      AfterVerdict(name, s, false, storedPort) == AfterAvailabilityChange(name, s, false, storedPort)
  {
  }

  /** An online verdict zeroes the counter. */
  lemma OnlineVerdictResets(name: string, s: State, storedPort: JsValue)
    ensures AfterVerdict(name, s, true, storedPort).state == s.(unreachableCount := 0, wasOnline := Some(true))
  {
  }

  /** Without a numeric threshold (the setting missing, or not a number) the
      comparison is always false: failures count up forever and the device
      never reports Offline. */
  lemma NoThresholdNeverOffline(name: string, s: State, storedPort: JsValue)
    requires ToNumber(s.maxUnreachableAttempts).None?
    ensures AfterVerdict(name, s, false, storedPort).state == s.(unreachableCount := s.unreachableCount + 1)
    ensures Quiet(AfterVerdict(name, s, false, storedPort).effects)
  {
  }

  /** Publishing happens exactly on a change, with exactly one trigger. */
  lemma AvailabilityChangePublishesOnFlip(name: string, s: State, b: bool, storedPort: JsValue)
    ensures var r := AfterAvailabilityChange(name, s, b, storedPort);
      && r.state == s.(wasOnline := Some(b))
      && (!Quiet(r.effects) <==> s.wasOnline != Some(b))
      && Triggers(r.effects) == (if s.wasOnline != Some(b) then [if b then CameOnline else WentOffline] else [])
  {
    var r := AfterAvailabilityChange(name, s, b, storedPort);
    var t := if b then CameOnline else WentOffline;
    if s.wasOnline != Some(b) {
      var log := Log(NowState(b, Label(name, s, storedPort)), DefaultLevel);
      assert r.effects == [log] + [SetAlarm(!b)] + [SetOnOff(b)] + [t];
      TriggersAppend([log] + [SetAlarm(!b)] + [SetOnOff(b)], [t]);
      TriggersAppend([log] + [SetAlarm(!b)], [SetOnOff(b)]);
      TriggersAppend([log], [SetAlarm(!b)]);
    } else {
      QuietHasNoTriggers(r.effects);
    }
  }

  /** `initVariables` copies every setting unchanged, valid or not. */
  lemma InitialCopiesSettings(settings: Settings, alarm: JsValue, k: SettingKey)
    ensures var s := Initial(settings, alarm);
      GetSetting(settings, k) == (match k
        case HostKey => s.host
        case PortKey => s.port
        case IntervalKey => s.actionInterval
        case TimeoutKey => s.hostTimeout
        case UnreachableChecksKey => s.maxUnreachableAttempts)
  {
  }

  /** `onSettings` ignores new interval and timeout values: a numeric old
      value is kept as it was, whatever the new settings say, while the new
      unreachable-check count is taken. */
  lemma SettingsIgnoreNewIntervalAndTimeout(s: State, ns: NewSettings, keys: seq<SettingKey>)
    requires s.actionInterval.Num? && s.hostTimeout.Num?
    ensures ApplyChangedKeys(s, ns, keys).actionInterval == s.actionInterval
    ensures ApplyChangedKeys(s, ns, keys).hostTimeout == s.hostTimeout
    ensures UnreachableChecksKey in keys ==>
      ApplyChangedKeys(s, ns, keys).maxUnreachableAttempts == Num(ns.hostUnreachableChecks)
  {
    ParseIntOfNumber(s.actionInterval.n);
    ParseIntOfNumber(s.hostTimeout.n);
    ParseIntOfNumber(ns.hostUnreachableChecks);
  }

  /** Every cycle probes, whatever the host (null after deletion included),
      and re-arms the timer. */
  lemma CycleAlwaysProbesAndRearms(name: string, s: State, o: Outcome, u: real, storedPort: JsValue)
    requires 0.0 <= u < 1.0
    ensures var r := AfterCycle(name, s, o, u, storedPort);
      && |r.effects| >= 2
      && r.effects[1] == Probe(s.host, Device.ProbePort(s.port), s.hostTimeout)
      && r.state.timer == Some(JitteredDelay(s.actionInterval, u))
  {
  }

  /** After `onDeleted` no timer is held and the host is null, so a later
      settings change runs no check. */
  lemma DeletedDeviceHasNoTimer(name: string, s: State, ns: NewSettings, keys: seq<SettingKey>, o: Outcome, u: real,
                                storedPort: JsValue)
    requires 0.0 <= u < 1.0
    ensures AfterDelete(s).state.host == Null && AfterDelete(s).state.timer == None
    ensures AfterSettings(name, AfterDelete(s).state, ns, keys, o, u, storedPort).effects == []
  {
  }

  /** `cleanTimer` drops the timer and cancels at most once; a second call does nothing. */
  lemma CleanTimerIdempotent(s: State)
    ensures AfterCleanTimer(s).state == s.(timer := None)
    ensures |AfterCleanTimer(s).effects| <= 1
    ensures AfterCleanTimer(AfterCleanTimer(s).state) == Step(AfterCleanTimer(s).state, [])
  {
  }

  /** `slowDown` doubles a numeric interval, and with it the next delay; an
      interval that is not a number becomes NaN, and so does every later
      delay. It logs one line and publishes nothing. */
  lemma SlowDownDoubles(s: State, u: real)
    requires 0.0 <= u < 1.0
    ensures var t := AfterSlowDown(s).state;
      && t == s.(actionInterval := t.actionInterval)
      && (forall n :: ToNumber(s.actionInterval) == Some(n) ==>
            t.actionInterval == Num(2 * n) && JitteredDelay(t.actionInterval, u) == Num(Device.WithJitter(2 * n * 1000, u)))
      && (ToNumber(s.actionInterval).None? ==> JitteredDelay(t.actionInterval, u) == NotANumber)
    ensures Quiet(AfterSlowDown(s).effects)
  {
    var t := AfterSlowDown(s).state;
    if ToNumber(s.actionInterval).Some? {
      var n := ToNumber(s.actionInterval).value;
      assert ToNumber(Num(2 * n)) == Some(2 * n);
    }
  }
}
