/** The per-device reachability monitor (lib/device.js, class TcpIpDevice).

    The functions below describe one step of the monitor each: they take the
    monitor's state and return the new state together with the calls the step
    makes into the platform (log lines, capability writes, trigger calls,
    probes, timer cancellation), in order. The class Monitor holds the same
    state in fields and updates it in place, as the source does; each of its
    methods is proved to perform the step its function describes. */
module Device {
  import opened Js
  import opened Platform

  const FallbackHost: string := "0.0.0.0"
  const MinPort: int := 1
  const MaxPort: int := 65535
  const MinInterval: int := 5
  const DefaultInterval: int := 15
  const MinTimeout: int := 2
  const DefaultTimeout: int := 10
  const MinUnreachableChecks: int := 1
  const DefaultUnreachableChecks: int := 1
  /** `fewSeconds * 1000`, the base of the first check's delay. */
  const StartupDelayMs: int := 2000
  /** The port probed when the device has none (`this.port || defaultPort`). */
  const DefaultProbePort: int := 1
  const JitterFraction: real := 0.1

  /** The monitor's fields. `timer` is `this.timer`: Some(delay) while it holds
      a timer handle (armed with that delay), None once it is null. */
  datatype State = State(
    host: JsValue,
    port: JsValue,
    actionInterval: int,
    hostTimeout: int,
    maxUnreachableAttempts: int,
    unreachableCount: int,
    wasOnline: Option<bool>,
    timer: Option<int>)

  /** The state after a step, and the effects of the step in order. */
  datatype Step = Step(state: State, effects: seq<Effect>)

  // ------------------------------------------------------------------
  // Settings validation (initVariables)

  predicate HostAccepted(v: JsValue) {
    Truthy(v) && v.Str? && !IsBlank(v.s)
  }

  /** The host guard: a non-blank string is kept, anything else becomes "0.0.0.0". */
  function ValidatedHost(v: JsValue): (h: JsValue)
    ensures h.Str? && !IsBlank(h.s)
    ensures h == v <==> HostAccepted(v)
    ensures h != v ==> h == Str(FallbackHost)
  {
    if HostAccepted(v) then
      v
    else
      assert !IsWhitespace(FallbackHost[0]);
      Str(FallbackHost)
  }

  predicate PortAccepted(v: JsValue) {
    v == Null || (v.Num? && MinPort <= v.n <= MaxPort)
  }

  /** The port guard: null or a number in [1, 65535] is kept, anything else becomes null. */
  function ValidatedPort(v: JsValue): (p: JsValue)
    requires Storable(v)
    ensures PortAccepted(p)
    ensures p == v <==> PortAccepted(v)
    ensures p != v ==> p == Null
  {
    if v != Null && (!v.Num? || v.n < MinPort || v.n > MaxPort) then Null else v
  }

  /** The guard of a numeric setting: a number of at least `min` is kept,
      anything else becomes `default`. */
  function ValidatedNumber(v: JsValue, min: int, default: int): (n: int)
    requires Storable(v) && default >= min
    ensures n >= min
    ensures (v.Num? && n == v.n) <==> (v.Num? && v.n >= min)
    ensures !(v.Num? && n == v.n) ==> n == default
  {
    if !v.Num? || v.n < min then default else v.n
  }

  /** The state `initVariables` leaves, from the stored settings and the
      stored value of the `alarm_connectivity` capability. */
  function Initial(settings: Settings, alarm: JsValue): State
    requires StoredSettings(settings)
  {
    State(
      host := ValidatedHost(GetSetting(settings, HostKey)),
      port := ValidatedPort(GetSetting(settings, PortKey)),
      actionInterval := ValidatedNumber(GetSetting(settings, IntervalKey), MinInterval, DefaultInterval),
      hostTimeout := ValidatedNumber(GetSetting(settings, TimeoutKey), MinTimeout, DefaultTimeout),
      maxUnreachableAttempts :=
        ValidatedNumber(GetSetting(settings, UnreachableChecksKey), MinUnreachableChecks, DefaultUnreachableChecks),
      unreachableCount := 0,
      wasOnline := Some(!Truthy(alarm)),
      timer := None)
  }

  function HostLogs(name: string, host: JsValue): seq<Effect> {
    if HostAccepted(host) then [] else [Log(InvalidHost(name), 0)]
  }

  function PortLogs(name: string, port: JsValue): seq<Effect> {
    if PortAccepted(port) then [] else [Log(InvalidPort(name), 0)]
  }

  /** The warnings `initVariables` logs for a rejected host or port. */
  function InitLogs(name: string, settings: Settings): seq<Effect> {
    HostLogs(name, GetSetting(settings, HostKey)) + PortLogs(name, GetSetting(settings, PortKey))
  }

  /** Every configuration field holds a value the guards accept. */
  predicate ValidConfig(s: State) {
    && s.host.Str? && !IsBlank(s.host.s)
    && PortAccepted(s.port)
    && s.actionInterval >= MinInterval
    && s.hostTimeout >= MinTimeout
    && s.maxUnreachableAttempts >= MinUnreachableChecks
  }

  // ------------------------------------------------------------------
  // Small queries

  predicate HasValidPort(s: State) {
    s.port != Null
  }

  predicate AllAttemptsExhausted(s: State) {
    s.unreachableCount > s.maxUnreachableAttempts
  }

  /** `deviceName()`: the port is shown when `hasValidPort()`. */
  function Label(name: string, s: State): (l: DeviceLabel)
    ensures l.name == name && l.host == s.host
    ensures l.shownPort.Some? <==> HasValidPort(s)
    ensures l.shownPort.Some? ==> l.shownPort.value == s.port
  {
    DeviceLabel(name, s.host, if HasValidPort(s) then Some(s.port) else None)
  }

  /** `Math.round`: halves round up. */
  function Round(x: real): (r: int)
    ensures x - 0.5 < r as real <= x + 0.5
  {
    (x + 0.5).Floor
  }

  /** The random offset `(Math.random() * 2 - 1) * jitter` of `withJitter`. */
  function JitterOffset(base: int, u: real): real {
    (u * 2.0 - 1.0) * (base as real * JitterFraction)
  }

  /** `Math.max(0, Math.round(x))`. */
  function ClampedRound(x: real): (r: int)
    ensures r >= 0
    ensures r == 0 <==> x < 0.5
    ensures r > 0 ==> x - 0.5 < r as real <= x + 0.5
  {
    var rounded := Round(x);
    if rounded < 0 then 0 else rounded
  }

  /** `withJitter(base)` with `Math.random()` returning u. */
  function WithJitter(base: int, u: real): (r: int)
    requires 0.0 <= u < 1.0
    ensures r >= 0
  {
    ClampedRound(base as real + JitterOffset(base, u))
  }

  // ------------------------------------------------------------------
  // Probe outcome classification (tcpPing) and the verdict (processPingResult)

  /** The error-code map of `tcpPing`. */
  function CodeReason(code: string): Option<string> {
    if code == "ECONNREFUSED" then Some("refused")
    else if code == "EHOSTUNREACH" then Some("unreach")
    else if code == "ENOTFOUND" then Some("notfound")
    else if code == "EALREADY" then Some("ready")
    else None
  }

  const UnknownCodePrefix: string := "unknown code: "
  const UnknownErrorPrefix: string := "unknown error: "

  /** What `tcpPing` resolves with after the socket's first event. */
  function Classify(o: Outcome): (r: PingResult)
    ensures r.online <==> o.Connected? || (o.SocketError? && o.code == Str("EALREADY"))
  {
    match o
    case Connected => PingResult(true, "connected")
    case TimedOut => PingResult(false, "timeout")
    case SocketError(code, rendered) =>
      var reason :=
        if Truthy(code) then
          match CodeReason(ToJsString(code))
          case Some(known) => known
          case None => UnknownCodePrefix + ToJsString(code)
        else UnknownErrorPrefix + rendered;
      StringFormNamesCode(code, "EALREADY");
      assert StartsWith(reason, UnknownCodePrefix) || StartsWith(reason, UnknownErrorPrefix) ==> reason != "ready";
      PingResult(reason == "ready", reason)
  }

  /** Only a string has the string form of an error-code name. */
  lemma StringFormNamesCode(code: JsValue, name: string)
    requires |name| > 0 && name[0] == 'E'
    ensures ToJsString(code) == name <==> code == Str(name)
  {
  }

  /** An error event without a code, or with a code outside the map: the
      outcomes whose reason `processPingResult` reports as unusual. */
  predicate UnknownResponse(o: Outcome) {
    o.SocketError? && (!Truthy(o.code) || CodeReason(ToJsString(o.code)).None?)
  }

  /** The verdict: online, or refused on a device without a port. */
  predicate Verdict(res: PingResult, hasValidPort: bool) {
    res.online || (res.reason == "refused" && !hasValidPort)
  }

  /** The log lines `processPingResult` writes before acting on the verdict. */
  function ProbeLogs(name: string, s: State, res: PingResult): seq<Effect> {
    (if res.reason == "timeout" then [Log(DeviceTimeout(Label(name, s)), DefaultLevel)] else [])
    + (if StartsWith(res.reason, "unknown code") || StartsWith(res.reason, "unknown error")
       then [Log(UnusualResponse(res.reason, Label(name, s)), DefaultLevel)]
       else [])
  }

  // ------------------------------------------------------------------
  // The availability state machine

  /** `handleAvaiabilityChange(isOnline)`. */
  function AfterAvailabilityChange(name: string, s: State, isOnline: bool): Step {
    if s.wasOnline.None? || s.wasOnline.value != isOnline then
      Step(s.(wasOnline := Some(isOnline)),
           [ Log(NowState(isOnline, Label(name, s)), DefaultLevel),
             SetAlarm(!isOnline),
             SetOnOff(isOnline),
             if isOnline then CameOnline else WentOffline ])
    else
      Step(s, [Log(StillState(isOnline, Label(name, s)), DefaultLevel)])
  }

  /** `handleOnline()`. */
  function AfterOnline(name: string, s: State): Step {
    AfterAvailabilityChange(name, s.(unreachableCount := 0), true)
  }

  /** `handleOffline()`. */
  function AfterOffline(name: string, s: State): Step {
    AfterAvailabilityChange(name, s, false)
  }

  /** The remaining-checks figure `completeAnotherAttempt` logs. */
  function LeftCounter(s: State): int {
    s.maxUnreachableAttempts - s.unreachableCount + 1
  }

  /** `completeAnotherAttempt()`. */
  function AfterAttempt(name: string, s: State): Step {
    if AllAttemptsExhausted(s) then AfterOffline(name, s)
    else
      Step(s.(unreachableCount := s.unreachableCount + 1),
           [Log(Postponed(Label(name, s), Num(LeftCounter(s))), DefaultLevel)])
  }

  /** Acting on a verdict: the last branch of `processPingResult`. */
  function AfterVerdict(name: string, s: State, isOnline: bool): Step {
    if isOnline then AfterOnline(name, s) else AfterAttempt(name, s)
  }

  /** `processPingResult(res)`. */
  function AfterPingResult(name: string, s: State, res: PingResult): Step {
    var r := AfterVerdict(name, s, Verdict(res, HasValidPort(s)));
    Step(r.state, ProbeLogs(name, s, res) + r.effects)
  }

  // ------------------------------------------------------------------
  // Scheduling (periodicAction, cleanTimer, onDeleted, onSettings, slowDown)

  /** The early-return guard of `periodicAction`. */
  predicate HostSkipped(s: State) {
    !Truthy(s.host) || s.host == Str(FallbackHost)
  }

  /** `this.port || defaultPort`. */
  function ProbePort(port: JsValue): (p: JsValue)
    ensures Truthy(p)
    ensures p == port <==> Truthy(port)
    ensures !Truthy(port) ==> p == Num(DefaultProbePort)
  {
    if Truthy(port) then port else Num(DefaultProbePort)
  }

  /** One run of `periodicAction`, the probe resolving with outcome o and the
      jitter drawing u. */
  function AfterCycle(name: string, s: State, o: Outcome, u: real): Step
    requires 0.0 <= u < 1.0
  {
    if HostSkipped(s) then
      Step(s, [Log(SkippingCheck(name), 0)])
    else
      var prefix := if HasValidPort(s) then "IP" else "TCP";
      var start := [ Log(Checking(prefix, Label(name, s)), DefaultLevel),
                     Probe(s.host, ProbePort(s.port), Num(s.hostTimeout)) ];
      var r := AfterPingResult(name, s, Classify(o));
      Step(r.state.(timer := Some(WithJitter(r.state.actionInterval * 1000, u))), start + r.effects)
  }

  /** `cleanTimer()`. */
  function AfterCleanTimer(s: State): Step {
    if s.timer.Some? then Step(s.(timer := None), [ClearTimeout]) else Step(s, [])
  }

  /** `onDeleted()`. */
  function AfterDelete(s: State): Step {
    AfterCleanTimer(s.(host := Null))
  }

  /** The field copies at the start of `onSettings`. */
  function ApplyChangedKeys(s: State, ns: NewSettings, changedKeys: seq<SettingKey>): State {
    s.(host := if HostKey in changedKeys then ns.host else s.host,
       port := if PortKey in changedKeys then ns.tcpPort else s.port,
       actionInterval := if IntervalKey in changedKeys then ns.hostCheckInterval else s.actionInterval,
       hostTimeout := if TimeoutKey in changedKeys then ns.hostTimeout else s.hostTimeout,
       maxUnreachableAttempts :=
         if UnreachableChecksKey in changedKeys then ns.hostUnreachableChecks else s.maxUnreachableAttempts)
  }

  /** `onSettings({newSettings, changedKeys})`; the immediate check it may run
      sees outcome o and jitter u. */
  function AfterSettings(name: string, s: State, ns: NewSettings, changedKeys: seq<SettingKey>, o: Outcome, u: real): Step
    requires 0.0 <= u < 1.0
  {
    var copied := ApplyChangedKeys(s, ns, changedKeys);
    if copied.timer.Some? then
      var cleaned := AfterCleanTimer(copied);
      var cycle := AfterCycle(name, cleaned.state, o, u);
      Step(cycle.state, cleaned.effects + cycle.effects)
    else
      Step(copied, [])
  }

  /** `slowDown()`. */
  function AfterSlowDown(s: State): Step {
    var slowed := s.(actionInterval := s.actionInterval * 2);
    Step(slowed, [Log(SlowedDown(Num(slowed.actionInterval)), DefaultLevel)])
  }

  // ------------------------------------------------------------------
  // The device object

  class Monitor {
    /** `this.getName()`. */
    const name: string
    var host: JsValue
    var port: JsValue
    var actionInterval: int
    var hostTimeout: int
    var maxUnreachableAttempts: int
    var unreachableCount: int
    var wasOnline: Option<bool>
    var timer: Option<int>
    /** The calls made so far into the log, the capabilities, the triggers,
        the network and the timer service. */
    ghost var trace: seq<Effect>

    function Snapshot(): State
      reads this
    {
      State(host, port, actionInterval, hostTimeout, maxUnreachableAttempts, unreachableCount, wasOnline, timer)
    }

    /** `onInit()`: validate the settings, then arm the first check after a
        jittered two seconds (capability repair is not modelled). */
    constructor (name: string, settings: Settings, alarm: JsValue, u: real)
      requires StoredSettings(settings) && 0.0 <= u < 1.0
      ensures this.name == name
      ensures Snapshot() == Initial(settings, alarm).(timer := Some(WithJitter(StartupDelayMs, u)))
      ensures trace == InitLogs(name, settings)
    {
      this.name := name;
      host, port := Undefined, Undefined;
      actionInterval, hostTimeout, maxUnreachableAttempts := 0, 0, 0;
      unreachableCount, wasOnline, timer := 0, None, None;
      trace := [];
      new;
      InitVariables(settings, alarm);
      var startupDelay := WithJitter(StartupDelayMs, u);
      timer := Some(startupDelay);
    }

    method InitVariables(settings: Settings, alarm: JsValue)
      requires StoredSettings(settings)
      modifies this
      ensures Snapshot() == Initial(settings, alarm)
      ensures trace == old(trace) + InitLogs(name, settings)
    {
      unreachableCount := 0;
      timer := None;
      wasOnline := Some(!Truthy(alarm));
      host := GetSetting(settings, HostKey);
      port := GetSetting(settings, PortKey);
      var interval := GetSetting(settings, IntervalKey);
      var timeout := GetSetting(settings, TimeoutKey);
      var checks := GetSetting(settings, UnreachableChecksKey);

      // guards for critical settings
      ghost var t0 := trace;
      GuardHost();
      GuardPort();
      AppendAssoc(t0, HostLogs(name, GetSetting(settings, HostKey)), PortLogs(name, GetSetting(settings, PortKey)));
      GuardNumbers(interval, timeout, checks);
    }

    /** The three numeric guards of `initVariables`: a value that is not a
        number, or is below its floor, takes the default. */
    method GuardNumbers(interval: JsValue, timeout: JsValue, checks: JsValue)
      requires Storable(interval) && Storable(timeout) && Storable(checks)
      modifies this`actionInterval, this`hostTimeout, this`maxUnreachableAttempts
      ensures actionInterval == ValidatedNumber(interval, MinInterval, DefaultInterval)
      ensures hostTimeout == ValidatedNumber(timeout, MinTimeout, DefaultTimeout)
      ensures maxUnreachableAttempts == ValidatedNumber(checks, MinUnreachableChecks, DefaultUnreachableChecks)
    {
      actionInterval := if !interval.Num? || interval.n < MinInterval then DefaultInterval else interval.n;
      hostTimeout := if !timeout.Num? || timeout.n < MinTimeout then DefaultTimeout else timeout.n;
      maxUnreachableAttempts :=
        if !checks.Num? || checks.n < MinUnreachableChecks then DefaultUnreachableChecks else checks.n;
    }

    /** The host guard of `initVariables`. */
    method GuardHost()
      modifies this`host, this`trace
      ensures host == ValidatedHost(old(host))
      ensures trace == old(trace) + HostLogs(name, old(host))
    {
      if host.Str? {
        TrimEmptyIffBlank(host.s);
      }
      if !Truthy(host) || !host.Str? || Trim(host.s) == "" {
        trace := trace + [Log(InvalidHost(name), 0)];
        host := Str(FallbackHost);
      }
    }

    /** The port guard of `initVariables`. */
    method GuardPort()
      requires Storable(port)
      modifies this`port, this`trace
      ensures port == ValidatedPort(old(port))
      ensures trace == old(trace) + PortLogs(name, old(port))
    {
      if port != Null && (!port.Num? || port.n < MinPort || port.n > MaxPort) {
        trace := trace + [Log(InvalidPort(name), 0)];
        port := Null;
      }
    }

    method CleanTimer()
      modifies this
      ensures Snapshot() == AfterCleanTimer(old(Snapshot())).state
      ensures trace == old(trace) + AfterCleanTimer(old(Snapshot())).effects
    {
      if timer.Some? {
        trace := trace + [ClearTimeout];
        timer := None;
      }
    }

    method ProcessPingResult(res: PingResult)
      modifies this
      ensures Snapshot() == AfterPingResult(name, old(Snapshot()), res).state
      ensures trace == old(trace) + AfterPingResult(name, old(Snapshot()), res).effects
    {
      ghost var s0, t0 := Snapshot(), trace;
      var isOnline := res.online;
      if res.reason == "refused" && port == Null {
        isOnline := true;
      }
      if res.reason == "timeout" {
        trace := trace + [Log(DeviceTimeout(Label(name, Snapshot())), DefaultLevel)];
      }
      if StartsWith(res.reason, "unknown code") || StartsWith(res.reason, "unknown error") {
        trace := trace + [Log(UnusualResponse(res.reason, Label(name, Snapshot())), DefaultLevel)];
      }
      assert trace == t0 + ProbeLogs(name, s0, res);
      if isOnline {
        HandleOnline();
      } else {
        CompleteAnotherAttempt();
      }
      AppendAssoc(t0, ProbeLogs(name, s0, res), AfterVerdict(name, s0, isOnline).effects);
    }

    method PeriodicAction(o: Outcome, u: real)
      requires 0.0 <= u < 1.0
      modifies this
      ensures Snapshot() == AfterCycle(name, old(Snapshot()), o, u).state
      ensures trace == old(trace) + AfterCycle(name, old(Snapshot()), o, u).effects
    {
      if !Truthy(host) || host == Str(FallbackHost) {
        trace := trace + [Log(SkippingCheck(name), 0)];
        return;
      }
      ghost var s0, t0 := Snapshot(), trace;
      var prefix := if port != Null then "IP" else "TCP";
      trace := trace + [Log(Checking(prefix, Label(name, Snapshot())), DefaultLevel)];

      var res := TcpPing(host, if Truthy(port) then port else Num(DefaultProbePort), Num(hostTimeout), o);
      ghost var start := [Log(Checking(prefix, Label(name, s0)), DefaultLevel), Probe(s0.host, ProbePort(s0.port), Num(s0.hostTimeout))];
      assert trace == t0 + start;
      ProcessPingResult(res);
      AppendAssoc(t0, start, AfterPingResult(name, s0, res).effects);

      var delay := WithJitter(actionInterval * 1000, u);
      timer := Some(delay);
    }

    /** `tcpPing(host, port, timeout)`: the probe's socket reports outcome o first. */
    method TcpPing(host: JsValue, port: JsValue, timeoutSec: JsValue, o: Outcome) returns (res: PingResult)
      modifies this`trace
      ensures res == Classify(o)
      ensures trace == old(trace) + [Probe(host, port, timeoutSec)]
    {
      trace := trace + [Probe(host, port, timeoutSec)];
      res := Classify(o);
    }

    method CompleteAnotherAttempt()
      modifies this
      ensures Snapshot() == AfterAttempt(name, old(Snapshot())).state
      ensures trace == old(trace) + AfterAttempt(name, old(Snapshot())).effects
    {
      if unreachableCount > maxUnreachableAttempts {
        HandleOffline();
      } else {
        var leftCounter := maxUnreachableAttempts - unreachableCount + 1;
        trace := trace + [Log(Postponed(Label(name, Snapshot()), Num(leftCounter)), DefaultLevel)];
        unreachableCount := unreachableCount + 1;
      }
    }

    method HandleAvailabilityChange(isOnline: bool)
      modifies this
      ensures Snapshot() == AfterAvailabilityChange(name, old(Snapshot()), isOnline).state
      ensures trace == old(trace) + AfterAvailabilityChange(name, old(Snapshot()), isOnline).effects
    {
      if wasOnline.None? || wasOnline.value != isOnline {
        trace := trace + [Log(NowState(isOnline, Label(name, Snapshot())), DefaultLevel)];
        trace := trace + [SetAlarm(!isOnline)];
        trace := trace + [SetOnOff(isOnline)];
        wasOnline := Some(isOnline);
        if isOnline {
          trace := trace + [CameOnline];
        } else {
          trace := trace + [WentOffline];
        }
      } else {
        trace := trace + [Log(StillState(isOnline, Label(name, Snapshot())), DefaultLevel)];
      }
    }

    method HandleOnline()
      modifies this
      ensures Snapshot() == AfterOnline(name, old(Snapshot())).state
      ensures trace == old(trace) + AfterOnline(name, old(Snapshot())).effects
    {
      unreachableCount := 0;
      HandleAvailabilityChange(true);
    }

    method HandleOffline()
      modifies this
      ensures Snapshot() == AfterOffline(name, old(Snapshot())).state
      ensures trace == old(trace) + AfterOffline(name, old(Snapshot())).effects
    {
      HandleAvailabilityChange(false);
    }

    method OnDeleted()
      modifies this
      ensures Snapshot() == AfterDelete(old(Snapshot())).state
      ensures trace == old(trace) + AfterDelete(old(Snapshot())).effects
    {
      host := Null;
      CleanTimer();
    }

    method OnSettings(newSettings: NewSettings, changedKeys: seq<SettingKey>, o: Outcome, u: real)
      requires 0.0 <= u < 1.0
      modifies this
      ensures Snapshot() == AfterSettings(name, old(Snapshot()), newSettings, changedKeys, o, u).state
      ensures trace == old(trace) + AfterSettings(name, old(Snapshot()), newSettings, changedKeys, o, u).effects
    {
      CopyChangedKeys(newSettings, changedKeys);
      if timer.Some? {
        // cancel next planned action and start the scan immediately
        ghost var t0 := trace;
        CleanTimer();
        ghost var cleaned := AfterCleanTimer(ApplyChangedKeys(old(Snapshot()), newSettings, changedKeys));
        PeriodicAction(o, u);
        AppendAssoc(t0, cleaned.effects, AfterCycle(name, cleaned.state, o, u).effects);
      }
    }

    /** The field copies at the start of `onSettings`. */
    method CopyChangedKeys(newSettings: NewSettings, changedKeys: seq<SettingKey>)
      modifies this`host, this`port, this`actionInterval, this`hostTimeout, this`maxUnreachableAttempts
      ensures Snapshot() == ApplyChangedKeys(old(Snapshot()), newSettings, changedKeys)
    {
      if HostKey in changedKeys {
        host := newSettings.host;
      }
      if PortKey in changedKeys {
        port := newSettings.tcpPort;
      }
      if IntervalKey in changedKeys {
        actionInterval := newSettings.hostCheckInterval;
      }
      if TimeoutKey in changedKeys {
        hostTimeout := newSettings.hostTimeout;
      }
      if UnreachableChecksKey in changedKeys {
        maxUnreachableAttempts := newSettings.hostUnreachableChecks;
      }
    }

    method SlowDown()
      modifies this
      ensures Snapshot() == AfterSlowDown(old(Snapshot())).state
      ensures trace == old(trace) + AfterSlowDown(old(Snapshot())).effects
    {
      actionInterval := actionInterval * 2;
      trace := trace + [Log(SlowedDown(Num(actionInterval)), DefaultLevel)];
    }
  }
}
