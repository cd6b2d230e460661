# Netscan reachability monitor — a Dafny model

Netscan is a Homey app that watches network devices. Each paired device is
a monitor with a host, an optional TCP port and three numbers:
- the check interval;
- the probe timeout;
- how many failed checks to tolerate.

On a timer the monitor opens a TCP connection to the host and classifies
the first socket event:
- a connection, or an `EALREADY` error, means online;
- a refused connection also counts as online when the device has no port;
- anything else counts as a failure.

Failures are counted, and the device is declared offline only after the
allowance is used up. A change of availability is published in three ways:
- the `alarm_connectivity` and `onoff` capabilities are set;
- the device calls the driver's `device_came_online` or
  `device_went_offline` trigger method (lib/driver.js defines
  `deviceCameOnline` and `deviceWentOffline` instead, so in the source that
  call fails);
- a log line is written.

The app keeps a capped diagnostic log filtered by a log level, and offers
"device is online" and "device is offline" flow conditions.

The model has six modules:
- `Js` (`js.dfy`): the JavaScript semantics the code relies on:
  - truthiness;
  - `String(v)`;
  - `trim`;
  - `parseInt`;
  - number conversion;
  - the loose `>` comparison.
- `Platform` (`platform.dfy`): what the monitor talks to. This covers:
  - the socket's first event (`Outcome`) and `tcpPing`'s result (`PingResult`);
  - the calls a step makes (`Effect`): log lines, capability writes,
    triggers, probes, `clearTimeout`;
  - the log messages (`Message`, with `Text` giving each line's exact text);
  - the stored settings.
- `Device` (`device.dfy`): the monitor of `lib/device.js`. There is one
  pure step function per method. Each returns the new fields and the
  effects, in order. The class `Device.Monitor` keeps the same fields and
  updates them in place. Each of its methods is proved to perform its
  step, and it records its effects in a ghost `trace`.
- `DeviceProperties` (`device_properties.dfy`): what the monitor promises:
  - the settings guards;
  - the classification;
  - the hysteresis;
  - publishing exactly on a change;
  - the timer bookkeeping;
  - the jitter bounds.
- `LegacyDevice` (`legacy_device.dfy`): the older copy of the monitor in
  `drivers/tcp_ip_device.js`, with its own class `LegacyMonitor` and its
  differences proved as lemmas.
- `AppLog` (`app_log.dfy`) models these parts of `app.js`:
  - `updateLog`: the level filter, `pad`, the line format and the
    60,000-character cap;
  - the `?? 0` default of the log level;
  - the online and offline conditions.

Inputs that come from outside are parameters:
- the socket's first event (`o: Outcome`);
- `Math.random()` (`u`, in [0, 1));
- the wall clock (`h`, `m`, `s`, `ms`);
- the stored settings and the stored `alarm_connectivity` value;
- for the legacy monitor, what `getSetting('tcp_port')` returns (`storedPort`).

Behaviour worth noting, as the code has it:
- The offline threshold:
  - The comparison is `unreachableCount > maxUnreachableAttempts`
    (lib/device.js:78-80). The counter goes up only while it is not greater
    (lib/device.js:154-162).
  - From an online device with counter 0, the Offline transition therefore
    comes on failure max + 2. With `host_unreachable_checks` 2 that is the
    fourth consecutive failure, not the third.
  - Lemmas: `DeviceProperties.OfflineOnFailureMaxPlusTwo` and
    `DeviceProperties.ThresholdTwoGoesOfflineOnFourthFailure`.
- The first verdict:
  - `wasOnline` is never null after `initVariables`, because it is the
    negation of a stored value (lib/device.js:43).
  - So the first verdict publishes only if it differs from the stored
    capability (lib/device.js:165-166).
- An invalid host:
  - A cycle with a missing or fallback host returns before re-arming the
    timer (lib/device.js:139-142).
  - When that cycle is the immediate check run by `onSettings`, the timer
    has just been cancelled (lib/device.js:214-218). After that, no later settings change starts a
    check again (`DeviceProperties.InvalidHostSettingsStopChecks`).
- The legacy monitor:
  - With a missing or NaN `host_unreachable_checks`, the device never goes
    offline. As `Js.StringToNumber` reads strings, the same holds for a
    non-blank string other than an optionally signed decimal integer (white
    space around it aside). JavaScript's `Number()` reads more strings than
    that (see `Js.StringToNumber` under "## Left out"), and with those the
    device does go offline (drivers/tcp_ip_device.js:64-66,
    `LegacyDevice.NoThresholdNeverOffline`).
  - Its `onSettings` re-parses the old interval and timeout instead of
    taking the new ones (drivers/tcp_ip_device.js:211-217,
    `LegacyDevice.SettingsIgnoreNewIntervalAndTimeout`).

## Model

| member | source | states |
|---|---|---|
| Js.TrimEmptyIffBlank | lib/device.js:51 | `s.trim() === ''` holds exactly when every character of s is JavaScript white space |
| Js.ParseIntOfNumber | drivers/tcp_ip_device.js:212-220 | `parseInt` of any integer gives that integer back |
| Js.ParseIntReadsHex | drivers/tcp_ip_device.js:212-216 | `parseInt` of a stored interval or timeout that starts with "0x"/"0X", signed or not, reads the longest run of hexadecimal digits after the prefix (`Js.HexReading`) with the sign applied, and is NaN when that run is empty |
| Device.ValidatedHost | lib/device.js:51-54 | the host guard yields a non-blank string; it keeps the setting exactly when the setting is a truthy non-blank string, and otherwise substitutes "0.0.0.0" |
| Device.ValidatedPort | lib/device.js:55-58 | the port guard yields null or a number in [1, 65535]; it keeps the setting exactly when the setting is already one of those, and otherwise substitutes null |
| Device.ValidatedNumber | lib/device.js:59-67 | a numeric guard yields at least its floor; it keeps a number at or above the floor and otherwise substitutes the default |
| Device.Round | lib/device.js:87 | `Math.round` lies within one half of its argument |
| Device.ClampedRound | lib/device.js:87 | `Math.max(0, Math.round(x))` is 0 exactly when x < 0.5, and otherwise lies within one half of x |
| Device.WithJitter | lib/device.js:83-88 | the jittered delay is never negative |
| Device.Classify | lib/device.js:97-122 | `tcpPing` resolves online exactly on a connection or an `EALREADY` error |
| Device.StringFormNamesCode | lib/device.js:113-114 | looking up an error code by its string form matches a code name only when the code is that very string |
| Device.Label | lib/device.js:70-76 | `deviceName()` shows the name and the host, and the port exactly when `hasValidPort()` (the port is not null) |
| Device.ProbePort | lib/device.js:146-147 | the probe port is always truthy: the port field when that is truthy, otherwise 1 |
| Device.Monitor.constructor | lib/device.js:10-16 | `onInit` leaves the validated state, arms the first check with a jittered 2,000 ms, and logs the host and port warnings |
| Device.Monitor.InitVariables | lib/device.js:40-68 | the fields become the guarded settings, the counter 0, no timer, `wasOnline` the negated alarm; the warnings for a rejected host and then a rejected port are logged at level 0 (performs `Device.Initial`) |
| Device.Monitor.GuardHost | lib/device.js:51-54 | the host field becomes its validated value, with a warning exactly when it was rejected |
| Device.Monitor.GuardPort | lib/device.js:55-58 | the port field becomes its validated value, with a warning exactly when it was rejected |
| Device.Monitor.GuardNumbers | lib/device.js:59-67 | interval, timeout and allowance become their validated values (floors 5, 2, 1; defaults 15, 10, 1) |
| Device.Monitor.CleanTimer | lib/device.js:90-95 | a held timer is cancelled once and dropped; without one nothing happens (performs `Device.AfterCleanTimer`) |
| Device.Monitor.TcpPing | lib/device.js:97-122 | one probe of the given host, port and timeout is sent and its result is the classification of the first socket event |
| Device.Monitor.ProcessPingResult | lib/device.js:124-136 | logs a timeout or an unusual reason, then acts on the verdict (online, or refused without a port) (performs `Device.AfterPingResult`) |
| Device.Monitor.PeriodicAction | lib/device.js:138-152 | skips with a level-0 log when the host is missing or the fallback; otherwise logs, probes, processes the result and re-arms the timer with the jittered interval (performs `Device.AfterCycle`) |
| Device.Monitor.CompleteAnotherAttempt | lib/device.js:154-163 | beyond the allowance reports Offline; within it logs the checks left and counts one more failure (performs `Device.AfterAttempt`) |
| Device.Monitor.HandleAvailabilityChange | lib/device.js:165-183 | on a change logs, writes both capabilities, records the state and fires the matching trigger; otherwise only logs (performs `Device.AfterAvailabilityChange`) |
| Device.Monitor.HandleOnline | lib/device.js:185-188 | zeroes the counter, then reports Online (performs `Device.AfterOnline`) |
| Device.Monitor.HandleOffline | lib/device.js:190-192 | reports Offline (performs `Device.AfterOffline`) |
| Device.Monitor.OnDeleted | lib/device.js:198-201 | nulls the host and cancels the timer (performs `Device.AfterDelete`) |
| Device.Monitor.OnSettings | lib/device.js:203-219 | copies the changed keys; with a timer held, cancels it and runs a check at once (performs `Device.AfterSettings`) |
| Device.Monitor.CopyChangedKeys | lib/device.js:204-213 | each changed key's new value replaces its field, unvalidated; other fields stay (performs `Device.ApplyChangedKeys`) |
| Device.Monitor.SlowDown | lib/device.js:221-224 | doubles the interval and logs the new value (performs `Device.AfterSlowDown`) |
| DeviceProperties.HostTestMatchesTrim | lib/device.js:51 | a host passes the guard exactly when it is truthy, a string, and not empty after `trim()` |
| DeviceProperties.InitialIsValid | lib/device.js:40-68 | after `initVariables` every configuration field passes its guard, the counter is 0, no timer is held and `wasOnline` is the negated alarm |
| DeviceProperties.InitialFieldIndependence | lib/device.js:44-67 | changing one stored setting changes only its own field, to that setting's validated value |
| DeviceProperties.InitLogsWarnings | lib/device.js:51-58 | `initVariables` logs at most two lines, publishes nothing, and warns about the host (port) exactly when it rejects it |
| DeviceProperties.ClassifyReasons | lib/device.js:101-118 | the reason is "connected", "timeout", "refused", "unreach", "notfound" or "ready" exactly for a connection, a timeout, `ECONNREFUSED`, `EHOSTUNREACH`, `ENOTFOUND` and `EALREADY`; an error with another truthy code gives "unknown code: " and the code's string form, one with a falsy code "unknown error: " and its rendering |
| DeviceProperties.ClassifyFlagsUnknown | lib/device.js:112-118 | a reason starts with "unknown code" or "unknown error" exactly when the error had no code or one outside the map |
| DeviceProperties.VerdictOfOutcome | lib/device.js:125-127 | the verdict is online exactly for a connection, `EALREADY`, or a refused connection on a device without a port (`Device.Verdict` with `Device.HasValidPort`) |
| DeviceProperties.ProbeLogsOfOutcome | lib/device.js:128-131 | at most one line is logged before the verdict, exactly for a timeout or an unusual response |
| DeviceProperties.AvailabilityChangePublishesOnFlip | lib/device.js:165-183 | publishing happens exactly when the state changes, with both capability writes and exactly one trigger of the right kind; `wasOnline` ends as the report |
| DeviceProperties.AvailabilityChangeIdempotent | lib/device.js:165-183 | repeating the same report changes nothing and writes one log line |
| DeviceProperties.OnlineVerdictResets | lib/device.js:185-188 | an online verdict zeroes the counter and leaves the device online |
| DeviceProperties.FailureWithinAllowance | lib/device.js:154-162 | a failure within the allowance counts up and publishes nothing (`Device.AllAttemptsExhausted` false) |
| DeviceProperties.FailureBeyondAllowance | lib/device.js:154-157 | a failure beyond the allowance reports Offline and leaves the counter (`Device.AllAttemptsExhausted` true) |
| DeviceProperties.QuietFailures | lib/device.js:154-162 | k failures within the allowance add k to the counter and log exactly k postponement lines, with the checks left going down one by one |
| DeviceProperties.FailuresSplit | lib/device.js:154-162 | a + b consecutive failures are a failures followed by b failures |
| DeviceProperties.OfflineAfterAllowance | lib/device.js:154-163 | from an online device with counter c, the first max + 1 - c failures publish nothing, and the next one sets Offline with exactly one went-offline trigger |
| DeviceProperties.OfflineOnFailureMaxPlusTwo | lib/device.js:78-80 | from counter 0 no trigger fires within max + 1 failures, and failure max + 2 fires went-offline |
| DeviceProperties.ThresholdTwoGoesOfflineOnFourthFailure | lib/device.js:78-80 | with an allowance of 2, three failures fire nothing and the fourth fires went-offline |
| DeviceProperties.VerdictKeepsCountInRange | lib/device.js:124-163 | every verdict keeps the counter within [0, max + 1] and changes nothing but the counter and `wasOnline` |
| DeviceProperties.PingResultSendsNoProbe | lib/device.js:124-136 | processing a result sends no probe |
| DeviceProperties.CycleProbesOnlyValidHosts | lib/device.js:138-152 | a skipped cycle changes nothing, probes nothing and publishes nothing; any other sends exactly one probe (port 1 for a missing port) and re-arms with the jittered interval |
| DeviceProperties.CycleKeepsConfiguration | lib/device.js:138-152 | a cycle keeps the counter in range and leaves every configuration field as it was |
| DeviceProperties.CleanTimerIdempotent | lib/device.js:90-95 | `cleanTimer` drops the timer, cancels at most once, and a second call does nothing |
| DeviceProperties.DeletedDeviceStaysQuiet | lib/device.js:198-201 | after deletion the host is null and no timer is held; a cycle then only logs the skip and a settings change does nothing visible |
| DeviceProperties.ChangedKeysCompose | lib/device.js:204-213 | copying keys a then b equals copying a + b; copying none is the identity |
| DeviceProperties.SettingsWithoutTimerOnlyCopy | lib/device.js:203-219 | without a timer `onSettings` only copies the changed values, unvalidated |
| DeviceProperties.SettingsWithTimerCheckNow | lib/device.js:214-218 | with a timer `onSettings` cancels it first, then either probes the new host, port and timeout and re-arms, or skips and holds no timer |
| DeviceProperties.InvalidHostSettingsStopChecks | lib/device.js:139-142 | a settings change that leaves the host missing or the fallback drops the timer, and every later settings change is then silent |
| DeviceProperties.SlowDownKeepsValid | lib/device.js:221-224 | `slowDown` doubles the interval, keeps the configuration valid and publishes nothing |
| DeviceProperties.JitterWithinTenPercent | lib/device.js:83-88 | a jittered delay lies within ten per cent of its base, give or take the rounding half |
| DeviceProperties.ClampedRoundWithin | lib/device.js:87 | rounding and clamping at 0 keep a value that is within ten per cent of a non-negative base within that range, give or take the rounding half |
| DeviceProperties.JitterDeltaWithin | lib/device.js:84-86 | the random offset lies between minus and plus ten per cent of the base |
| LegacyDevice.Classify | drivers/tcp_ip_device.js:83-119 | `tcpPing` resolves online exactly on a connection or an `EALREADY` error |
| LegacyDevice.Label | drivers/tcp_ip_device.js:56-62 | `devicceName()` shows the name and the host, and the port exactly when `hasPortDefined()` (the stored `tcp_port` setting is not null) |
| LegacyDevice.LegacyMonitor.constructor | drivers/tcp_ip_device.js:8-15 | `onInit` copies the settings as stored and arms the first check with a jittered 2,000 ms, logging nothing |
| LegacyDevice.LegacyMonitor.InitVariables | drivers/tcp_ip_device.js:36-54 | every setting is copied unchecked; counter 0, no timer, `wasOnline` the negated alarm (performs `LegacyDevice.Initial`) |
| LegacyDevice.LegacyMonitor.CleanTimer | drivers/tcp_ip_device.js:76-81 | a held timer is cancelled once and dropped (performs `LegacyDevice.AfterCleanTimer`) |
| LegacyDevice.LegacyMonitor.TcpPing | drivers/tcp_ip_device.js:83-119 | one probe is sent and its result is the legacy classification |
| LegacyDevice.LegacyMonitor.ProcessPingResult | drivers/tcp_ip_device.js:121-139 | logs a timeout or an "uknown" reason, then acts on the verdict, which uses the stored port setting (performs `LegacyDevice.AfterPingResult`) |
| LegacyDevice.LegacyMonitor.PeriodicAction | drivers/tcp_ip_device.js:141-151 | logs, probes whatever the host, processes the result and always re-arms (NaN when the interval is not a number) (performs `LegacyDevice.AfterCycle`) |
| LegacyDevice.LegacyMonitor.CompleteAnotherAttempt | drivers/tcp_ip_device.js:153-162 | beyond the allowance (loose `>`) reports Offline; otherwise logs the checks left and counts one more (performs `LegacyDevice.AfterAttempt`) |
| LegacyDevice.LegacyMonitor.HandleAvailabilityChange | drivers/tcp_ip_device.js:164-182 | on a change logs, writes both capabilities, records the state and fires the trigger; otherwise only logs (performs `LegacyDevice.AfterAvailabilityChange`) |
| LegacyDevice.LegacyMonitor.HandleOnline | drivers/tcp_ip_device.js:184-187 | zeroes the counter, then reports Online (performs `LegacyDevice.AfterVerdict`) |
| LegacyDevice.LegacyMonitor.HandleOffline | drivers/tcp_ip_device.js:189-191 | reports Offline (performs `LegacyDevice.AfterAvailabilityChange`) |
| LegacyDevice.LegacyMonitor.OnDeleted | drivers/tcp_ip_device.js:197-200 | nulls the host and cancels the timer (performs `LegacyDevice.AfterDelete`) |
| LegacyDevice.LegacyMonitor.OnSettings | drivers/tcp_ip_device.js:202-228 | updates the changed fields; with a timer held, cancels it and runs a check at once (performs `LegacyDevice.AfterSettings`) |
| LegacyDevice.LegacyMonitor.CopyChangedKeys | drivers/tcp_ip_device.js:203-221 | host and port take their new values; the numeric fields are re-parsed (performs `LegacyDevice.ApplyChangedKeys`) |
| LegacyDevice.LegacyMonitor.ReparseNumbers | drivers/tcp_ip_device.js:211-221 | interval and timeout become `parseInt` of their old values, the allowance `parseInt` of the new one |
| LegacyDevice.LegacyMonitor.ReparseInterval | drivers/tcp_ip_device.js:211-213 | a changed interval becomes `parseInt` of the old interval (NaN when that does not parse) |
| LegacyDevice.LegacyMonitor.ReparseTimeout | drivers/tcp_ip_device.js:215-217 | a changed timeout becomes `parseInt` of the old timeout (NaN when that does not parse) |
| LegacyDevice.LegacyMonitor.ParseChecks | drivers/tcp_ip_device.js:219-221 | a changed allowance becomes `parseInt` of the new value |
| LegacyDevice.LegacyMonitor.SlowDown | drivers/tcp_ip_device.js:230-233 | doubles the interval (NaN when it is not a number) and logs it (performs `LegacyDevice.AfterSlowDown`) |
| LegacyDevice.ClassifyAgreesWithCurrent | drivers/tcp_ip_device.js:98-115 | the legacy classification agrees with the current one on liveness and on every reason but the unusual ones, which it flags for exactly the same outcomes |
| LegacyDevice.VerdictIgnoresPortField | drivers/tcp_ip_device.js:60-62 | whether a refused probe counts as online depends on the stored port setting, never on the port field (`LegacyDevice.HasPortDefined`) |
| LegacyDevice.FailureHysteresis | drivers/tcp_ip_device.js:153-162 | with a numeric allowance m, a failure at counter ≤ m counts up quietly and one beyond m reports Offline (`LegacyDevice.AllAttemptsExhausted`, loose `>`) |
| LegacyDevice.OnlineVerdictResets | drivers/tcp_ip_device.js:184-187 | an online verdict zeroes the counter |
| LegacyDevice.NoThresholdNeverOffline | drivers/tcp_ip_device.js:64-66 | without a numeric allowance every failure counts up quietly: the device never goes offline |
| LegacyDevice.AvailabilityChangePublishesOnFlip | drivers/tcp_ip_device.js:164-182 | publishing happens exactly on a change, with exactly one trigger of the right kind |
| LegacyDevice.InitialCopiesSettings | drivers/tcp_ip_device.js:49-53 | every field holds its stored setting unchanged |
| LegacyDevice.SettingsIgnoreNewIntervalAndTimeout | drivers/tcp_ip_device.js:211-221 | numeric interval and timeout survive a settings change whatever the new values; the new allowance is taken |
| LegacyDevice.CycleAlwaysProbesAndRearms | drivers/tcp_ip_device.js:141-151 | every cycle sends the probe second and re-arms with the jittered interval |
| LegacyDevice.CleanTimerIdempotent | drivers/tcp_ip_device.js:76-81 | `cleanTimer` drops the timer, cancels at most once, and a second call does nothing |
| LegacyDevice.DeletedDeviceHasNoTimer | drivers/tcp_ip_device.js:197-200 | after deletion no timer is held, so a settings change runs no check |
| LegacyDevice.SlowDownDoubles | drivers/tcp_ip_device.js:230-233 | a numeric interval doubles and so does the next delay; a non-numeric one makes every later delay NaN; nothing is published |
| AppLog.Pad | app.js:90 | `pad(n, w)` is at least w digits long (exactly the decimal length when longer) and reads back as n |
| AppLog.TimestampShape | app.js:91-96 | `AppLog.Timestamp` is `HH:MM:SS.mmm` for a valid clock: twelve characters, separators at positions 2, 5 and 8, and fields that are the padded clock components (each reading back as its component, by `AppLog.Pad`) |
| AppLog.Marker | app.js:98 | the marker is "!!!!!! " exactly for level 0, and "* " for every other level |
| AppLog.LineParts | app.js:99 | a line (`AppLog.Line`) is the timestamp, ": ", the marker (error marker exactly at level 0), the message itself and CR LF |
| AppLog.LastN | app.js:102 | `slice(-n)` keeps the last min(n, length) characters |
| AppLog.AppendedKeepsTail | app.js:102 | the capped log never exceeds 60,000 characters, ends with the new line when it fits, and loses nothing while the total fits |
| AppLog.LogLevelFrom | app.js:12 | a stored log level other than null or undefined is used as it is; null or undefined gives 0 |
| AppLog.LogAfterFilters | app.js:85-102 | after `updateLog` (`AppLog.LogAfter`) a message above the log level leaves the log unchanged; any other ends up at the end of the capped log |
| AppLog.UnsetLevelKeepsErrorsOnly | app.js:85-86 | with the stored level undefined or null the level is 0: default-level lines are dropped, error lines appended |
| AppLog.App.constructor | app.js:10-12 | the log starts empty and the level is the stored one, 0 when unset |
| AppLog.App.OnSettingSet | app.js:40-45 | a settings change is logged at the default level, and a change of `logLevel` re-reads it |
| AppLog.App.UpdateLog | app.js:85-105 | the log becomes the filtered, formatted, capped result of appending the message |
| AppLog.ConditionsAgreeWithLastReport | app.js:16-24 | the offline condition (`AppLog.ConditionHolds`) is the negation of the online one, and after a report b the online condition holds exactly when b |

## Left out

- Socket I/O: the socket's first event is an input (`Outcome`). The response time, the socket's destruction and `socket.connect` are not modelled.
- `Math.random()`: it is the parameter `u`. `Math.round` is `Device.Round`, on exact reals, so floating-point rounding is not modelled.
- Numbers: they are integers, and non-integer settings are not modelled. With the default radix, `parseInt` reads an optional sign and then the longest run of decimal digits (`parseInt("1e3")` is 1), or, after a "0x" or "0X" prefix, the longest run of hexadecimal digits (`parseInt("-0x10")` is -16, `parseInt("0x")` is NaN).
- Js.StringToNumber: the `Number()` coercion that the legacy monitor's loose `>`, `*` and `-` apply to strings reads only optionally signed decimal integers. Other numeric strings give NaN in the model but a number in JavaScript. These are exponent forms ("1e3"), decimal points ("1.0", "5."), hexadecimal, binary and octal literals ("0x10", "0b11", "0o7") and "Infinity"/"-Infinity".
- `String(n)` in exponent form (|n| ≥ 10^21) is not modelled.
- Platform timers: a timer is modelled as the delay it was armed with. When it fires it is not cleared, which matches the source, since `this.timer` is never nulled there. The callback it runs is a separate call of `PeriodicAction`.
- Concurrency: the interleaving of other events at the `await` in `periodicAction` is not modelled. A cycle runs to completion as one step.
- `fixCapabilities` (lib/device.js:18-38, drivers/tcp_ip_device.js:17-34 and 37-42) is not modelled. Besides removing and adding capabilities and setting the `onoff` options, it writes initial capability values:
  - `alarm_connectivity := true` when that value is null (lib/device.js:25-26, drivers/tcp_ip_device.js:27-29);
  - `onoff := !alarm_connectivity` when the `onoff` capability is added (lib/device.js:27-30, drivers/tcp_ip_device.js:30-33).
  These writes are not in the trace of `Device.Monitor.constructor` or `LegacyDevice.LegacyMonitor.constructor`. Both constructors, and `InitVariables`, take the stored `alarm_connectivity` value as the parameter `alarm`.
- Driver triggers: they are the effects `CameOnline` and `WentOffline`. The device calls `device_came_online` and `device_went_offline` on the driver, while lib/driver.js:17 and 27 define `deviceCameOnline` and `deviceWentOffline`. The trigger card is not part of this model.
- Device.AfterCycle and LegacyDevice.AfterCycle: in the source the trigger call above throws a TypeError, so a cycle that publishes a change rejects before it re-arms the timer (lib/device.js:150-151, drivers/tcp_ip_device.js:148-150), and monitoring stops after the first flip. The model treats the trigger call as succeeding. The re-arm stated by `DeviceProperties.CycleProbesOnlyValidHosts` and `LegacyDevice.CycleAlwaysProbesAndRearms` therefore matches the source only for cycles that publish nothing.
- Device.CodeReason: `map[error.code]` also finds properties inherited from `Object.prototype`. A code such as "constructor" or "toString" gives a function as the reason, and `startsWith` then throws (lib/device.js:130). The model treats every code outside the map as an unknown code, logs it and goes on.
- `varToString`: the rendering of an error without a code is an input (`SocketError.rendered`).
- Log output: the effects record a structured `Message`, and `Platform.Text` gives its text. The app's side of a log call is `AppLog.App.UpdateLog`, which takes the message as text.
- `console.log` and the realtime `com.netscan.logupdated` event in `updateLog`: they are output only and are not modelled.
- `AppLog.LastN`: counts characters, not UTF-16 code units as `slice` does.
- Not modelled at all: `sendLog` (mail), `cpuwarn` broadcasting, pairing, `homey.settings.set` of the log level, and the platform persisting settings after `onSettings`.
- Setting keys: they are the fixed set `SettingKey`. `onSettings` receives `changedKeys` as a sequence of those. A key outside the set is never acted on by the source.
- `NewSettings`: its numeric fields are integers, as the settings form delivers them.
- Strings: they are sequences of characters. There is no Unicode normalisation.
