/** Properties of the reachability monitor of lib/device.js, stated over the
    step functions of module Device (each of which a Monitor method is proved
    to perform). */
module DeviceProperties {
  import opened Js
  import opened Platform
  import opened Device

  // ------------------------------------------------------------------
  // Settings validation

  /** The host test of `initVariables` (`!host || typeof host !== 'string' ||
      host.trim() === ''`) rejects exactly what HostAccepted rejects. */
  lemma HostTestMatchesTrim(v: JsValue)
    ensures HostAccepted(v) <==> Truthy(v) && v.Str? && Trim(v.s) != ""
  {
    if v.Str? {
      TrimEmptyIffBlank(v.s);
    }
  }

  /** After `initVariables` every configuration field holds a value its guard
      accepts, the failure counter is zero, no timer is held, and `wasOnline`
      is the negated alarm capability. */
  lemma InitialIsValid(settings: Settings, alarm: JsValue)
    requires StoredSettings(settings)
    ensures ValidConfig(Initial(settings, alarm))
    ensures Initial(settings, alarm).unreachableCount == 0
    ensures Initial(settings, alarm).timer == None
    ensures Initial(settings, alarm).wasOnline == Some(!Truthy(alarm))
  {
  }

  /** A setting influences only its own field: changing one stored value
      changes the initial state in that field alone, and the field gets that
      value's own fallback. */
  lemma InitialFieldIndependence(settings: Settings, alarm: JsValue, v: JsValue)
    requires StoredSettings(settings) && Storable(v)
    ensures Initial(settings[HostKey := v], alarm) == Initial(settings, alarm).(host := ValidatedHost(v))
    ensures Initial(settings[PortKey := v], alarm) == Initial(settings, alarm).(port := ValidatedPort(v))
    ensures Initial(settings[IntervalKey := v], alarm)
         == Initial(settings, alarm).(actionInterval := ValidatedNumber(v, MinInterval, DefaultInterval))
    ensures Initial(settings[TimeoutKey := v], alarm)
         == Initial(settings, alarm).(hostTimeout := ValidatedNumber(v, MinTimeout, DefaultTimeout))
    ensures Initial(settings[UnreachableChecksKey := v], alarm)
         == Initial(settings, alarm).(maxUnreachableAttempts :=
              ValidatedNumber(v, MinUnreachableChecks, DefaultUnreachableChecks))
  {
  }

  /** `initVariables` logs one error-level warning for a rejected host, one
      for a rejected port, and nothing else. */
  lemma InitLogsWarnings(name: string, settings: Settings)
    ensures Quiet(InitLogs(name, settings))
    ensures |InitLogs(name, settings)| <= 2
    ensures Log(InvalidHost(name), 0) in InitLogs(name, settings) <==> !HostAccepted(GetSetting(settings, HostKey))
    ensures Log(InvalidPort(name), 0) in InitLogs(name, settings) <==> !PortAccepted(GetSetting(settings, PortKey))
  {
    var h := HostLogs(name, GetSetting(settings, HostKey));
    var p := PortLogs(name, GetSetting(settings, PortKey));
    QuietAppend(h, p);
    assert InitLogs(name, settings) == h + p;
  }

  // ------------------------------------------------------------------
  // Classification of the probe outcome and the verdict

  /** The reasons `tcpPing` resolves with, outcome by outcome: each mapped
      code gives its own word, an unmapped code and a codeless error give
      the exact fallback texts. */
  lemma ClassifyReasons(o: Outcome)
    ensures Classify(o).reason == "connected" <==> o.Connected?
    ensures Classify(o).reason == "timeout" <==> o.TimedOut?
    ensures Classify(o).reason == "refused" <==> o.SocketError? && o.code == Str("ECONNREFUSED")
    ensures Classify(o).reason == "ready" <==> o.SocketError? && o.code == Str("EALREADY")
    ensures Classify(o).reason == "unreach" <==> o.SocketError? && o.code == Str("EHOSTUNREACH")
    ensures Classify(o).reason == "notfound" <==> o.SocketError? && o.code == Str("ENOTFOUND")
    ensures o.SocketError? && Truthy(o.code) && CodeReason(ToJsString(o.code)).None? ==>
      Classify(o).reason == UnknownCodePrefix + ToJsString(o.code)
    ensures o.SocketError? && !Truthy(o.code) ==> Classify(o).reason == UnknownErrorPrefix + o.rendered
  {
    if o.SocketError? {
      StringFormNamesCode(o.code, "ECONNREFUSED");
      StringFormNamesCode(o.code, "EHOSTUNREACH");
      StringFormNamesCode(o.code, "ENOTFOUND");
      StringFormNamesCode(o.code, "EALREADY");
      var reason := Classify(o).reason;
      if Truthy(o.code) && CodeReason(ToJsString(o.code)).None? {
        assert reason == UnknownCodePrefix + ToJsString(o.code);
        assert |reason| >= |UnknownCodePrefix|;
      } else if !Truthy(o.code) {
        assert |reason| >= |UnknownErrorPrefix|;
      }
    }
  }

  /** A reason is flagged as unusual exactly when the error had no code or
      a code outside the map. */
  lemma ClassifyFlagsUnknown(o: Outcome)
    ensures var reason := Classify(o).reason;
      StartsWith(reason, "unknown code") || StartsWith(reason, "unknown error") <==> UnknownResponse(o)
  {
    var reason := Classify(o).reason;
    if o.SocketError? {
      if Truthy(o.code) && CodeReason(ToJsString(o.code)).None? {
        PrefixOfAppend(UnknownCodePrefix, ToJsString(o.code), "unknown code");
      } else if !Truthy(o.code) {
        PrefixOfAppend(UnknownErrorPrefix, o.rendered, "unknown error");
      }
    }
  }

  /** The verdict of `processPingResult` as a function of the socket's first
      event: a connection, an EALREADY error, or a refused connection on a
      device without a port. */
  lemma VerdictOfOutcome(o: Outcome, hasValidPort: bool)
    ensures Verdict(Classify(o), hasValidPort) <==>
      || o.Connected?
      || (o.SocketError? && o.code == Str("EALREADY"))
      || (o.SocketError? && o.code == Str("ECONNREFUSED") && !hasValidPort)
  {
    ClassifyReasons(o);
  }

  /** The log lines written before the verdict is acted on are at most one,
      publish nothing, and appear exactly for a timeout or an unusual error. */
  lemma ProbeLogsOfOutcome(name: string, s: State, o: Outcome)
    ensures Quiet(ProbeLogs(name, s, Classify(o)))
    ensures |ProbeLogs(name, s, Classify(o))| <= 1
    ensures ProbeLogs(name, s, Classify(o)) != [] <==> o.TimedOut? || UnknownResponse(o)
  {
    ClassifyReasons(o);
    ClassifyFlagsUnknown(o);
    var reason := Classify(o).reason;
    if reason == "timeout" {
      assert !StartsWith(reason, "unknown code") && !StartsWith(reason, "unknown error");
    }
  }

  // ------------------------------------------------------------------
  // The availability state machine

  /** `handleAvaiabilityChange(b)` publishes exactly when `wasOnline` is null
      or differs from b; publishing writes both capabilities and fires
      exactly the one matching trigger; either way `wasOnline` ends as b and
      nothing else changes. */
  lemma AvailabilityChangePublishesOnFlip(name: string, s: State, b: bool)
    ensures var r := AfterAvailabilityChange(name, s, b);
      && r.state == s.(wasOnline := Some(b))
      && (!Quiet(r.effects) <==> s.wasOnline != Some(b))
      && Triggers(r.effects) == (if s.wasOnline != Some(b) then [if b then CameOnline else WentOffline] else [])
      && (s.wasOnline != Some(b) ==> SetAlarm(!b) in r.effects && SetOnOff(b) in r.effects)
  {
    var r := AfterAvailabilityChange(name, s, b);
    var t := if b then CameOnline else WentOffline;
    if s.wasOnline != Some(b) {
      var log := Log(NowState(b, Label(name, s)), DefaultLevel);
      assert r.effects == [log] + [SetAlarm(!b)] + [SetOnOff(b)] + [t];
      TriggersAppend([log] + [SetAlarm(!b)] + [SetOnOff(b)], [t]);
      TriggersAppend([log] + [SetAlarm(!b)], [SetOnOff(b)]);
      TriggersAppend([log], [SetAlarm(!b)]);
    } else {
      assert Quiet(r.effects);
      QuietHasNoTriggers(r.effects);
    }
  }

  /** A repeated identical availability report changes nothing and only logs. */
  lemma AvailabilityChangeIdempotent(name: string, s: State, b: bool)
    ensures var r1 := AfterAvailabilityChange(name, s, b);
      var r2 := AfterAvailabilityChange(name, r1.state, b);
      r2.state == r1.state && Quiet(r2.effects) && |r2.effects| == 1
  {
  }

  /** An online verdict zeroes the failure counter and leaves the device online. */
  lemma OnlineVerdictResets(name: string, s: State)
    ensures AfterVerdict(name, s, true).state == s.(unreachableCount := 0, wasOnline := Some(true))
  {
  }

  /** A failing verdict within the allowance increments the counter and
      publishes nothing. */
  lemma FailureWithinAllowance(name: string, s: State)
    requires s.unreachableCount <= s.maxUnreachableAttempts
    ensures AfterVerdict(name, s, false).state == s.(unreachableCount := s.unreachableCount + 1)
    ensures Quiet(AfterVerdict(name, s, false).effects)
  {
  }

  /** A failing verdict once the allowance is exceeded does not increment
      the counter and reports Offline (publishing only if the device was not
      already offline). */
  lemma FailureBeyondAllowance(name: string, s: State)
    requires s.unreachableCount > s.maxUnreachableAttempts
    ensures AfterVerdict(name, s, false) == AfterAvailabilityChange(name, s, false)
    ensures AfterVerdict(name, s, false).state == s.(wasOnline := Some(false))
  {
  }

  /** The effects and the state after k consecutive failing verdicts. */
  function AfterFailures(name: string, s: State, k: nat): Step
    decreases k
  {
    if k == 0 then Step(s, [])
    else
      var first := AfterVerdict(name, s, false);
      var rest := AfterFailures(name, first.state, k - 1);
      Step(rest.state, first.effects + rest.effects)
  }

  /** While the allowance lasts, consecutive failures only count up and log
      "offline postponed for n more checks" with n counting down by one from
      LeftCounter(s). */
  lemma {:induction false} QuietFailures(name: string, s: State, k: nat)
    requires s.unreachableCount + k <= s.maxUnreachableAttempts + 1
    decreases k
    ensures AfterFailures(name, s, k).state == s.(unreachableCount := s.unreachableCount + k)
    ensures Quiet(AfterFailures(name, s, k).effects)
    ensures |AfterFailures(name, s, k).effects| == k
    ensures forall i :: 0 <= i < k ==>
      AfterFailures(name, s, k).effects[i] == Log(Postponed(Label(name, s), Num(LeftCounter(s) - i)), DefaultLevel)
  {
    if k > 0 {
      var first := AfterVerdict(name, s, false);
      var next := s.(unreachableCount := s.unreachableCount + 1);
      assert first.state == next;
      QuietFailures(name, next, k - 1);
      var rest := AfterFailures(name, next, k - 1);
      QuietAppend(first.effects, rest.effects);
      assert Label(name, next) == Label(name, s);
      forall i | 0 <= i < k
        ensures (first.effects + rest.effects)[i]
             == Log(Postponed(Label(name, s), Num(LeftCounter(s) - i)), DefaultLevel)
      {
        if i > 0 {
          assert (first.effects + rest.effects)[i] == rest.effects[i - 1];
        }
      }
    }
  }

  /** Runs of failures compose. */
  lemma {:induction false} FailuresSplit(name: string, s: State, a: nat, b: nat)
    decreases a
    ensures var first := AfterFailures(name, s, a);
      var second := AfterFailures(name, first.state, b);
      AfterFailures(name, s, a + b) == Step(second.state, first.effects + second.effects)
  {
    if a > 0 {
      var step := AfterVerdict(name, s, false);
      FailuresSplit(name, step.state, a - 1, b);
      var mid := AfterFailures(name, step.state, a - 1);
      var second := AfterFailures(name, mid.state, b);
      AppendAssoc(step.effects, mid.effects, second.effects);
    }
  }

  /** The counter stays within [0, max + 1]. */
  predicate CountInRange(s: State) {
    0 <= s.unreachableCount <= s.maxUnreachableAttempts + 1
  }

  /** Hysteresis: from a device that is online with counter c, the first
      max + 1 - c failures publish nothing, and the next one publishes
      Offline with exactly one went-offline trigger. From counter 0 that is
      failure number max + 2. */
  lemma {:induction false} OfflineAfterAllowance(name: string, s: State)
    requires CountInRange(s) && s.wasOnline == Some(true)
    ensures var n := s.maxUnreachableAttempts + 1 - s.unreachableCount;
      && Triggers(AfterFailures(name, s, n).effects) == []
      && Quiet(AfterFailures(name, s, n).effects)
      && AfterFailures(name, s, n + 1).state.wasOnline == Some(false)
      && Triggers(AfterFailures(name, s, n + 1).effects) == [WentOffline]
  {
    var n := s.maxUnreachableAttempts + 1 - s.unreachableCount;
    QuietFailures(name, s, n);
    var quiet := AfterFailures(name, s, n);
    QuietHasNoTriggers(quiet.effects);
    var exhausted := quiet.state;
    assert exhausted.wasOnline == Some(true) && AllAttemptsExhausted(exhausted);
    var v := AfterVerdict(name, exhausted, false);
    assert v == AfterAvailabilityChange(name, exhausted, false);
    AvailabilityChangePublishesOnFlip(name, exhausted, false);
    assert Triggers(v.effects) == [WentOffline];
    var last := AfterFailures(name, exhausted, 1);
    assert last == Step(v.state, v.effects + []);
    assert v.effects + [] == v.effects;
    FailuresSplit(name, s, n, 1);
    assert AfterFailures(name, s, n + 1) == Step(last.state, quiet.effects + last.effects);
    TriggersAppend(quiet.effects, last.effects);
  }

  /** From counter 0, the Offline transition comes with failure max + 2: the
      first max + 1 failures publish nothing. */
  lemma OfflineOnFailureMaxPlusTwo(name: string, s: State)
    requires s.unreachableCount == 0 && s.maxUnreachableAttempts >= 0 && s.wasOnline == Some(true)
    ensures Triggers(AfterFailures(name, s, s.maxUnreachableAttempts + 1).effects) == []
    ensures Triggers(AfterFailures(name, s, s.maxUnreachableAttempts + 2).effects) == [WentOffline]
  {
    OfflineAfterAllowance(name, s);
  }

  /** With `host_unreachable_checks` 2 the device goes offline on the fourth
      consecutive failure, not the third. */
  lemma ThresholdTwoGoesOfflineOnFourthFailure(name: string, s: State)
    requires s.unreachableCount == 0 && s.maxUnreachableAttempts == 2 && s.wasOnline == Some(true)
    ensures Triggers(AfterFailures(name, s, 3).effects) == []
    ensures Triggers(AfterFailures(name, s, 4).effects) == [WentOffline]
  {
    OfflineOnFailureMaxPlusTwo(name, s);
  }

  /** Every verdict keeps the counter in range and the configuration as it was. */
  lemma VerdictKeepsCountInRange(name: string, s: State, b: bool)
    requires CountInRange(s)
    ensures CountInRange(AfterVerdict(name, s, b).state)
    ensures AfterVerdict(name, s, b).state.(unreachableCount := s.unreachableCount, wasOnline := s.wasOnline) == s
  {
  }

  // ------------------------------------------------------------------
  // One check cycle

  predicate NoProbe(effects: seq<Effect>) {
    forall i :: 0 <= i < |effects| ==> !effects[i].Probe?
  }

  lemma {:induction false} NoProbeAppend(a: seq<Effect>, b: seq<Effect>)
    requires NoProbe(a) && NoProbe(b)
    ensures NoProbe(a + b)
  {
    forall i | 0 <= i < |a + b|
      ensures !(a + b)[i].Probe?
    {
      if i >= |a| {
        assert (a + b)[i] == b[i - |a|];
      }
    }
  }

  lemma PingResultSendsNoProbe(name: string, s: State, res: PingResult)
    ensures NoProbe(AfterPingResult(name, s, res).effects)
  {
    var v := AfterVerdict(name, s, Verdict(res, HasValidPort(s)));
    assert NoProbe(v.effects);
    NoProbeAppend(ProbeLogs(name, s, res), v.effects);
  }

  /** A cycle with a missing or fallback host logs that it skips, probes
      nothing and does not re-arm the timer; any other cycle probes the host
      exactly once (port 1 standing in for a missing port) and re-arms the
      timer with the jittered interval. */
  lemma CycleProbesOnlyValidHosts(name: string, s: State, o: Outcome, u: real)
    requires 0.0 <= u < 1.0
    ensures var r := AfterCycle(name, s, o, u);
      HostSkipped(s) ==> r.state == s && NoProbe(r.effects) && Quiet(r.effects)
    ensures var r := AfterCycle(name, s, o, u);
      !HostSkipped(s) ==>
        && |r.effects| >= 2
        && r.effects[1] == Probe(s.host, ProbePort(s.port), Num(s.hostTimeout))
        && NoProbe(r.effects[..1]) && NoProbe(r.effects[2..])
        && r.state.timer == Some(WithJitter(s.actionInterval * 1000, u))
  {
    if !HostSkipped(s) {
      var r := AfterCycle(name, s, o, u);
      var p := AfterPingResult(name, s, Classify(o));
      PingResultSendsNoProbe(name, s, Classify(o));
      assert r.effects[2..] == p.effects;
    }
  }

  /** A cycle keeps the counter in range and touches no configuration field. */
  lemma CycleKeepsConfiguration(name: string, s: State, o: Outcome, u: real)
    requires 0.0 <= u < 1.0 && CountInRange(s)
    ensures CountInRange(AfterCycle(name, s, o, u).state)
    ensures var t := AfterCycle(name, s, o, u).state;
      t.host == s.host && t.port == s.port && t.actionInterval == s.actionInterval
      && t.hostTimeout == s.hostTimeout && t.maxUnreachableAttempts == s.maxUnreachableAttempts
  {
    if !HostSkipped(s) {
      VerdictKeepsCountInRange(name, s, Verdict(Classify(o), HasValidPort(s)));
    }
  }

  // ------------------------------------------------------------------
  // Timer bookkeeping, deletion and settings changes

  /** `cleanTimer` leaves no timer, cancels at most once, and a second call
      does nothing. */
  lemma CleanTimerIdempotent(s: State)
    ensures AfterCleanTimer(s).state == s.(timer := None)
    ensures |AfterCleanTimer(s).effects| <= 1
    ensures AfterCleanTimer(AfterCleanTimer(s).state) == Step(AfterCleanTimer(s).state, [])
  {
  }

  /** After `onDeleted` the host is null and no timer is held; a cycle that
      still runs only logs that it skips, and a settings change runs none. */
  lemma DeletedDeviceStaysQuiet(name: string, s: State, o: Outcome, u: real, ns: NewSettings, keys: seq<SettingKey>)
    requires 0.0 <= u < 1.0
    ensures AfterDelete(s).state.host == Null && AfterDelete(s).state.timer == None
    ensures AfterCycle(name, AfterDelete(s).state, o, u) == Step(AfterDelete(s).state, [Log(SkippingCheck(name), 0)])
    ensures AfterSettings(name, AfterDelete(s).state, ns, keys, o, u).effects == []
  {
  }

  /** The field copies of `onSettings` touch only configuration fields, and
      two changes apply like one change of both key lists. */
  lemma ChangedKeysCompose(s: State, ns: NewSettings, a: seq<SettingKey>, b: seq<SettingKey>)
    ensures ApplyChangedKeys(ApplyChangedKeys(s, ns, a), ns, b) == ApplyChangedKeys(s, ns, a + b)
    ensures ApplyChangedKeys(s, ns, []) == s
    ensures var c := ApplyChangedKeys(s, ns, a);
      c.unreachableCount == s.unreachableCount && c.wasOnline == s.wasOnline && c.timer == s.timer
  {
    forall k | true
      ensures k in a + b <==> k in a || k in b
    {
    }
  }

  /** Without a timer, `onSettings` only copies the changed fields, unvalidated. */
  lemma SettingsWithoutTimerOnlyCopy(name: string, s: State, ns: NewSettings, keys: seq<SettingKey>, o: Outcome, u: real)
    requires 0.0 <= u < 1.0 && s.timer.None?
    ensures AfterSettings(name, s, ns, keys, o, u) == Step(ApplyChangedKeys(s, ns, keys), [])
    ensures IntervalKey in keys ==> AfterSettings(name, s, ns, keys, o, u).state.actionInterval == ns.hostCheckInterval
  {
  }

  /** With a timer, `onSettings` cancels it and runs one check at once,
      against the new host, port and timeout. */
  lemma SettingsWithTimerCheckNow(name: string, s: State, ns: NewSettings, keys: seq<SettingKey>, o: Outcome, u: real)
    requires 0.0 <= u < 1.0 && s.timer.Some?
    ensures var c := ApplyChangedKeys(s, ns, keys);
      var r := AfterSettings(name, s, ns, keys, o, u);
      && r.effects[0] == ClearTimeout
      && (!HostSkipped(c) ==>
            && r.effects[2] == Probe(c.host, ProbePort(c.port), Num(c.hostTimeout))
            && r.state.timer == Some(WithJitter(c.actionInterval * 1000, u)))
      && (HostSkipped(c) ==> r == Step(c.(timer := None), [ClearTimeout, Log(SkippingCheck(name), 0)]))
  {
    var c := ApplyChangedKeys(s, ns, keys);
    CycleProbesOnlyValidHosts(name, c.(timer := None), o, u);
  }

  /** A settings change that leaves the host missing or at the fallback
      drops the timer without re-arming it, so no later settings change,
      even one that fixes the host, starts a check again. */
  lemma InvalidHostSettingsStopChecks(name: string, s: State, ns: NewSettings, keys: seq<SettingKey>, o: Outcome, u: real,
                                      ns2: NewSettings, keys2: seq<SettingKey>, o2: Outcome, u2: real)
    requires 0.0 <= u < 1.0 && 0.0 <= u2 < 1.0
    requires HostSkipped(ApplyChangedKeys(s, ns, keys))
    ensures AfterSettings(name, s, ns, keys, o, u).state.timer.None?
    ensures var later := AfterSettings(name, AfterSettings(name, s, ns, keys, o, u).state, ns2, keys2, o2, u2);
      later.effects == [] && later.state.timer.None?
  {
  }

  /** `slowDown` doubles the interval and keeps the configuration valid. */
  lemma SlowDownKeepsValid(s: State)
    requires ValidConfig(s)
    ensures ValidConfig(AfterSlowDown(s).state)
    ensures AfterSlowDown(s).state.actionInterval == 2 * s.actionInterval
    ensures Quiet(AfterSlowDown(s).effects)
  {
  }

  // ------------------------------------------------------------------
  // Jitter

  /** `withJitter(base)` lands within ten per cent of a non-negative base,
      up to the half unit `Math.round` adds. */
  lemma JitterWithinTenPercent(base: int, u: real)
    requires base >= 0 && 0.0 <= u < 1.0
    ensures base as real * 0.9 - 0.5 < WithJitter(base, u) as real <= base as real * 1.1 + 0.5
  {
    JitterDeltaWithin(base, u);
    ClampedRoundWithin(base as real, JitterOffset(base, u));
  }

  /** Rounding and clamping at 0 keep an offset of at most a tenth of b within
      ten per cent of b, up to the rounding half. */
  lemma ClampedRoundWithin(b: real, delta: real)
    requires b >= 0.0 && b * -0.1 <= delta <= b * 0.1
    ensures b * 0.9 - 0.5 < ClampedRound(b + delta) as real <= b * 1.1 + 0.5
  {
    var r := Round(b + delta);
    assert b + delta - 0.5 < r as real <= b + delta + 0.5;
  }

  /** The random offset stays within ten per cent of a non-negative base. */
  lemma JitterDeltaWithin(base: int, u: real)
    requires base >= 0 && 0.0 <= u < 1.0
    ensures base as real * -0.1 <= JitterOffset(base, u) <= base as real * 0.1
  {
    var b := base as real;
    var d := JitterOffset(base, u);
    assert d == (u * 0.2 - 0.1) * b;
    assert u * b >= 0.0;
    assert u * b <= b;
  }
}
