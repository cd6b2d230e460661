/** The app's diagnostic log (app.js, `updateLog`) and its device conditions
    (`registerDeviceCondition`). The wall clock is read by the caller and
    passed in as hours, minutes, seconds and milliseconds. */
module AppLog {
  import opened Js
  import Device
  import Platform

  /** The diagnostic log keeps its last 60,000 characters. */
  const LogCap: nat := 60000

  /** The marker of an error-level line and of any other line. */
  const ErrorMarker: string := "!!!!!! "
  const InfoMarker: string := "* "

  function Zeros(k: nat): (z: string)
    ensures |z| == k && forall i :: 0 <= i < k ==> z[i] == '0'
  {
    if k == 0 then [] else Zeros(k - 1) + ['0']
  }

  /** `pad(n, w)`: the decimal form of n, left-padded with '0' to width w.
      Reading the digits back gives n. */
  function Pad(n: nat, w: nat): (r: string)
    ensures |r| == if |NatToString(n)| < w then w else |NatToString(n)|
    ensures AllDigits(r) && DigitsValue(r) == n
  {
    var d := NatToString(n);
    NatToStringValue(n);
    if |d| < w then
      var z := Zeros(w - |d|);
      LeadingZerosValue(z, d);
      z + d
    else
      d
  }

  /** Numbers below 10^k have at most k digits, for the widths the timestamp uses. */
  lemma NatToStringWidth(n: nat)
    ensures n < 10 ==> |NatToString(n)| == 1
    ensures n < 100 ==> |NatToString(n)| <= 2
    ensures n < 1000 ==> |NatToString(n)| <= 3
  {
    if n >= 10 {
      NatToStringWidth(n / 10);
    }
  }

  predicate ValidClock(h: nat, m: nat, s: nat, ms: nat) {
    h < 24 && m < 60 && s < 60 && ms < 1000
  }

  /** The `HH:MM:SS.mmm` timestamp of a log line. */
  function Timestamp(h: nat, m: nat, s: nat, ms: nat): string {
    Pad(h, 2) + ":" + Pad(m, 2) + ":" + Pad(s, 2) + "." + Pad(ms, 3)
  }

  /** A timestamp is twelve characters: the padded hours, minutes and
      seconds (two digits each) and milliseconds (three digits), separated
      by ':', ':' and '.'. Each field reads back as its clock component
      (the contract of `Pad`). */
  lemma {:induction false} TimestampShape(h: nat, m: nat, s: nat, ms: nat)
    requires ValidClock(h, m, s, ms)
    ensures var t := Timestamp(h, m, s, ms);
      && |t| == 12
      && t[2] == ':' && t[5] == ':' && t[8] == '.'
      && t[0..2] == Pad(h, 2) && t[3..5] == Pad(m, 2) && t[6..8] == Pad(s, 2) && t[9..12] == Pad(ms, 3)
  {
    NatToStringWidth(h);
    NatToStringWidth(m);
    NatToStringWidth(s);
    NatToStringWidth(ms);
    ClockLayout(Pad(h, 2), Pad(m, 2), Pad(s, 2), Pad(ms, 3));
  }

  /** Where the fields of `hh:mm:ss.mmm` sit, for any fields of those widths. */
  lemma ClockLayout(hh: string, mm: string, ss: string, mmm: string)
    requires |hh| == 2 && |mm| == 2 && |ss| == 2 && |mmm| == 3
    ensures var t := hh + ":" + mm + ":" + ss + "." + mmm;
      && |t| == 12
      && t[2] == ':' && t[5] == ':' && t[8] == '.'
      && t[0..2] == hh && t[3..5] == mm && t[6..8] == ss && t[9..12] == mmm
  {
    var t := hh + ":" + mm + ":" + ss + "." + mmm;
    assert t[0..2] == hh;
    assert t[3..5] == mm;
    assert t[6..8] == ss;
    assert t[9..12] == mmm;
  }

  function Marker(level: int): (r: string)
    ensures r == ErrorMarker <==> level == 0
    ensures level != 0 ==> r == InfoMarker
  {
    if level == 0 then ErrorMarker else InfoMarker
  }

  /** One log line: timestamp, ": ", marker, message, CR LF. */
  function Line(ts: string, level: int, message: string): string {
    ts + ": " + Marker(level) + message + "\r\n"
  }

  /** The line is made of its parts in order, and the marker tells an
      error-level line from any other. */
  lemma LineParts(ts: string, level: int, message: string)
    ensures var line := Line(ts, level, message);
      && line[..|ts|] == ts
      && line[|ts|..|ts| + 2] == ": "
      && (level == 0 <==> StartsWith(line[|ts| + 2..], ErrorMarker))
      && line[|ts| + 2 + |Marker(level)|..|line| - 2] == message
      && line[|line| - 2..] == "\r\n"
  {
    var line := Line(ts, level, message);
    var rest := line[|ts| + 2..];
    assert rest == Marker(level) + message + "\r\n";
    assert line[|ts| + 2 + |Marker(level)|..|line| - 2] == message;
    if level != 0 {
      assert rest[1] == ' ';
    }
  }

  /** `s.slice(-n)`: the last n characters, or all of s when it is shorter. */
  function LastN(s: string, n: nat): (r: string)
    ensures |r| == if |s| < n then |s| else n
    ensures r == s[|s| - |r|..]
  {
    if |s| <= n then s else s[|s| - n..]
  }

  /** `(diagLog || '') + line`, capped. */
  function Appended(log: string, line: string): string {
    LastN(log + line, LogCap)
  }

  /** The capped log never exceeds the cap, ends with the new line when the
      line fits, and loses nothing while the total fits. */
  lemma AppendedKeepsTail(log: string, line: string)
    ensures |Appended(log, line)| <= LogCap
    ensures |line| <= LogCap ==> Appended(log, line)[|Appended(log, line)| - |line|..] == line
    ensures |log| + |line| <= LogCap ==> Appended(log, line) == log + line
  {
    var all := log + line;
    var r := Appended(log, line);
    if |line| <= LogCap {
      assert r[|r| - |line|..] == all[|all| - |line|..];
      assert all[|all| - |line|..] == line;
    }
  }

  /** `this.homey.settings.get('logLevel') ?? 0`. */
  function LogLevelFrom(stored: JsValue): (r: JsValue)
    ensures stored != Undefined && stored != Null ==> r == stored
    ensures stored == Undefined || stored == Null ==> r == Num(0)
  {
    if stored == Undefined || stored == Null then Num(0) else stored
  }

  /** What `updateLog` leaves in the diagnostic log. */
  function LogAfter(log: string, logLevel: JsValue, message: string, level: int, ts: string): string {
    if LooseGreater(level, logLevel) then log else Appended(log, Line(ts, level, message))
  }

  /** A message above the log level leaves the log as it was; any other one
      ends up at the log's end (when it fits in the cap). */
  lemma LogAfterFilters(log: string, logLevel: JsValue, message: string, level: int, ts: string)
    ensures LooseGreater(level, logLevel) ==> LogAfter(log, logLevel, message, level, ts) == log
    ensures var line := Line(ts, level, message);
      var r := LogAfter(log, logLevel, message, level, ts);
      !LooseGreater(level, logLevel) && |line| <= LogCap ==> |r| <= LogCap && r[|r| - |line|..] == line
  {
    AppendedKeepsTail(log, Line(ts, level, message));
  }

  /** With the log level unset (undefined or null), only error-level
      (level 0) lines are kept: a line at the default level 1 is dropped, an
      error line is appended. */
  lemma UnsetLevelKeepsErrorsOnly(log: string, message: string, ts: string, level: int, stored: JsValue)
    requires stored == Undefined || stored == Null
    ensures level > 0 ==> LogAfter(log, LogLevelFrom(stored), message, level, ts) == log
    ensures var line := Line(ts, level, message);
      var r := LogAfter(log, LogLevelFrom(stored), message, level, ts);
      level <= 0 && |line| <= LogCap ==> r[|r| - |line|..] == line
  {
    AppendedKeepsTail(log, Line(ts, level, message));
  }

  function SettingChanged(setting: string): string {
    "Setting " + setting + " has changed."
  }

  class App {
    var diagLog: string
    var logLevel: JsValue

    /** `onInit()` of the app: an empty log and the stored log level, 0 when unset. */
    constructor (storedLevel: JsValue)
      ensures diagLog == "" && logLevel == LogLevelFrom(storedLevel)
    {
      diagLog := "";
      logLevel := LogLevelFrom(storedLevel);
    }

    /** The app settings listener: it logs the change at the default level,
        then re-reads the log level when that is the setting that changed. */
    method OnSettingSet(setting: string, storedLevel: JsValue, h: nat, m: nat, s: nat, ms: nat)
      requires ValidClock(h, m, s, ms)
      modifies this
      ensures diagLog == LogAfter(old(diagLog), old(logLevel), SettingChanged(setting), Platform.DefaultLevel, Timestamp(h, m, s, ms))
      ensures logLevel == if setting == "logLevel" then LogLevelFrom(storedLevel) else old(logLevel)
    {
      UpdateLog(SettingChanged(setting), Platform.DefaultLevel, h, m, s, ms);
      if setting == "logLevel" {
        logLevel := LogLevelFrom(storedLevel);
      }
    }

    /** `updateLog(newMessage, errorLevel)` at clock time h:m:s.ms. */
    method UpdateLog(newMessage: string, errorLevel: int, h: nat, m: nat, s: nat, ms: nat)
      requires ValidClock(h, m, s, ms)
      modifies this`diagLog
      ensures diagLog == LogAfter(old(diagLog), logLevel, newMessage, errorLevel, Timestamp(h, m, s, ms))
    {
      if LooseGreater(errorLevel, logLevel) {
        return;
      }
      var ts := Pad(h, 2) + ":" + Pad(m, 2) + ":" + Pad(s, 2) + "." + Pad(ms, 3);
      var marker := if errorLevel == 0 then ErrorMarker else InfoMarker;
      var line := ts + ": " + marker + newMessage + "\r\n";
      diagLog := LastN(diagLog + line, LogCap);
    }
  }

  // ------------------------------------------------------------------
  // Flow conditions

  /** `wasOnline` as the condition card reads it off the device. */
  function WasOnlineValue(wasOnline: Option<bool>): JsValue {
    match wasOnline
    case Some(b) => Bool(b)
    case None => Null
  }

  /** The run listener of `device_is_online` (expectOnline true) and
      `device_is_offline` (expectOnline false). */
  predicate ConditionHolds(expectOnline: bool, wasOnline: JsValue) {
    if expectOnline then Truthy(wasOnline) else !Truthy(wasOnline)
  }

  /** The two conditions are each other's negation, and after an
      availability report b the online condition holds exactly when b. */
  lemma ConditionsAgreeWithLastReport(name: string, s: Device.State, b: bool, w: JsValue)
    ensures ConditionHolds(false, w) <==> !ConditionHolds(true, w)
    ensures ConditionHolds(true, WasOnlineValue(Device.AfterAvailabilityChange(name, s, b).state.wasOnline)) <==> b
  {
  }
}
