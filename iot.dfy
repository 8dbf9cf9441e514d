/** The IoT monitor page (src/app/iot-monitor/page.tsx): the smart-plug status it shows, the
  * usage-alert threshold the user sets in hours, the alert condition, the on/off toggle and the
  * page's own hours-and-minutes formatter. */
module Iot {
  import opened Wrappers
  import opened Text
  import Duration

  /** What the smart plug reports: whether it is on, and its on-time in seconds since the last reset. */
  datatype PlugStatus = PlugStatus(isOn: bool, onTimeSeconds: int)

  /** The initial alert threshold: eight hours, in seconds. */
  const DEFAULT_THRESHOLD: int := 8 * 3600

  /** JavaScript's `%`: truncating division's remainder, which takes the sign of the dividend. The
    * range clauses and the divisibility clause together fix the value. */
  function JsRem(a: int, n: int): (r: int)
    requires n > 0
    ensures a >= 0 ==> 0 <= r < n
    ensures a < 0 ==> -n < r <= 0
    ensures a >= 0 ==> r == a % n
    ensures exists q: int :: a - r == n * q
  {
    if a >= 0 then
      assert a - a % n == n * (a / n);
      a % n
    else
      assert -a == n * ((-a) / n) + (-a) % n;
      assert a - -((-a) % n) == n * (-((-a) / n));
      -((-a) % n)
  }

  /** The page's local `formatDuration`: `Math.floor(t / 3600)` hours and
    * `Math.floor((t % 3600) / 60)` minutes. With a positive divisor `Math.floor` of the quotient is
    * Dafny's `/`; the inner `%` is JavaScript's. */
  function FormatOnTime(totalSeconds: int): string
  {
    IntToString(totalSeconds / 3600) + "h " + IntToString(JsRem(totalSeconds, 3600) / 60) + "m"
  }

  /** For a non-negative on-time the text shows the hours and minutes it contains: the minutes are
    * below 60 and the time lies in the minute the text names. */
  lemma FormatOnTimeBounds(totalSeconds: int)
    requires totalSeconds >= 0
    ensures exists h: nat, m: nat :: FormatOnTime(totalSeconds) == NatToString(h) + "h " + NatToString(m) + "m"
    ensures forall h: nat, m: nat :: FormatOnTime(totalSeconds) == NatToString(h) + "h " + NatToString(m) + "m" ==>
      m < 60 && 3600 * h + 60 * m <= totalSeconds < 3600 * h + 60 * m + 60
  {
    var h0: nat, m0: nat := totalSeconds / 3600, (totalSeconds % 3600) / 60;
    assert FormatOnTime(totalSeconds) == NatToString(h0) + "h " + NatToString(m0) + "m";
    forall h: nat, m: nat | FormatOnTime(totalSeconds) == NatToString(h) + "h " + NatToString(m) + "m"
      ensures m < 60 && 3600 * h + 60 * m <= totalSeconds < 3600 * h + 60 * m + 60
    {
      Duration.HoursMinutesInjective(h, m, h0, m0);
      Duration.UnitsBound(totalSeconds, h, m);
    }
  }

  /** From one hour on, the page's formatter and the shared `formatDuration` agree; below one hour
    * the page's formatter prefixes "0h " to the shared formatter's minutes. */
  lemma FormatOnTimeMatchesShared(totalSeconds: int)
    requires totalSeconds >= 60
    ensures totalSeconds >= 3600 ==> FormatOnTime(totalSeconds) == Duration.DurationText(totalSeconds)
    ensures totalSeconds < 3600 ==> FormatOnTime(totalSeconds) == "0h " + Duration.DurationText(totalSeconds)
  {
  }

  /** A negative on-time is shown with negative hours and minutes, as the JavaScript arithmetic gives. */
  lemma FormatOnTimeNegative()
    ensures FormatOnTime(-1) == "-1h -1m"
    ensures FormatOnTime(-3661) == "-2h -2m"
  {
  }

  /** The threshold after the hours input changes to `value`: a value `parseInt` reads as a
    * positive whole number of hours sets that many hours in seconds; the empty input sets 0;
    * anything else keeps the current threshold. */
  function ThresholdAfterInput(value: string, threshold: int): (r: int)
    ensures r == threshold || r == 0 || (r > 0 && r % 3600 == 0)
    ensures value == "" ==> r == 0
  {
    var hours := ParseIntDecimal(value);
    if hours.Some? && hours.value > 0 then hours.value * 3600
    else if value == "" then 0
    else threshold
  }

  /** Typing a positive whole number of hours sets exactly that many hours, whatever white space
    * comes before it and whatever follows its digits ("2.5" and "2h" read as 2). */
  lemma ThresholdOfHours(ws: string, n: nat, rest: string, threshold: int)
    requires forall i :: 0 <= i < |ws| ==> IsJsSpace(ws[i])
    requires n > 0
    requires |rest| == 0 || !IsDigit(rest[0])
    ensures ThresholdAfterInput(ws + (NatToString(n) + rest), threshold) == n * 3600
  {
    assert "" + (NatToString(n) + rest) == NatToString(n) + rest;
    ParseIntOfSignedDigits(ws, "", NatToString(n), rest);
    DigitsValueOfNatToString(n);
  }

  /** The same for any positive digit string, with or without a leading "+" and leading zeros:
    * "+3" and "03" set three hours. */
  lemma ThresholdOfSignedHours(ws: string, sign: string, digits: string, rest: string, threshold: int)
    requires forall i :: 0 <= i < |ws| ==> IsJsSpace(ws[i])
    requires sign == "" || sign == "+"
    requires AllDigits(digits) && |digits| > 0 && DigitsValue(digits) > 0
    requires |rest| == 0 || !IsDigit(rest[0])
    ensures ThresholdAfterInput(ws + (sign + (digits + rest)), threshold) == DigitsValue(digits) * 3600
  {
    ParseIntOfSignedDigits(ws, sign, digits, rest);
  }

  /** A number that `parseInt` reads as zero or negative leaves the threshold alone. */
  lemma ThresholdKeptOnNonPositive(ws: string, sign: string, digits: string, rest: string, threshold: int)
    requires forall i :: 0 <= i < |ws| ==> IsJsSpace(ws[i])
    requires sign == "" || sign == "+" || sign == "-"
    requires AllDigits(digits) && |digits| > 0
    requires sign == "-" || DigitsValue(digits) == 0
    requires |rest| == 0 || !IsDigit(rest[0])
    ensures ThresholdAfterInput(ws + (sign + (digits + rest)), threshold) == threshold
  {
    ParseIntOfSignedDigits(ws, sign, digits, rest);
    assert |ws + (sign + (digits + rest))| > 0;
  }

  /** A non-empty input with no number at its start leaves the threshold alone. */
  lemma ThresholdKeptOnText(ws: string, sign: string, rest: string, threshold: int)
    requires forall i :: 0 <= i < |ws| ==> IsJsSpace(ws[i])
    requires sign == "" || sign == "+" || sign == "-"
    requires |rest| == 0 || (!IsDigit(rest[0]) && !IsJsSpace(rest[0]) && rest[0] != '+' && rest[0] != '-')
    requires ws + (sign + rest) != ""
    ensures ThresholdAfterInput(ws + (sign + rest), threshold) == threshold
  {
    ParseIntWithoutDigits(ws, sign, rest);
  }

  /** The usage alert fires exactly when a status is known, notifications are on and the on-time
    * has reached the threshold. */
  predicate UsageAlert(status: Option<PlugStatus>, enabled: bool, threshold: int)
  {
    status.Some? && enabled && status.value.onTimeSeconds >= threshold
  }

  /** A higher threshold never makes the alert fire where a lower one does not, and the empty
    * input (threshold 0) makes it fire for any non-negative on-time. */
  lemma AlertMonotone(status: Option<PlugStatus>, enabled: bool, lower: int, higher: int)
    requires lower <= higher
    ensures UsageAlert(status, enabled, higher) ==> UsageAlert(status, enabled, lower)
    ensures status.Some? && enabled && status.value.onTimeSeconds >= 0 ==>
      UsageAlert(status, enabled, ThresholdAfterInput("", higher))
  {
  }

  const ALERT_HEAD: string := "Your coffee machine has been ON for "
  const ALERT_TAIL: string := ". Consider turning it off if not in use."

  /** The text of the usage-alert notification: a fixed sentence around the on-time as the page's
    * formatter shows it. */
  function AlertText(status: PlugStatus): (r: string)
    ensures |ALERT_HEAD| == 36 && |ALERT_TAIL| == 40
    ensures |r| == 36 + |FormatOnTime(status.onTimeSeconds)| + 40
    ensures r[..36] == ALERT_HEAD && r[|r| - 40..] == ALERT_TAIL
    ensures r[36..|r| - 40] == FormatOnTime(status.onTimeSeconds)
  {
    ALERT_HEAD + FormatOnTime(status.onTimeSeconds) + ALERT_TAIL
  }

  /** The monitor page's state. */
  class IotMonitor {
    var plugStatus: Option<PlugStatus>
    var notificationThreshold: int
    var notificationsEnabled: bool

    /** No status yet, threshold eight hours, notifications off. */
    constructor()
      ensures plugStatus == None && notificationThreshold == DEFAULT_THRESHOLD && !notificationsEnabled
    {
      plugStatus := None;
      notificationThreshold := DEFAULT_THRESHOLD;
      notificationsEnabled := false;
    }

    /** The notification shown for the current state, if the alert fires. */
    function Alert(): (r: Option<string>)
      reads this
      ensures r.Some? <==> UsageAlert(plugStatus, notificationsEnabled, notificationThreshold)
      ensures r.Some? ==> r.value == AlertText(plugStatus.value)
    {
      if UsageAlert(plugStatus, notificationsEnabled, notificationThreshold) then Some(AlertText(plugStatus.value)) else None
    }

    /** A status fetch finished: the reported status, or none when the fetch failed. */
    method ReceiveStatus(status: Option<PlugStatus>)
      modifies this
      ensures plugStatus == status
      ensures notificationThreshold == old(notificationThreshold) && notificationsEnabled == old(notificationsEnabled)
    {
      plugStatus := status;
    }

    /** `handleTogglePlug`, with `succeeded` telling whether the command reached the plug: with no
      * status nothing happens and no command is sent; otherwise the opposite of the current
      * on-state is sent, and shown at once only when the command succeeded, the on-time unchanged. */
    method HandleTogglePlug(succeeded: bool) returns (command: Option<bool>)
      modifies this
      ensures old(plugStatus).None? ==> command == None && plugStatus == None
      ensures old(plugStatus).Some? ==> command == Some(!old(plugStatus).value.isOn)
      ensures old(plugStatus).Some? && succeeded ==>
        plugStatus == Some(PlugStatus(!old(plugStatus).value.isOn, old(plugStatus).value.onTimeSeconds))
      ensures !succeeded ==> plugStatus == old(plugStatus)
      ensures notificationThreshold == old(notificationThreshold) && notificationsEnabled == old(notificationsEnabled)
    {
      if plugStatus.None? {
        return None;
      }
      command := Some(!plugStatus.value.isOn);
      if succeeded {
        plugStatus := Some(plugStatus.value.(isOn := !plugStatus.value.isOn));
      }
    }

    /** `handleThresholdChange` with the input's new text. */
    method HandleThresholdChange(value: string)
      modifies this
      ensures notificationThreshold == ThresholdAfterInput(value, old(notificationThreshold))
      ensures plugStatus == old(plugStatus) && notificationsEnabled == old(notificationsEnabled)
    {
      var hours := ParseIntDecimal(value);
      if hours.Some? && hours.value > 0 {
        notificationThreshold := hours.value * 3600;
      } else if value == "" {
        notificationThreshold := 0;
      }
    }

    /** The notifications switch. */
    method SetNotificationsEnabled(enabled: bool)
      modifies this
      ensures notificationsEnabled == enabled
      ensures plugStatus == old(plugStatus) && notificationThreshold == old(notificationThreshold)
    {
      notificationsEnabled := enabled;
    }
  }

  /** Two successful toggles restore the shown status and send opposite commands; after a failed
    * first toggle the second sends the same command again. */
  method ToggleTwice(monitor: IotMonitor, firstSucceeded: bool, secondSucceeded: bool)
    returns (first: Option<bool>, second: Option<bool>)
    modifies monitor
    ensures firstSucceeded == secondSucceeded ==> monitor.plugStatus == old(monitor.plugStatus)
    ensures first.Some? && firstSucceeded ==> second == Some(!first.value)
    ensures first.Some? && !firstSucceeded ==> second == first
    ensures first.None? ==> second.None?
  {
    first := monitor.HandleTogglePlug(firstSucceeded);
    second := monitor.HandleTogglePlug(secondSucceeded);
  }
}
