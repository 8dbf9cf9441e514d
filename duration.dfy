/** `formatDuration` of the shared utilities (src/lib/utils.ts): a number of seconds as
  * "<h>h <m>m", "<m>m" or "<s>s". */
module Duration {
  import opened Text

  /** What the formatter is meant to produce: negative input counts as zero; under a minute the
    * seconds alone; under an hour the whole minutes alone; otherwise hours and minutes, with
    * "0m" shown when the minutes are zero. Leftover seconds are dropped once a minute is reached. */
  function DurationText(totalSeconds: int): string
  {
    var t: nat := if totalSeconds < 0 then 0 else totalSeconds;
    if t < 60 then NatToString(t) + "s"
    else if t < 3600 then NatToString(t / 60) + "m"
    else NatToString(t / 3600) + "h " + NatToString((t % 3600) / 60) + "m"
  }

  /** The formatter as written: clamp, split into units, append each shown unit followed by a
    * blank, and return the trimmed text (or "0s" when nothing is left). */
  method FormatDuration(totalSeconds: int) returns (r: string)
    ensures r == DurationText(totalSeconds)
  {
    var t := totalSeconds;
    if t < 0 {
      t := 0;
    }
    var hours := t / 3600;
    var minutes := (t % 3600) / 60;
    var seconds := t % 60;
    UnitCases(t);
    var result := "";
    if hours > 0 {
      result := result + NatToString(hours) + "h ";
    }
    if minutes > 0 || (hours > 0 && minutes == 0) {
      result := result + NatToString(minutes) + "m ";
    }
    if hours == 0 && minutes == 0 {
      result := result + NatToString(seconds) + "s";
    }
    if hours > 0 {
      TrimHoursMinutes(NatToString(hours), NatToString(minutes));
    } else if minutes > 0 {
      TrimUnit(NatToString(minutes), "m ", "m");
    } else {
      TrimUnit(NatToString(seconds), "s", "s");
    }
    var trimmed := Trim(result);
    r := if trimmed == "" then "0s" else trimmed;
  }

  /** What trimming leaves of the hours-and-minutes text the method assembles. */
  lemma TrimHoursMinutes(h: string, m: string)
    requires |h| > 0 && IsDigit(h[0])
    ensures Trim("" + h + "h " + m + "m ") == h + "h " + m + "m"
  {
    var text := h + "h " + m + "m";
    assert "" + h + "h " + m + "m " == text + " ";
    assert text[0] == h[0] && text[|text| - 1] == 'm';
    TrimTrailingBlank(text);
  }

  /** What trimming leaves of the minutes text (`unit` "m ") or the seconds text (`unit` "s"). */
  lemma TrimUnit(n: string, unit: string, shown: string)
    requires |n| > 0 && IsDigit(n[0])
    requires (unit == "m " && shown == "m") || (unit == "s" && shown == "s")
    ensures Trim("" + n + unit) == n + shown
  {
    var text := n + shown;
    assert text[0] == n[0] && text[|text| - 1] == shown[0];
    if unit == "m " {
      assert "" + n + unit == text + " ";
      TrimTrailingBlank(text);
    } else {
      assert "" + n + unit == text;
      TrimNoEdgeSpace(text);
    }
  }

  /** Which units a non-negative number of seconds shows. */
  lemma UnitCases(t: nat)
    ensures t / 3600 > 0 <==> t >= 3600
    ensures t < 3600 ==> (t % 3600) / 60 == t / 60
    ensures t / 3600 == 0 && (t % 3600) / 60 == 0 <==> t < 60
    ensures t < 60 ==> t % 60 == t
  {
  }

  /** A negative duration is shown as zero seconds. */
  lemma NegativeIsZero(totalSeconds: int)
    requires totalSeconds < 0
    ensures DurationText(totalSeconds) == "0s"
  {
  }

  /** The text is never empty, carries no white space at either end, and shows seconds only
    * below one minute. */
  lemma DurationShape(totalSeconds: int)
    ensures var r := DurationText(totalSeconds);
      |r| > 0 && !IsJsSpace(r[0]) && !IsJsSpace(r[|r| - 1])
    ensures totalSeconds >= 60 ==> 's' !in DurationText(totalSeconds)
    ensures totalSeconds < 60 <==> DurationText(totalSeconds)[|DurationText(totalSeconds)| - 1] == 's'
  {
    var r := DurationText(totalSeconds);
    var t: nat := if totalSeconds < 0 then 0 else totalSeconds;
    if t < 60 {
      assert IsDigit(NatToString(t)[0]);
    } else if t < 3600 {
      var m := NatToString(t / 60);
      assert IsDigit(m[0]);
      assert forall i :: 0 <= i < |r| ==> r[i] == 'm' || IsDigit(r[i]);
    } else {
      var h := NatToString(t / 3600);
      var m := NatToString((t % 3600) / 60);
      assert IsDigit(h[0]);
      assert forall i :: 0 <= i < |r| ==> r[i] == 'm' || r[i] == 'h' || r[i] == ' ' || IsDigit(r[i]);
    }
  }

  /** "<h>h <m>m" determines both numbers. */
  lemma HoursMinutesInjective(h1: nat, m1: nat, h2: nat, m2: nat)
    requires NatToString(h1) + "h " + NatToString(m1) + "m" == NatToString(h2) + "h " + NatToString(m2) + "m"
    ensures h1 == h2 && m1 == m2
  {
    HoursMinutesRegroup(NatToString(h1), NatToString(m1));
    HoursMinutesRegroup(NatToString(h2), NatToString(m2));
    NatToStringInjective(h1, h2, "h " + NatToString(m1) + "m", "h " + NatToString(m2) + "m");
    NatToStringInjective(m1, m2, "m", "m");
  }

  /** Regrouping "<a>h <b>m" around its first number. */
  lemma HoursMinutesRegroup(a: string, b: string)
    ensures a + "h " + b + "m" == a + ("h " + b + "m")
    ensures ("h " + b + "m")[2..] == b + "m"
  {
  }

  /** The hours and minutes of `t` place it within one minute. */
  lemma UnitsBound(t: nat, h: nat, m: nat)
    requires h == t / 3600 && m == (t % 3600) / 60
    ensures m < 60 && 3600 * h + 60 * m <= t < 3600 * h + 60 * m + 60
  {
  }

  /** Shown minutes and hours bound the input: with `m` minutes shown below one hour,
    * `60 * m <= t < 60 * m + 60`; with `h` hours and `m` minutes, `m < 60` and
    * `3600 * h + 60 * m <= t < 3600 * h + 60 * m + 60`. */
  lemma DurationUnitsBound(totalSeconds: int, h: nat, m: nat)
    ensures 60 <= totalSeconds < 3600 && DurationText(totalSeconds) == NatToString(m) + "m" ==>
      60 * m <= totalSeconds < 60 * m + 60
    ensures totalSeconds >= 3600 && DurationText(totalSeconds) == NatToString(h) + "h " + NatToString(m) + "m" ==>
      m < 60 && 3600 * h + 60 * m <= totalSeconds < 3600 * h + 60 * m + 60
  {
    if 60 <= totalSeconds < 3600 && DurationText(totalSeconds) == NatToString(m) + "m" {
      NatToStringInjective(m, totalSeconds / 60, "m", "m");
    }
    if totalSeconds >= 3600 && DurationText(totalSeconds) == NatToString(h) + "h " + NatToString(m) + "m" {
      HoursMinutesInjective(h, m, totalSeconds / 3600, (totalSeconds % 3600) / 60);
      UnitsBound(totalSeconds, h, m);
    }
  }

  /** Sample values: zero, under a minute, minutes with leftover seconds, one hour exactly, and
    * hours with minutes and leftover seconds. */
  lemma DurationExamples()
    ensures DurationText(0) == "0s"
    ensures DurationText(59) == "59s"
    ensures DurationText(125) == "2m"
    ensures DurationText(3600) == "1h 0m"
    ensures DurationText(3725) == "1h 2m"
  {
  }
}
