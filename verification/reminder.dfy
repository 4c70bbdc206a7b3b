/** The reminder check run every ten seconds by the app (App.tsx): the clock
    reading is formatted as zero-padded "HH:MM" and compared with the
    configured reminder time. */
module Reminder {
  import opened Types
  import opened Ledger

  /** A wall-clock reading: `getHours`, `getMinutes`, `getSeconds`. */
  datatype Clock = Clock(hours: nat, minutes: nat, seconds: nat)

  predicate ValidClock(c: Clock) {
    c.hours < 24 && c.minutes < 60 && c.seconds < 60
  }

  function DigitChar(d: nat): char
    requires d < 10
  {
    "0123456789"[d]
  }

  predicate IsDigit(c: char) {
    '0' <= c <= '9'
  }

  function DigitValue(c: char): nat
    requires IsDigit(c)
  {
    c as int - '0' as int
  }

  /** `String(n)`: the decimal digits of `n`, without leading zeros. */
  function DecimalString(n: nat): (s: string)
    ensures 0 < |s|
    ensures forall i :: 0 <= i < |s| ==> IsDigit(s[i])
    ensures n < 10 <==> |s| == 1
  {
    if n < 10 then [DigitChar(n)] else DecimalString(n / 10) + [DigitChar(n % 10)]
  }

  /** `padStart(2, '0')`. */
  function PadStart2(s: string): string {
    if |s| >= 2 then s else seq(2 - |s|, _ => '0') + s
  }

  /** The "HH:MM" text the reminder check builds from the clock. */
  function ClockText(hours: nat, minutes: nat): string {
    PadStart2(DecimalString(hours)) + ":" + PadStart2(DecimalString(minutes))
  }

  /** Reads a two-digit "HH:MM" text; anything else (for instance "9:00") is rejected. */
  function ParseClockText(t: string): Option<(nat, nat)> {
    if |t| == 5 && IsDigit(t[0]) && IsDigit(t[1]) && t[2] == ':' && IsDigit(t[3]) && IsDigit(t[4])
    then Some((DigitValue(t[0]) * 10 + DigitValue(t[1]), DigitValue(t[3]) * 10 + DigitValue(t[4])))
    else None
  }

  /** The padded rendering of a number below 100 is its two digits. */
  lemma TwoDigits(n: nat)
    requires n < 100
    ensures PadStart2(DecimalString(n)) == [DigitChar(n / 10), DigitChar(n % 10)]
  {
    if n >= 10 {
      assert DecimalString(n / 10) == [DigitChar(n / 10)];
    }
  }

  lemma DigitRoundTrip(d: nat)
    requires d < 10
    ensures IsDigit(DigitChar(d)) && DigitValue(DigitChar(d)) == d
  {
  }

  lemma CharRoundTrip(c: char)
    requires IsDigit(c)
    ensures DigitValue(c) < 10 && DigitChar(DigitValue(c)) == c
  {
  }

  /** The "HH:MM" text of two numbers below 100, character by character. */
  lemma ClockTextChars(hours: nat, minutes: nat)
    requires hours < 100 && minutes < 100
    ensures ClockText(hours, minutes) ==
      [DigitChar(hours / 10), DigitChar(hours % 10), ':', DigitChar(minutes / 10), DigitChar(minutes % 10)]
  {
    TwoDigits(hours);
    TwoDigits(minutes);
  }

  /** Formatting then parsing gives back the hour and minute, and the only
      texts the parser accepts are formatted ones: the two are inverse. */
  lemma ClockTextRoundTrip(hours: nat, minutes: nat, t: string)
    requires hours < 100 && minutes < 100
    ensures ParseClockText(ClockText(hours, minutes)) == Some((hours, minutes))
    ensures ParseClockText(t) == Some((hours, minutes)) ==> t == ClockText(hours, minutes)
  {
    ClockTextChars(hours, minutes);
    var c := ClockText(hours, minutes);
    DigitRoundTrip(hours / 10);
    DigitRoundTrip(hours % 10);
    DigitRoundTrip(minutes / 10);
    DigitRoundTrip(minutes % 10);
    assert DigitValue(c[0]) * 10 + DigitValue(c[1]) == hours;
    assert DigitValue(c[3]) * 10 + DigitValue(c[4]) == minutes;
    if ParseClockText(t) == Some((hours, minutes)) {
      CharRoundTrip(t[0]);
      CharRoundTrip(t[1]);
      CharRoundTrip(t[3]);
      CharRoundTrip(t[4]);
      assert DigitValue(t[0]) == hours / 10 && DigitValue(t[1]) == hours % 10;
      assert DigitValue(t[3]) == minutes / 10 && DigitValue(t[4]) == minutes % 10;
      assert t == [t[0], t[1], ':', t[3], t[4]];
    }
  }

  /** The notification fires: reminders on, the padded clock text equals the
      configured time, within the first ten seconds of the minute, some shared
      expense pending, and notification permission granted. */
  predicate ReminderFires(s: UserSettings, now: Clock, l: seq<Expense>, permissionGranted: bool) {
    && s.enableReminders
    && ClockText(now.hours, now.minutes) == s.reminderTime
    && now.seconds < 10
    && HasPendingShared(l)
    && permissionGranted
  }

  /** The reminder fires exactly when the configured time reads as the
      current hour and minute; so a time not written with two-digit fields
      never fires. */
  lemma ReminderFiresIff(s: UserSettings, now: Clock, l: seq<Expense>, permissionGranted: bool)
    requires ValidClock(now)
    ensures ReminderFires(s, now, l, permissionGranted) <==>
      && s.enableReminders
      && ParseClockText(s.reminderTime) == Some((now.hours, now.minutes))
      && now.seconds < 10
      && (exists e :: e in l && e.isShared && !e.isSettled)
      && permissionGranted
  {
    ClockTextRoundTrip(now.hours, now.minutes, s.reminderTime);
    if exists e :: e in l && e.isShared && !e.isSettled {
      var e :| e in l && e.isShared && !e.isSettled;
      var i :| 0 <= i < |l| && l[i] == e;
    }
  }
}
