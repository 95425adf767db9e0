/**
 * Go's `time.Duration` arithmetic and printing, for durations that are whole seconds.
 * Instants and durations are integers counting seconds.
 */
module GoTime {
  import opened GoStrings

  const Minute: int := 60
  const Hour: int := 3600

  /** Duration.Round(time.Minute) on a non-negative duration: halves round up. */
  function RoundUpToMinute(n: nat): int {
    var r := n % Minute;
    if r + r < Minute then n - r else n + Minute - r
  }

  /**
   * Duration.Round(time.Minute): the nearest whole number of minutes, halves rounded
   * away from zero (Go computes the remainder of a negative duration with its sign and
   * mirrors the non-negative case).
   */
  function RoundToMinute(d: int): int {
    if d >= 0 then RoundUpToMinute(d) else -RoundUpToMinute(-d)
  }

  /**
   * The rounded duration is a whole number of minutes within 30 seconds of the exact one;
   * at a tie it lies away from zero.
   */
  lemma RoundToMinuteBounds(d: int)
    ensures RoundToMinute(d) % Minute == 0
    ensures d - 30 <= RoundToMinute(d) <= d + 30
    ensures (RoundToMinute(d) == d - 30 || RoundToMinute(d) == d + 30) ==> (if d < 0 then RoundToMinute(d) < d else RoundToMinute(d) > d)
  {
  }

  /** The minute multiple that RoundToMinute picks is the only one within 30 seconds, ties aside. */
  lemma RoundToMinuteNearest(d: int, m: int)
    requires m % Minute == 0
    requires d - 30 < m < d + 30
    ensures RoundToMinute(d) == m
  {
    var r := RoundToMinute(d);
    RoundToMinuteBounds(d);
    assert (r - m) % Minute == 0;
  }

  /** Duration.String() of a positive whole number of seconds: `[<h>h][<m>m]<s>s`. */
  function FormatPositive(u: nat): string
    requires u > 0
  {
    var secs := DecimalString(u % Minute) + "s";
    if u < Minute then secs
    else if u < Hour then DecimalString(u / Minute) + "m" + secs
    else DecimalString(u / Hour) + "h" + DecimalString(u / Minute % 60) + "m" + secs
  }

  /** Duration.String() (the `%v` verb) of a whole number of seconds. */
  function FormatDuration(d: int): string {
    if d == 0 then "0s"
    else if d < 0 then "-" + FormatPositive(-d)
    else FormatPositive(d)
  }

  /** Twelve hours prints as `12h0m0s`, the lifetime the operator records for an ECR token. */
  lemma FormatTwelveHours()
    ensures FormatDuration(12 * Hour) == "12h0m0s"
  {
    var u := 12 * Hour;
    assert u % Minute == 0 && u / Hour == 12 && u / Minute % 60 == 0;
    assert DecimalString(0) == "0";
    assert DecimalString(12) == DecimalString(1) + [DigitChar(2)] == "12";
    assert FormatPositive(u) == DecimalString(12) + "h" + DecimalString(0) + "m" + DecimalString(0) + "s";
  }

  /** A duration of less than a minute prints its seconds only; a whole number of minutes ends in `0s`. */
  lemma FormatShape(d: nat)
    requires d > 0
    ensures d < Minute ==> FormatDuration(d) == DecimalString(d) + "s"
    ensures d % Minute == 0 ==> FormatDuration(d)[|FormatDuration(d)| - 2..] == "0s"
  {
  }
}
