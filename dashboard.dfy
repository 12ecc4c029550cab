/** `formatUptime` of the dashboard: a number of seconds shown as whole
    hours and the whole minutes left over, "Hh Mm". The seconds are a real
    number, as the server's uptime is; arithmetic here is exact. */
module Dashboard {
  import opened Text

  /** `Math.trunc`, which the remainder operator `%` of JavaScript uses. */
  function Trunc(x: real): (t: int)
  {
    if x >= 0.0 then x.Floor else -((-x).Floor)
  }

  /** `x % y` of JavaScript: the sign follows the dividend. */
  function JsRem(x: real, y: real): (rem: real)
    requires y != 0.0
  {
    x - y * Trunc(x / y) as real
  }

  /** `${n}` for any integer: a minus sign before negative values. */
  function IntToString(n: int): (shown: string)
  {
    if n < 0 then "-" + NatToString(-n) else NatToString(n)
  }

  /** The hours and minutes fields of the display. */
  function Hours(seconds: real): (h: int)
  {
    (seconds / 3600.0).Floor
  }

  function Minutes(seconds: real): (m: int)
  {
    (JsRem(seconds, 3600.0) / 60.0).Floor
  }

  /** `formatUptime(seconds)` */
  function FormatUptime(seconds: real): (display: string)
  {
    IntToString(Hours(seconds)) + "h " + IntToString(Minutes(seconds)) + "m"
  }

  /** For a non-negative uptime the minutes lie in 0..59 and the two fields
      give back the uptime to within the minute:
      3600 h + 60 m <= s < 3600 h + 60 m + 60. */
  lemma UptimeFields(seconds: real)
    requires seconds >= 0.0
    ensures var h, m := Hours(seconds), Minutes(seconds);
      && h >= 0 && 0 <= m < 60
      && (3600 * h + 60 * m) as real <= seconds < (3600 * h + 60 * m + 60) as real
  {
    var h := Hours(seconds);
    assert Trunc(seconds / 3600.0) == h;
    var rest := seconds - 3600.0 * h as real;
    assert 0.0 <= rest < 3600.0;
    var m := (rest / 60.0).Floor;
    assert 0 <= m < 60;
    assert m as real <= rest / 60.0 < m as real + 1.0;
  }

  /** Less than an hour shows zero hours. */
  lemma UnderAnHour(seconds: real)
    requires 0.0 <= seconds < 3600.0
    ensures Hours(seconds) == 0
    ensures Minutes(seconds) == (seconds / 60.0).Floor
  {
    assert Trunc(seconds / 3600.0) == 0;
  }

  /** For whole seconds the fields are the integer quotient and the minutes
      of the remainder. */
  lemma WholeSeconds(s: nat)
    ensures Hours(s as real) == s / 3600
    ensures Minutes(s as real) == (s % 3600) / 60
  {
    var h := s / 3600;
    UptimeFields(s as real);
    var r := s % 3600;
    assert s == 3600 * h + r;
  }

  /** The hours field of a display, read back: the digits before 'h'. */
  function ParseUptime(display: string): (int, int)
  {
    var hs := TakeUntil(display, 'h');
    var rest := if |hs| + 2 <= |display| then display[|hs| + 2..] else "";
    var ms := TakeUntil(rest, 'm');
    (if IsDigits(hs) then ParseNat(hs) else -1, if IsDigits(ms) then ParseNat(ms) else -1)
  }

  /** Two digit strings joined as a display are read back as their two
      values. */
  lemma {:induction false} ParseDisplay(hs: string, ms: string)
    requires IsDigits(hs) && IsDigits(ms)
    ensures ParseUptime(hs + "h " + ms + "m") == (ParseNat(hs), ParseNat(ms))
  {
    var display := hs + "h " + ms + "m";
    assert 'h' !in hs && 'm' !in ms by {
      assert forall i | 0 <= i < |hs| :: '0' <= hs[i] <= '9';
      assert forall i | 0 <= i < |ms| :: '0' <= ms[i] <= '9';
    }
    assert display == hs + ['h'] + (" " + ms + "m");
    TakeUntilAppend(hs, 'h', " " + ms + "m");
    assert display[|hs| + 2..] == ms + ['m'] + "";
    TakeUntilAppend(ms, 'm', "");
  }

  /** The display of a non-negative uptime can be read back into its two
      fields: hours, then "h ", then minutes, then "m", and nothing else. */
  lemma FormatParse(seconds: real)
    requires seconds >= 0.0
    ensures ParseUptime(FormatUptime(seconds)) == (Hours(seconds), Minutes(seconds))
  {
    UptimeFields(seconds);
    var h, m := Hours(seconds), Minutes(seconds);
    ParseDisplay(NatToString(h), NatToString(m));
    ParseNatToString(h);
    ParseNatToString(m);
  }

  /** One hour, two minutes and five seconds show as "1h 2m". */
  lemma Example3725()
    ensures FormatUptime(3725.0) == "1h 2m"
  {
    WholeSeconds(3725);
    assert NatToString(1) == "1" && NatToString(2) == "2";
  }
}
