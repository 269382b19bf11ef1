/** The front end's claim cooldown: how long until the contract's vote
    reward can be claimed again, and the countdown text shown for it. The
    last claim time and the current time are both integer milliseconds. */
module ClaimCooldown {
  import opened Results
  import opened Text

  /** 24 hours in milliseconds. */
  const CLAIM_COOLDOWN_MS: int := 24 * 60 * 60 * 1000

  const MS_PER_HOUR: int := 1000 * 60 * 60
  const MS_PER_MINUTE: int := 1000 * 60

  lemma CooldownIsOneDay()
    ensures CLAIM_COOLDOWN_MS == 86_400_000 == 24 * MS_PER_HOUR
  {
  }

  function Max(a: int, b: int): int { if a < b then b else a }

  /** Milliseconds left before the next claim: never negative, zero exactly
      once a full cooldown has passed since the last claim, and otherwise
      what remains until last claim plus cooldown. */
  function TimeUntilNextClaim(lastClaim: int, now: int): (r: int)
    ensures r >= 0
    ensures r == 0 <==> lastClaim + CLAIM_COOLDOWN_MS <= now
    ensures r > 0 ==> now + r == lastClaim + CLAIM_COOLDOWN_MS
  {
    var nextClaim := lastClaim + CLAIM_COOLDOWN_MS;
    Max(0, nextClaim - now)
  }

  /** A claim is available exactly when a full cooldown has elapsed. */
  function CanClaim(lastClaim: int, now: int): (b: bool)
    ensures b <==> lastClaim + CLAIM_COOLDOWN_MS <= now
  {
    TimeUntilNextClaim(lastClaim, now) == 0
  }

  /** As time passes the remaining time never grows, and it shrinks by at
      most the time that passed. */
  lemma RemainingNonIncreasing(lastClaim: int, now1: int, now2: int)
    requires now1 <= now2
    ensures TimeUntilNextClaim(lastClaim, now2) <= TimeUntilNextClaim(lastClaim, now1)
    ensures TimeUntilNextClaim(lastClaim, now1) - TimeUntilNextClaim(lastClaim, now2) <= now2 - now1
  {
  }

  /** One second short of a day after a claim, one second remains and no
      claim is possible; a full day after it, a claim is possible. */
  lemma CooldownBoundary(now: int)
    ensures TimeUntilNextClaim(now - 86_399_000, now) == 1000 && !CanClaim(now - 86_399_000, now)
    ensures TimeUntilNextClaim(now - 86_400_000, now) == 0 && CanClaim(now - 86_400_000, now)
  {
  }

  /** The hours, minutes and seconds a countdown shows. */
  datatype Countdown = Countdown(hours: nat, minutes: nat, seconds: nat)

  function CountdownMs(c: Countdown): nat {
    c.hours * MS_PER_HOUR + c.minutes * MS_PER_MINUTE + c.seconds * 1000
  }

  lemma {:induction false} CountdownArithmetic(ms: int)
    requires ms > 0
    ensures (ms % MS_PER_HOUR) / MS_PER_MINUTE < 60 && (ms % MS_PER_MINUTE) / 1000 < 60
    ensures var ms' := (ms / MS_PER_HOUR) * MS_PER_HOUR + ((ms % MS_PER_HOUR) / MS_PER_MINUTE) * MS_PER_MINUTE
                       + ((ms % MS_PER_MINUTE) / 1000) * 1000;
      ms' <= ms < ms' + 1000
  {
    var h, r1 := ms / MS_PER_HOUR, ms % MS_PER_HOUR;
    var m, r2 := r1 / MS_PER_MINUTE, r1 % MS_PER_MINUTE;
    assert ms == h * MS_PER_HOUR + r1;
    assert r1 == m * MS_PER_MINUTE + r2;
    assert ms == (h * 60 + m) * MS_PER_MINUTE + r2;
    assert ms % MS_PER_MINUTE == r2;
    var s, r3 := r2 / 1000, r2 % 1000;
    assert r2 == s * 1000 + r3;
  }

  /** The whole hours, the minutes past the hour and the seconds past the
      minute of a positive duration: both below 60, and together they account
      for the duration to within its final partial second. */
  function CountdownFields(ms: int): (c: Countdown)
    requires ms > 0
    ensures c.minutes < 60 && c.seconds < 60
    ensures CountdownMs(c) <= ms < CountdownMs(c) + 1000
  {
    CountdownArithmetic(ms);
    Countdown(ms / MS_PER_HOUR, (ms % MS_PER_HOUR) / MS_PER_MINUTE, (ms % MS_PER_MINUTE) / 1000)
  }

  /** Conversely, any hours with minutes and seconds below 60 are the fields
      of every duration from their total up to, not including, the next second. */
  lemma {:induction false} CountdownFieldsUnique(c: Countdown, extra: int)
    requires c.minutes < 60 && c.seconds < 60
    requires 0 <= extra < 1000 && CountdownMs(c) + extra > 0
    ensures CountdownFields(CountdownMs(c) + extra) == c
  {
    var ms := CountdownMs(c) + extra;
    var low := c.seconds * 1000 + extra;
    assert 0 <= low < MS_PER_MINUTE;
    var mid := c.minutes * MS_PER_MINUTE + low;
    assert 0 <= mid < MS_PER_HOUR;
    assert ms == c.hours * MS_PER_HOUR + mid;
    assert ms / MS_PER_HOUR == c.hours && ms % MS_PER_HOUR == mid;
    assert mid / MS_PER_MINUTE == c.minutes;
    assert ms == (c.hours * 60 + c.minutes) * MS_PER_MINUTE + low;
    assert ms % MS_PER_MINUTE == low;
    assert low / 1000 == c.seconds;
  }

  /** "Ready!" for a duration that has run out, otherwise "<h>h <m>m <s>s". */
  function FormatCountdown(ms: int): (s: string)
    ensures s == "Ready!" <==> ms <= 0
  {
    if ms <= 0 then "Ready!"
    else
      var c := CountdownFields(ms);
      var h := NatToDecimal(c.hours);
      assert (h + "h ")[0] == h[0] && IsDigit(h[0]);
      h + "h " + NatToDecimal(c.minutes) + "m " + NatToDecimal(c.seconds) + "s"
  }

  /** Reads one "<n><unit>" field of a countdown. */
  function ParseUnit(field: string, unit: char): Option<nat> {
    if |field| >= 1 && field[|field| - 1] == unit then ParseDecimal(field[..|field| - 1]) else None
  }

  /** Reads a countdown text back into its fields; "Ready!" has none. */
  function ParseCountdown(s: string): Option<Countdown> {
    var fields := Split(s, ' ');
    if |fields| != 3 then None
    else
      var h :- ParseUnit(fields[0], 'h');
      var m :- ParseUnit(fields[1], 'm');
      var sec :- ParseUnit(fields[2], 's');
      Some(Countdown(h, m, sec))
  }

  lemma ParseUnitOf(n: nat, unit: char)
    requires !IsDigit(unit)
    ensures ParseUnit(NatToDecimal(n) + [unit], unit) == Some(n)
    ensures ' ' != unit ==> ' ' !in NatToDecimal(n) + [unit]
  {
    var d := NatToDecimal(n);
    assert (d + [unit])[..|d|] == d;
    DecimalRoundTrip(n);
  }

  /** A running countdown is its three fields joined by single spaces. */
  lemma FormatCountdownIsJoin(ms: int)
    requires ms > 0
    ensures var c := CountdownFields(ms);
      FormatCountdown(ms)
      == Join([NatToDecimal(c.hours) + "h", NatToDecimal(c.minutes) + "m", NatToDecimal(c.seconds) + "s"], ' ')
  {
    var c := CountdownFields(ms);
    var dh, dm, ds := NatToDecimal(c.hours), NatToDecimal(c.minutes), NatToDecimal(c.seconds);
    JoinThree(dh + "h", dm + "m", ds + "s", ' ');
    assert dh + "h " == dh + "h" + [' '];
    assert dm + "m " == dm + "m" + [' '];
  }

  /** The countdown text determines the fields it was made from, and "Ready!"
      is told apart from every running countdown. */
  lemma CountdownRoundTrip(ms: int)
    ensures ms > 0 ==> ParseCountdown(FormatCountdown(ms)) == Some(CountdownFields(ms))
    ensures ms <= 0 ==> ParseCountdown(FormatCountdown(ms)) == None
  {
    if ms > 0 {
      var c := CountdownFields(ms);
      var fields := [NatToDecimal(c.hours) + "h", NatToDecimal(c.minutes) + "m", NatToDecimal(c.seconds) + "s"];
      ParseUnitOf(c.hours, 'h');
      ParseUnitOf(c.minutes, 'm');
      ParseUnitOf(c.seconds, 's');
      FormatCountdownIsJoin(ms);
      SplitJoin(fields, ' ');
    } else {
      assert ' ' !in "Ready!";
      SplitJoin(["Ready!"], ' ');
    }
  }

  /** Under a second left still shows as a running countdown of zeros. */
  lemma ShortCountdown(ms: int)
    requires 0 < ms < 1000
    ensures FormatCountdown(ms) == "0h 0m 0s"
  {
    assert CountdownFields(ms) == Countdown(0, 0, 0);
  }
}
