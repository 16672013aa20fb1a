/**
 * The ticket card's countdown: the seconds left, decremented once a second and
 * never below zero, and their `MM:SS` rendering.
 */
module VirtualTicket {
  import opened Text
  import QueueContext

  /** `Math.max(0, prev - 1)`: one tick of the countdown. */
  function NextRemaining(prev: int): (r: int)
    ensures r >= 0
    ensures prev > 0 ==> r == prev - 1
    ensures prev <= 0 ==> r == 0
  {
    if prev - 1 > 0 then prev - 1 else 0
  }

  /** The countdown after `k` ticks. */
  function AfterTicks(start: int, k: nat): int {
    if k == 0 then start else NextRemaining(AfterTicks(start, k - 1))
  }

  /** A countdown from `start` seconds reads `start - k` after `k` ticks until it reaches 0, and 0 from then on. */
  lemma {:induction false} CountdownReachesZero(start: int, k: nat)
    requires start >= 0
    ensures AfterTicks(start, k) == if start - k > 0 then start - k else 0
  {
    if k > 0 {
      CountdownReachesZero(start, k - 1);
    }
  }

  /** Later is never more: the countdown does not increase. */
  lemma CountdownNonIncreasing(start: int, j: nat, k: nat)
    requires start >= 0 && j <= k
    ensures 0 <= AfterTicks(start, k) <= AfterTicks(start, j)
  {
    CountdownReachesZero(start, j);
    CountdownReachesZero(start, k);
  }

  /** `n.toString()` for an integer. */
  function IntString(i: int): string {
    if i < 0 then "-" + Decimal(-i) else Decimal(i)
  }

  /** JavaScript's `a % 60`: the remainder takes the sign of the dividend. */
  function JsRem60(a: int): (r: int)
    ensures a >= 0 ==> 0 <= r < 60
    ensures a < 0 ==> -60 < r <= 0
    ensures (a - r) % 60 == 0
  {
    if a >= 0 then
      assert a == 60 * (a / 60) + a % 60;
      a % 60
    else
      assert -a == 60 * ((-a) / 60) + (-a) % 60;
      assert a - -((-a) % 60) == 60 * -((-a) / 60);
      -((-a) % 60)
  }

  /** Minutes and seconds recombine, and the minutes fit two digits exactly below 6000 seconds. */
  lemma MinutesSeconds(s: int)
    requires s >= 0
    ensures (s / 60) * 60 + s % 60 == s && 0 <= s % 60 < 60
    ensures s < 6000 <==> s / 60 < 100
  {
  }

  /** `formatTime`: floored minutes and the remainder seconds, each left-padded to two digits. */
  function FormatTime(seconds: int): string {
    var mins := seconds / 60;   // Math.floor: Dafny's division by a positive number floors
    var secs := JsRem60(seconds);
    PadStart(IntString(mins), 2, '0') + ":" + PadStart(IntString(secs), 2, '0')
  }

  /** A two-digit field holds its number. */
  lemma TwoDigitField(n: nat)
    requires n < 100
    ensures var f := PadStart(Decimal(n), 2, '0');
      |f| == 2 && AllDigits(f) && DigitsValue(f) == n
  {
    DecimalLength(n);
    DecimalRoundTrip(n);
    var d := Decimal(n);
    var f := PadStart(d, 2, '0');
    var z := f[..|f| - |d|];
    assert f == z + d;
    LeadingZerosValue(z, d);
  }

  /** Two two-character fields around a colon: the colon sits at index 2 and each field reads back. */
  lemma JoinFields(m: string, c: string)
    requires |m| == 2 && |c| == 2
    ensures var r := m + ":" + c;
      |r| == 5 && r[2] == ':' && r[..2] == m && r[3..] == c
  {
    var r := m + ":" + c;
    assert r[..2] == m;
    assert r[3..] == c;
  }

  /** Below 100 minutes the text is exactly `MM:SS`, and reading it back gives the seconds. */
  lemma FormatTimeShort(s: int)
    requires 0 <= s < 6000
    ensures var r := FormatTime(s);
      && |r| == 5 && r[2] == ':'
      && AllDigits(r[..2]) && AllDigits(r[3..])
      && DigitsValue(r[3..]) < 60
      && DigitsValue(r[..2]) * 60 + DigitsValue(r[3..]) == s
  {
    var mins, secs := s / 60, s % 60;
    MinutesSeconds(s);
    assert IntString(mins) == Decimal(mins);
    assert JsRem60(s) == secs && IntString(secs) == Decimal(secs);
    var m, c := PadStart(Decimal(mins), 2, '0'), PadStart(Decimal(secs), 2, '0');
    TwoDigitField(mins);
    TwoDigitField(secs);
    JoinFields(m, c);
    assert FormatTime(s) == m + ":" + c;
  }

  /** From 100 minutes on the minute field keeps every digit, so the text is longer than five characters. */
  lemma FormatTimeLong(s: int)
    requires s >= 6000
    ensures var r := FormatTime(s);
      && |r| > 5 && r[|r| - 3] == ':'
      && AllDigits(r[..|r| - 3]) && DigitsValue(r[..|r| - 3]) == s / 60
      && AllDigits(r[|r| - 2..]) && DigitsValue(r[|r| - 2..]) == s % 60
  {
    var mins, secs := s / 60, s % 60;
    MinutesSeconds(s);
    assert IntString(mins) == Decimal(mins);
    assert JsRem60(s) == secs && IntString(secs) == Decimal(secs);
    DecimalLength(mins);
    DecimalRoundTrip(mins);
    TwoDigitField(secs);
    var m, c := Decimal(mins), PadStart(Decimal(secs), 2, '0');
    assert PadStart(m, 2, '0') == m;
    var r := m + ":" + c;
    assert FormatTime(s) == r;
    assert r[..|r| - 3] == m;
    assert r[|r| - 2..] == c;
  }

  class TicketCountdown {
    var timeRemaining: int

    /** The card starts from the ticket's estimate in seconds. */
    constructor (ticket: QueueContext.Ticket)
      ensures timeRemaining == ticket.estimatedTime * 60
    {
      timeRemaining := ticket.estimatedTime * 60;
    }

    /** One firing of the one-second interval. */
    method Tick()
      modifies this
      ensures timeRemaining == NextRemaining(old(timeRemaining))
    {
      timeRemaining := if timeRemaining - 1 > 0 then timeRemaining - 1 else 0;
    }
  }
}
