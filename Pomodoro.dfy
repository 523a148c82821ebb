/**
 * The Pomodoro timer: three session lengths, a countdown that a one-second
 * interval drives, and the `mm:ss` rendering of the seconds left.
 */
module Pomodoro {

  datatype Mode = Work | ShortBreak | LongBreak

  /** `TIMES`: the length of a session in seconds, 25, 5 and 15 minutes. */
  function Times(m: Mode): (t: nat)
    ensures 0 < t < 100 * 60
  {
    match m
    case Work => 25 * 60
    case ShortBreak => 5 * 60
    case LongBreak => 15 * 60
  }

  // ---------------------------------------------------------------------
  // Decimal digits: `Number.prototype.toString` on a non-negative integer,
  // and the reading of a digit string back to its value.
  // ---------------------------------------------------------------------

  predicate IsDigit(c: char) { '0' <= c <= '9' }

  predicate AllDigits(s: string) { forall i :: 0 <= i < |s| ==> IsDigit(s[i]) }

  /** The value of one decimal digit; other characters count as 0. */
  function DigitValue(c: char): nat {
    if IsDigit(c) then c as int - '0' as int else 0
  }

  function DigitChar(d: nat): (c: char)
    requires d < 10
    ensures IsDigit(c) && DigitValue(c) == d
  {
    "0123456789"[d]
  }

  /** The value of a string of decimal digits; the empty string reads as 0. */
  function ParseNat(s: string): nat {
    if s == [] then 0
    else ParseNat(s[..|s| - 1]) * 10 + DigitValue(s[|s| - 1])
  }

  /** The decimal form of `n`: digits only, as many as `n` needs. */
  function NatToString(n: nat): (s: string)
    ensures |s| >= 1 && AllDigits(s)
    ensures n < 100 <==> |s| <= 2
  {
    if n < 10 then [DigitChar(n)]
    else NatToString(n / 10) + [DigitChar(n % 10)]
  }

  /** The decimal form has no leading zero, except for 0 itself. */
  lemma {:induction false} NatToStringNoLeadingZero(n: nat)
    ensures NatToString(n)[0] == '0' <==> n == 0
  {
    if n >= 10 {
      assert NatToString(n)[0] == NatToString(n / 10)[0];
      NatToStringNoLeadingZero(n / 10);
    }
  }

  /** Reading the decimal form back gives the number. */
  lemma {:induction false} ParseNatToString(n: nat)
    ensures ParseNat(NatToString(n)) == n
  {
    var s := NatToString(n);
    if n >= 10 {
      assert s[..|s| - 1] == NatToString(n / 10);
      ParseNatToString(n / 10);
    }
  }

  /** `String.prototype.padStart(width, fill)` with a one-character fill:
      short strings get `fill` in front up to `width`, long ones are kept. */
  function PadStart(s: string, width: nat, fill: char): (r: string)
    ensures |r| == if |s| >= width then |s| else width
    ensures r[|r| - |s|..] == s
    ensures forall i :: 0 <= i < |r| - |s| ==> r[i] == fill
  {
    if |s| >= width then s
    else seq(width - |s|, _ => fill) + s
  }

  /** A run of zeros reads as 0. */
  lemma {:induction false} ParseZeros(z: string)
    requires forall i :: 0 <= i < |z| ==> z[i] == '0'
    ensures ParseNat(z) == 0
  {
    if z != [] {
      ParseZeros(z[..|z| - 1]);
    }
  }

  /** Leading zeros do not change the value. */
  lemma {:induction false} ParseLeadingZeros(z: string, s: string)
    requires forall i :: 0 <= i < |z| ==> z[i] == '0'
    ensures ParseNat(z + s) == ParseNat(s)
  {
    if s == [] {
      assert z + s == z;
      ParseZeros(z);
    } else {
      assert (z + s)[..|z + s| - 1] == z + s[..|s| - 1];
      ParseLeadingZeros(z, s[..|s| - 1]);
    }
  }

  /** `n.toString().padStart(2, '0')`: at least two digits, exactly two below 100. */
  function TwoDigits(n: nat): (r: string)
    ensures |r| >= 2 && AllDigits(r)
    ensures n < 100 <==> |r| == 2
  {
    PadStart(NatToString(n), 2, '0')
  }

  /** Reading back a zero-padded decimal form gives the number. */
  lemma TwoDigitsParse(n: nat)
    ensures ParseNat(TwoDigits(n)) == n
  {
    var s := NatToString(n);
    var r := TwoDigits(n);
    var z := r[..|r| - |s|];
    assert r == z + s;
    ParseLeadingZeros(z, s);
    ParseNatToString(n);
  }

  /** `Math.floor(seconds / 60)`: whole minutes, below 100 exactly when the
      count is below 100 minutes. */
  function Minutes(seconds: nat): (m: nat)
    ensures seconds < 100 * 60 <==> m < 100
  {
    seconds / 60
  }

  /** `seconds % 60`: the seconds past the last whole minute. */
  function Seconds(seconds: nat): (s: nat)
    ensures s < 60
    ensures Minutes(seconds) * 60 + s == seconds
  {
    seconds % 60
  }

  // ---------------------------------------------------------------------
  // formatTime
  // ---------------------------------------------------------------------

  /** `formatTime`: whole minutes and remaining seconds, each at least two
      digits, joined by a colon. The seconds part is always exactly two
      digits; the minutes part grows past two digits from 100 minutes on. */
  function FormatTime(seconds: nat): (r: string)
    ensures |r| >= 5 && r[|r| - 3] == ':'
    ensures AllDigits(r[..|r| - 3]) && AllDigits(r[|r| - 2..])
    ensures seconds < 100 * 60 <==> |r| == 5
  {
    Colon(TwoDigits(Minutes(seconds)), TwoDigits(Seconds(seconds)))
  }

  /** `${mins}:${secs}`, with the two parts found again on either side. */
  function Colon(mins: string, secs: string): (r: string)
    requires |secs| == 2
    ensures |r| == |mins| + 3 && r[|r| - 3] == ':'
    ensures r[..|r| - 3] == mins && r[|r| - 2..] == secs
  {
    var r := mins + ":" + secs;
    assert r[..|r| - 3] == mins;
    r
  }

  /** Reading an `m:ss` display back to seconds: the digits before the
      last colon are minutes, the two after it seconds. */
  function ReadTime(r: string): nat {
    if |r| < 3 then 0 else ParseNat(r[..|r| - 3]) * 60 + ParseNat(r[|r| - 2..])
  }

  lemma ReadColon(mins: string, secs: string)
    requires |secs| == 2
    ensures ReadTime(Colon(mins, secs)) == ParseNat(mins) * 60 + ParseNat(secs)
  {
  }

  /** The display determines the time: reading it back gives the input. */
  lemma FormatTimeRoundTrip(seconds: nat)
    ensures ReadTime(FormatTime(seconds)) == seconds
  {
    ReadColon(TwoDigits(Minutes(seconds)), TwoDigits(Seconds(seconds)));
    TwoDigitsParse(Minutes(seconds));
    TwoDigitsParse(Seconds(seconds));
  }

  /** So two different times never show the same text. */
  lemma FormatTimeInjective(a: nat, b: nat)
    requires FormatTime(a) == FormatTime(b)
    ensures a == b
  {
    FormatTimeRoundTrip(a);
    FormatTimeRoundTrip(b);
  }

  // The padded decimal forms that the session lengths show, one number at a time.
  lemma TwoDigitsZero() ensures TwoDigits(0) == "00" { assert NatToString(0) == "0"; }
  lemma TwoDigitsFive() ensures TwoDigits(5) == "05" { assert NatToString(5) == "5"; }

  lemma TwoDigitsFifteen()
    ensures TwoDigits(15) == "15"
  {
    var hi, lo := NatToString(1), DigitChar(5);
    assert hi == "1" && lo == '5';
    assert NatToString(15) == hi + [lo];
    assert hi + [lo] == "15";
    assert PadStart("15", 2, '0') == "15";
  }

  lemma TwoDigitsTwentyFive()
    ensures TwoDigits(25) == "25"
  {
    var hi, lo := NatToString(2), DigitChar(5);
    assert hi == "2" && lo == '5';
    assert NatToString(25) == hi + [lo];
    assert hi + [lo] == "25";
    assert PadStart("25", 2, '0') == "25";
  }

  lemma SessionParts()
    ensures Minutes(1500) == 25 && Minutes(300) == 5 && Minutes(900) == 15
    ensures Seconds(1500) == 0 && Seconds(300) == 0 && Seconds(900) == 0
  {
  }

  lemma SessionColons()
    ensures Colon("25", "00") == "25:00" && Colon("05", "00") == "05:00" && Colon("15", "00") == "15:00"
  {
  }

  // Each session length rendered, one value per lemma to keep the proofs small.
  lemma Display1500()
    ensures FormatTime(1500) == "25:00"
  {
    SessionParts();
    SessionColons();
    TwoDigitsTwentyFive();
    TwoDigitsZero();
  }

  lemma Display300()
    ensures FormatTime(300) == "05:00"
  {
    SessionParts();
    SessionColons();
    TwoDigitsFive();
    TwoDigitsZero();
  }

  lemma Display900()
    ensures FormatTime(900) == "15:00"
  {
    SessionParts();
    SessionColons();
    TwoDigitsFifteen();
    TwoDigitsZero();
  }

  /** The three session lengths as the timer first shows them. */
  lemma TimesDisplay()
    ensures FormatTime(Times(Work)) == "25:00"
    ensures FormatTime(Times(ShortBreak)) == "05:00"
    ensures FormatTime(Times(LongBreak)) == "15:00"
  {
    Display1500();
    Display300();
    Display900();
  }

  // ---------------------------------------------------------------------
  // The component's state
  // ---------------------------------------------------------------------

  /** The three pieces of state of the `Pomodoro` component. */
  class Timer {
    var timeLeft: int
    var isRunning: bool
    var mode: Mode

    /** The countdown stays between zero and the current session's length. */
    ghost predicate Valid()
      reads this
    {
      0 <= timeLeft <= Times(mode)
    }

    /** The initial state: a work session, full, paused. */
    constructor ()
      ensures mode == Work && timeLeft == Times(Work) && !isRunning
      ensures Valid()
    {
      mode, timeLeft, isRunning := Work, Times(Work), false;
    }

    /** `handleModeChange`: switch session, refill, pause. */
    method HandleModeChange(newMode: Mode)
      modifies this
      ensures mode == newMode && timeLeft == Times(newMode) && !isRunning
      ensures Valid()
    {
      mode := newMode;
      timeLeft := Times(newMode);
      isRunning := false;
    }

    /** `toggleTimer`: start or pause; the countdown itself is untouched. */
    method ToggleTimer()
      modifies this
      ensures isRunning == !old(isRunning)
      ensures timeLeft == old(timeLeft) && mode == old(mode)
      ensures old(Valid()) ==> Valid()
    {
      isRunning := !isRunning;
    }

    /** `resetTimer`: refill the current session and pause. */
    method ResetTimer()
      modifies this
      ensures mode == old(mode) && timeLeft == Times(mode) && !isRunning
      ensures Valid()
    {
      timeLeft := Times(mode);
      isRunning := false;
    }

    /** One step of the effect: while running with time left, an interval
        tick takes one second off; at zero the timer stops and the chime is
        played (the returned flag). */
    method Tick() returns (chime: bool)
      modifies this
      ensures mode == old(mode)
      ensures old(isRunning) && old(timeLeft) > 0 ==>
                timeLeft == old(timeLeft) - 1 && isRunning && !chime
      ensures !(old(isRunning) && old(timeLeft) > 0) ==>
                timeLeft == old(timeLeft)
                && isRunning == (old(isRunning) && old(timeLeft) != 0)
                && (chime <==> old(timeLeft) == 0)
      ensures old(Valid()) ==> Valid()
    {
      chime := false;
      if isRunning && timeLeft > 0 {
        timeLeft := timeLeft - 1;
      } else if timeLeft == 0 {
        isRunning := false;
        chime := true;
      }
    }

    /** What the timer shows: always `mm:ss`, since no session reaches 100 minutes. */
    function Display(): (r: string)
      reads this
      requires Valid()
      ensures |r| == 5 && r[2] == ':'
    {
      FormatTime(timeLeft)
    }
  }
}
