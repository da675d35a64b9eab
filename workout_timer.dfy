/**
 * The workout stopwatch card: a seconds counter that an interval advances once a
 * second while the watch runs, a start/pause button, a reset button, and the
 * "HH:MM:SS" display.
 */
module WorkoutTimer {
  import opened Wrappers
  import opened Text

  // ---------------------------------------------------------------------------
  // The display
  // ---------------------------------------------------------------------------

  /** Hours, minutes and seconds of a seconds count, as `formatTime` computes them. */
  datatype Clock = Clock(hours: nat, minutes: nat, seconds: nat)

  /**
   * `Math.floor(s / 3600)`, `Math.floor((s % 3600) / 60)` and `s % 60`: minutes and
   * seconds stay below 60 and together the three fields add back up to `s`.
   */
  function ClockOf(s: nat): (c: Clock)
    ensures c.minutes < 60 && c.seconds < 60
    ensures c.hours * 3600 + c.minutes * 60 + c.seconds == s
  {
    Clock(s / 3600, (s % 3600) / 60, s % 60)
  }

  /** One field of the display: `n.toString().padStart(2, '0')`. */
  function Field(n: nat): (r: string)
    ensures |r| >= 2 && AllDigits(r) && DigitsValue(r) == n
    ensures n < 100 ==> |r| == 2
  {
    assert n < 100 ==> |NatToString(n)| <= 2 by {
      if n < 100 {
        NumeralBelowHundred(n);
      }
    }
    PaddedNumeralValue(n);
    PadStart2(NatToString(n))
  }

  /** Where the pieces of `a:b:c` sit when `b` and `c` have two characters each. */
  lemma ColonLayout(a: string, b: string, c: string)
    requires |b| == 2 && |c| == 2
    ensures var r := a + (":" + (b + (":" + c)));
      && |r| == |a| + 6 && r[|r| - 3] == ':' && r[|r| - 6] == ':'
      && r[..|r| - 6] == a && r[|r| - 5..|r| - 3] == b && r[|r| - 2..] == c
  {
  }

  /**
   * How the display is laid out for a clock: the last two colons sit three and six
   * characters from the end, with the hours field before them and the minutes and
   * seconds fields between and after them.
   */
  predicate Layout(r: string, c: Clock) {
    && |r| >= 8 && r[|r| - 3] == ':' && r[|r| - 6] == ':'
    && r[..|r| - 6] == Field(c.hours)
    && r[|r| - 5..|r| - 3] == Field(c.minutes) && r[|r| - 2..] == Field(c.seconds)
  }

  /** The three fields separated by ':'. */
  function FormatClock(c: Clock): (r: string)
    requires c.minutes < 60 && c.seconds < 60
    ensures Layout(r, c)
  {
    var hh, mm, ss := Field(c.hours), Field(c.minutes), Field(c.seconds);
    ColonLayout(hh, mm, ss);
    hh + (":" + (mm + (":" + ss)))
  }

  /**
   * `formatTime`: each field written in decimal and padded on the left with '0' to
   * at least two characters, separated by ':'. Hours may take more than two digits;
   * minutes and seconds always take exactly two.
   */
  function FormatTime(s: nat): (r: string)
    ensures Layout(r, ClockOf(s))
  {
    FormatClock(ClockOf(s))
  }

  /** Different numbers give different fields. */
  lemma FieldInjective(a: nat, b: nat)
    ensures Field(a) == Field(b) <==> a == b
  {
  }

  /** A text is the layout of at most one clock. */
  lemma LayoutDeterminesClock(r: string, c: Clock, d: Clock)
    requires Layout(r, c) && Layout(r, d)
    ensures c == d
  {
    FieldInjective(c.hours, d.hours);
    FieldInjective(c.minutes, d.minutes);
    FieldInjective(c.seconds, d.seconds);
  }

  /** The display determines the count: two counts show the same display exactly when they are equal. */
  lemma FormatTimeInjective(a: nat, b: nat)
    ensures FormatTime(a) == FormatTime(b) <==> a == b
  {
    if FormatTime(a) == FormatTime(b) {
      LayoutDeterminesClock(FormatTime(a), ClockOf(a), ClockOf(b));
    }
  }

  // ---------------------------------------------------------------------------
  // The state machine
  // ---------------------------------------------------------------------------

  /** The card's state: `seconds`, `isActive` and `isPaused`. */
  class Stopwatch {
    var seconds: nat
    var isActive: bool
    var isPaused: bool

    /** A paused watch is always a started one. */
    predicate Valid()
      reads this
    {
      isPaused ==> isActive
    }

    /** `seconds` displayed as "HH:MM:SS". */
    function Display(): string
      reads this
    {
      FormatTime(seconds)
    }

    /** The initial state: zero, not started, not paused. */
    constructor()
      ensures Valid()
      ensures seconds == 0 && !isActive && !isPaused
    {
      seconds := 0;
      isActive := false;
      isPaused := false;
    }

    /** The interval's callback: one second more exactly while running and not paused. */
    method Tick()
      requires Valid()
      modifies this`seconds
      ensures Valid()
      ensures isActive && !isPaused ==> seconds == old(seconds) + 1
      ensures !(isActive && !isPaused) ==> seconds == old(seconds)
    {
      if isActive && !isPaused {
        seconds := seconds + 1;
      }
    }

    /** `handleStartStop`: starts a stopped watch unpaused; on a started one toggles the pause. */
    method HandleStartStop()
      requires Valid()
      modifies this`isActive, this`isPaused
      ensures Valid()
      ensures !old(isActive) ==> isActive && !isPaused
      ensures old(isActive) ==> isActive && isPaused == !old(isPaused)
    {
      if !isActive {
        isActive := true;
        isPaused := false;
      } else {
        isPaused := !isPaused;
      }
    }

    /** `handleReset`: back to zero, stopped and unpaused, whatever the state was. */
    method HandleReset()
      modifies this
      ensures Valid()
      ensures seconds == 0 && !isActive && !isPaused
    {
      isActive := false;
      isPaused := false;
      seconds := 0;
    }
  }
}
