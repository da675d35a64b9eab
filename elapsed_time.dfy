/**
 * The message shown when a session is completed: the time since the session
 * started, split into hours, minutes and seconds with JavaScript's arithmetic and
 * written as "Hh Mmin Ss", leaving out the leading parts that are zero.
 */
module ElapsedTime {
  import opened Wrappers
  import opened Text
  import opened ElapsedReader

  /** JavaScript's `%` on integers: the remainder takes the sign of the dividend. */
  function JsRem(a: int, b: int): (r: int)
    requires b > 0
    ensures a >= 0 ==> r == a % b
    ensures a < 0 ==> -b < r <= 0
    ensures (a - r) % b == 0
  {
    if a >= 0 then
      RemainderLeavesMultiple(a, b);
      a % b
    else
      RemainderLeavesMultiple(-a, b);
      -((-a) % b)
  }

  lemma MulAtLeast(k: int, x: int)
    requires k > 0 && x >= 1
    ensures k * x >= k
  {
  }

  /** Quotient and remainder by a positive divisor are the only pair with a remainder in range. */
  lemma DivModUnique(n: int, k: int, q: int, r: int)
    requires k > 0 && n == k * q + r && 0 <= r < k
    ensures n / k == q && n % k == r
  {
    var q0, r0 := n / k, n % k;
    assert k * q0 + r0 == k * q + r;
    if q > q0 {
      MulAtLeast(k, q - q0);
    } else if q < q0 {
      MulAtLeast(k, q0 - q);
    }
  }

  /** Taking away the remainder of `n` by `k` leaves a multiple of `k`, with either sign. */
  lemma RemainderLeavesMultiple(n: int, k: int)
    requires n >= 0 && k > 0
    ensures (n - n % k) % k == 0 && (-(n - n % k)) % k == 0
  {
    var q := n / k;
    DivModUnique(n - n % k, k, q, 0);
    DivModUnique(-(n - n % k), k, -q, 0);
  }

  /** Dividing a non-positive number by a positive one rounds down: `-y / k` is minus `y / k` rounded up. */
  lemma NegDiv(y: int, k: int)
    requires y >= 0 && k > 0
    ensures (-y) / k == -((y + k - 1) / k)
  {
    var q, r := (y + k - 1) / k, (y + k - 1) % k;
    DivModUnique(y + k - 1, k, q, r);
    DivModUnique(-y, k, -q, k - 1 - r);
  }

  datatype Elapsed = Elapsed(horas: int, minutos: int, segundos: int)

  /**
   * `horas = floor(d / 3600000)`, `minutos = floor((d % 3600000) / 60000)` and
   * `segundos = floor((d % 60000) / 1000)`, with JavaScript's `%` (Dafny's `/` by a
   * positive divisor already rounds down). For a non-negative `d` the fields are the
   * whole hours, minutes and seconds of `d`; for a negative `d` (the clock went back)
   * no field is positive.
   */
  function Decompose(d: int): (e: Elapsed)
    ensures d >= 0 ==> e.horas >= 0 && 0 <= e.minutos < 60 && 0 <= e.segundos < 60
    ensures d >= 0 ==> e.horas * 3600 + e.minutos * 60 + e.segundos == d / 1000
    ensures d < 0 ==> e.horas < 0 && -60 <= e.minutos <= 0 && -60 <= e.segundos <= 0
  {
    var e := Elapsed(d / 3_600_000, JsRem(d, 3_600_000) / 60_000, JsRem(d, 60_000) / 1000);
    assert d >= 0 ==> e.horas * 3600 + e.minutos * 60 + e.segundos == d / 1000 by {
      if d >= 0 {
        SplitMillis(d);
      }
    }
    e
  }

  /**
   * For a negative duration each field is the matching part of `-d` rounded up and
   * negated: `Math.floor` of a negative quotient rounds away from zero.
   */
  lemma DecomposeNegative(d: int)
    requires d < 0
    ensures Decompose(d).horas == -((-d + 3_599_999) / 3_600_000)
    ensures Decompose(d).minutos == -(((-d) % 3_600_000 + 59_999) / 60_000)
    ensures Decompose(d).segundos == -(((-d) % 60_000 + 999) / 1000)
  {
    NegDiv(-d, 3_600_000);
    NegDiv((-d) % 3_600_000, 60_000);
    NegDiv((-d) % 60_000, 1000);
  }

  /** The arithmetic behind Decompose: hours, minutes and seconds of d milliseconds add up to d / 1000 seconds. */
  lemma SplitMillis(d: nat)
    ensures (d / 3_600_000) * 3600 + ((d % 3_600_000) / 60_000) * 60 + (d % 60_000) / 1000 == d / 1000
  {
    var a := d % 1000;
    var q := d / 1000;
    var h := q / 3600;
    var r := q % 3600;
    var m := r / 60;
    var s := r % 60;
    HourPart(d, a, q, h, r);
    MinutePart(d % 3_600_000, a, r, m, s);
    SecondPart(d, a, q, h, m, s);
  }

  lemma HourPart(d: nat, a: nat, q: nat, h: nat, r: nat)
    requires d == 1000 * q + a && a < 1000 && q == 3600 * h + r && r < 3600
    ensures d / 3_600_000 == h && d % 3_600_000 == 1000 * r + a
  {
    assert d == 3_600_000 * h + (1000 * r + a);
  }

  lemma MinutePart(rh: nat, a: nat, r: nat, m: nat, s: nat)
    requires rh == 1000 * r + a && a < 1000 && r == 60 * m + s && s < 60
    ensures rh / 60_000 == m
  {
    assert rh == 60_000 * m + (1000 * s + a);
  }

  /** The remainder by 60 000 of `60_000 * k + r` for a small `r`. */
  lemma MinuteRemainder(n: nat, k: nat, r: nat)
    requires n == 60_000 * k + r && r < 60_000
    ensures n % 60_000 == r
  {
  }

  lemma SecondPart(d: nat, a: nat, q: nat, h: nat, m: nat, s: nat)
    requires d == 1000 * q + a && a < 1000 && q == 3600 * h + 60 * m + s && s < 60
    ensures (d % 60_000) / 1000 == s
  {
    var k := 60 * h + m;
    assert d == 60_000 * k + (1000 * s + a);
    MinuteRemainder(d, k, 1000 * s + a);
  }

  /** The message text: "Hh " unless there are no hours, "Mmin " unless hours and minutes are both zero, then "Ss". */
  function FormatElapsed(d: int): (r: string)
    ensures d < 0 ==> r == IntToString(-(((-d) % 60_000 + 999) / 1000)) + "s"
  {
    var e := Decompose(d);
    assert d < 0 ==> e.segundos == -(((-d) % 60_000 + 999) / 1000) by {
      if d < 0 {
        DecomposeNegative(d);
      }
    }
    (if e.horas > 0 then IntToString(e.horas) + "h " else "")
    + (if e.minutos > 0 || e.horas > 0 then IntToString(e.minutos) + "min " else "")
    + IntToString(e.segundos) + "s"
  }

  /** "Ss". */
  function SecondsText(s: nat): string {
    NatToString(s) + "s"
  }

  /** "Mmin Ss". */
  function MinutesText(m: nat, s: nat): string {
    NatToString(m) + ("min " + SecondsText(s))
  }

  /** "Hh Mmin Ss". */
  function HoursText(h: nat, m: nat, s: nat): string {
    NatToString(h) + ("h " + MinutesText(m, s))
  }

  /**
   * For a non-negative duration the message takes one of three shapes, grouped from
   * the right: "Hh Mmin Ss" when there are hours, "Mmin Ss" when there are minutes
   * but no hours, and "Ss" otherwise.
   */
  lemma FormatElapsedIsText(d: nat, h: nat, m: nat, s: nat)
    requires Decompose(d) == Elapsed(h, m, s)
    ensures h > 0 ==> FormatElapsed(d) == HoursText(h, m, s)
    ensures h == 0 && m > 0 ==> FormatElapsed(d) == MinutesText(m, s)
    ensures h == 0 && m == 0 ==> FormatElapsed(d) == SecondsText(s)
  {
  }

  /** "Ss" reads back as its seconds. */
  lemma ReadSecondsText(s: nat)
    ensures ParseElapsed(SecondsText(s)) == Some(s)
  {
    ReadNumeralOf(s, "s");
    ReadSecondsGroup(SecondsText(s), s, 2);
  }

  /** "Mmin Ss" reads back as its seconds. */
  lemma ReadMinutesText(m: nat, s: nat)
    ensures ParseElapsed(MinutesText(m, s)) == Some(m * 60 + s)
  {
    ReadNumeralOf(m, "min " + SecondsText(s));
    ReadNumeralOf(s, "s");
    ReadMinutesMessage(MinutesText(m, s), m, SecondsText(s), s, 2);
  }

  /** "Hh Mmin Ss" reads back as its seconds. */
  lemma ReadHoursText(h: nat, m: nat, s: nat)
    ensures ParseElapsed(HoursText(h, m, s)) == Some(h * 3600 + m * 60 + s)
  {
    ReadNumeralOf(h, "h " + MinutesText(m, s));
    ReadNumeralOf(m, "min " + SecondsText(s));
    ReadNumeralOf(s, "s");
    ReadHoursMessage(HoursText(h, m, s), h, MinutesText(m, s), m, SecondsText(s), s);
  }

  /** Each of the three shapes of the message reads back to its total of seconds. */
  lemma ParseElapsedText(t: string, h: nat, m: nat, s: nat)
    ensures && (h > 0 ==> t == HoursText(h, m, s))
            && (h == 0 && m > 0 ==> t == MinutesText(m, s))
            && (h == 0 && m == 0 ==> t == SecondsText(s))
            ==> ParseElapsed(t) == Some(h * 3600 + m * 60 + s)
  {
    if h > 0 {
      ReadHoursText(h, m, s);
    } else if m > 0 {
      ReadMinutesText(m, s);
    } else {
      ReadSecondsText(s);
    }
  }

  /** A text of the shape that fields h, m, s call for reads back as any `n` equal to their total. */
  lemma ReadBack(t: string, h: nat, m: nat, s: nat, n: nat)
    ensures && (h > 0 ==> t == HoursText(h, m, s))
            && (h == 0 && m > 0 ==> t == MinutesText(m, s))
            && (h == 0 && m == 0 ==> t == SecondsText(s))
            && h * 3600 + m * 60 + s == n
            ==> ParseElapsed(t) == Some(n)
  {
    ParseElapsedText(t, h, m, s);
    SameTotal(t, h * 3600 + m * 60 + s, n);
  }

  /**
   * A reading equal to `a` is a reading equal to any `n` that equals `a`. Kept apart
   * from `ReadBack` so that the arithmetic of the total is not in the same proof as
   * the reading of the text.
   */
  lemma SameTotal(t: string, a: nat, n: nat)
    ensures ParseElapsed(t) == Some(a) && a == n ==> ParseElapsed(t) == Some(n)
  {
  }

  /**
   * The message determines the elapsed time to the second: reading it back gives
   * the whole seconds of `d`, whichever of its three shapes it takes.
   */
  lemma FormatElapsedRoundTrip(d: nat)
    ensures ParseElapsed(FormatElapsed(d)) == Some(d / 1000)
  {
    var e := Decompose(d);
    var h, m, s := e.horas as nat, e.minutos as nat, e.segundos as nat;
    FormatElapsedIsText(d, h, m, s);
    ReadBack(FormatElapsed(d), h, m, s, d / 1000);
  }
}
